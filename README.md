# Vendor LCD panel adapters, modelled in Dafny

The repository drives RGB LCD panels on ESP32-S3 through three vendor panel
adapters:

- NV3052C (`components/esp_lcd_nv3052c/esp_lcd_nv3052c.c`);
- H035A17 (`components/lcd_h035a17/lcd_h035a17.c`, with its header `lcd_h035a17.h`);
- H040A18 (`components/lcd_H040A18/lcd_H040A18.c`).

Each adapter's factory checks its configuration and allocates a record. It
configures the reset GPIO. With I/O multiplexing, it resets the panel and
replays an initialisation command table before the generic RGB panel exists.
It then creates that panel, saves its five lifecycle operations
(`init`, `del`, `reset`, `mirror`, `disp_on_off`) and puts its own in their
place. Every failure after the allocation releases the reset pin and frees the
record.

The NV3052C adapter also derives cached `set_address_mode` (MADCTL) and
`set_pixel_format` (COLMOD) bytes from the colour order and pixel width. It
sends both ahead of the table and picks up any table record that overrides
them. Its `mirror` and `disp_on_off` can work by command.

The H035A17 and H040A18 adapters are the same code over different built-in
tables. They derive nothing, and their `mirror` and `disp_on_off` do nothing.
Lines 172-288 of `lcd_H040A18.c` repeat lines 315-431 of `lcd_h035a17.c`, so
one record class models both. The rows below cite the `lcd_h035a17.c` copy.

An adapter's behaviour is observed through the external effects it produces,
in order:

- allocation and release of the record;
- GPIO configuration, level changes and release;
- transmissions of a command with its parameter bytes;
- delays;
- creation of the RGB panel;
- calls into the saved generic operations.

Each operation returns its status and the effects of that call. The answers of
the collaborators come in as oracle parameters: the transport's answer to the
n-th transmission of a call, `gpio_config`, `calloc`, `esp_lcd_new_rgb_panel`,
and the generic operations. Lifetime properties are lemmas over the effects of
several calls.

Modules:

- `LcdTypes`: the init-command record and vendor configuration of
  `lcd_h035a17.h`, status codes, MIPI DCS command codes (MIPI DCS v1.1,
  section 6), effects, and the generic RGB panel's operation table.
- `InitReplay`: the table replay every adapter performs, and its properties.
- `AdapterOps`: the record value and the parts all three adapters share: the
  field assignments, the error label, the RGB panel's creation, `reset` and
  `del`.
- `Nv3052c`: the NV3052C built-in table, format derivation, override
  detection, lifecycle specifications and the class `Nv3052Panel`.
- `PlainAdapter`: the specifications shared by H035A17 and H040A18, and the
  class `PlainPanel` they both use.
- `LcdH035a17`, `LcdH040a18`: each vendor's built-in table and factory.

Every specification function takes the built-in table as a parameter, so its
lemmas hold for any table. The classes and the table lemmas use the vendor's
own constant.

## Model

| member | source | states |
|---|---|---|
| LcdTypes.Params | components/lcd_h035a17/include/lcd_h035a17.h:20-25 | A record sends exactly its first data_bytes bytes; a record with data_bytes 0 sends no parameter |
| LcdTypes.VendorFlags.SetAutoDelPanelIo | components/lcd_h035a17/include/lcd_h035a17.h:38-41 | auto_del_panel_io and enable_io_multiplex are one bit: writing either sets both, other flags unchanged |
| InitReplay.RecordEffects | components/lcd_h035a17/lcd_h035a17.c:328-334 | Record i's transmission is effect 2i and its delay effect 2i+1 of a complete replay |
| InitReplay.Play | components/lcd_h035a17/lcd_h035a17.c:328-334 | Defines the replay loop: record j is the (n + j)-th transmission; a failed transmission ends the replay with its status after that record was attempted, otherwise the record's delay follows and the next record is sent |
| InitReplay.PlayEffects | components/lcd_h035a17/lcd_h035a17.c:328-334 | The replay loop produces only transmissions and delays, at most two per record |
| InitReplay.PlayAllSent | components/lcd_h035a17/lcd_h035a17.c:328-334 | When every transmission succeeds the replay succeeds, sending every record in table order, each followed by its delay |
| InitReplay.PlayStopsAtFirstFailure | components/lcd_h035a17/lcd_h035a17.c:328-334 | The first failed transmission ends the replay with its status; records after it are never sent |
| InitReplay.PlaySucceedsIff | components/lcd_h035a17/lcd_h035a17.c:328-334 | A replay succeeds exactly when all its transmissions succeed |
| InitReplay.RecordEffectsSendEachOnce | components/lcd_h035a17/lcd_h035a17.c:328-334 | A complete replay sends each record exactly once, in order, and nothing else |
| InitReplay.RecordEffectsDelay | components/lcd_h035a17/lcd_h035a17.c:328-334 | A complete replay waits exactly the sum of the table's delays |
| AdapterOps.Configured | components/esp_lcd_nv3052c/esp_lcd_nv3052c.c:101-108 | The record takes the transport, table, reset pin, flags and reset level from the configuration; display on/off goes by command exactly when disp_gpio_num is negative |
| AdapterOps.ArgsValid | components/esp_lcd_nv3052c/esp_lcd_nv3052c.c:55-59 | Defines the factory's argument checks: transport, device configuration, result pointer, vendor configuration and RGB configuration all present, and not both multiplexing and mirror by command |
| AdapterOps.Release | components/esp_lcd_nv3052c/esp_lcd_nv3052c.c:153-160 | The error label releases the reset pin exactly when one is configured, then frees the record, last and once |
| AdapterOps.Prologue | components/esp_lcd_nv3052c/esp_lcd_nv3052c.c:62-71 | Allocation and pin configuration release nothing, touch only the reset pin and send nothing |
| AdapterOps.AbandonKeepsDiscipline | components/esp_lcd_nv3052c/esp_lcd_nv3052c.c:153-160 | A failure after allocation ends with exactly the release and released nothing before |
| AdapterOps.CreateRgbPanel | components/esp_lcd_nv3052c/esp_lcd_nv3052c.c:133-151 | A record is handed out exactly when the RGB panel was created, and it is the configured record |
| AdapterOps.CreateRgbPanelKeepsDiscipline | components/esp_lcd_nv3052c/esp_lcd_nv3052c.c:133-160 | A failed RGB panel creation releases the pin and record; a successful one releases nothing |
| AdapterOps.ResetReachesOriginal | components/esp_lcd_nv3052c/esp_lcd_nv3052c.c:432-451 | Reset sends at most soft_reset (only with no pin and a live transport) and calls the original reset, returning its status, unless that soft_reset failed |
| AdapterOps.ResetOp | components/esp_lcd_nv3052c/esp_lcd_nv3052c.c:432-451 | Defines the adapted reset: pulse the pin and wait 120 ms when there is one, else soft_reset and 120 ms when the transport is live (a failure returns its status), then the original reset |
| AdapterOps.ResetDrivesPin | components/esp_lcd_nv3052c/esp_lcd_nv3052c.c:437-448 | With a pin, reset drives it active, holds 10 ms, releases it, waits 120 ms and then calls the original, touching no other pin and releasing nothing; without a pin no pin is driven; without pin and transport only the original is called |
| AdapterOps.DelEffects | components/esp_lcd_nv3052c/esp_lcd_nv3052c.c:418-430 | del releases the pin exactly when configured, calls the original del, frees the record last and sends nothing |
| Nv3052c.MadctlFor | components/esp_lcd_nv3052c/esp_lcd_nv3052c.c:73-83 | Only the RGB and BGR orders are accepted |
| Nv3052c.MadctlForBits | components/esp_lcd_nv3052c/esp_lcd_nv3052c.c:73-83 | The cached address mode has only the BGR bit, set exactly for BGR |
| Nv3052c.ColmodFor | components/esp_lcd_nv3052c/esp_lcd_nv3052c.c:85-99 | Only widths 16, 18 and 24 are accepted |
| Nv3052c.ColmodForRoundTrip | components/esp_lcd_nv3052c/esp_lcd_nv3052c.c:85-99 | The pixel format holds only a DPI field, which reads back as the width; two widths never share a value |
| Nv3052c.Override | components/esp_lcd_nv3052c/esp_lcd_nv3052c.c:367-376 | Defines one record's override detection: a record with a parameter and command set_address_mode or set_pixel_format replaces that cached value with its first byte |
| Nv3052c.Overridden | components/esp_lcd_nv3052c/esp_lcd_nv3052c.c:365-392 | Defines the cached values after the detection has seen every record of a table in order |
| Nv3052c.OverriddenIsLastSetting | components/esp_lcd_nv3052c/esp_lcd_nv3052c.c:365-392 | After the detection each cached value is that of the table's last record setting it, else unchanged |
| Nv3052c.DefaultTableVendorPageOverride | components/esp_lcd_nv3052c/esp_lcd_nv3052c.c:165-176 | The detection ignores the command page, so page 1's register 0x3A is taken for set_pixel_format and 0x33 is cached |
| Nv3052c.DefaultTableSettles | components/esp_lcd_nv3052c/esp_lcd_nv3052c.c:327-333 | A complete replay of the built-in table leaves address mode 0x02 and pixel format 0x55 cached |
| Nv3052c.ReplayRecordsPlays | components/esp_lcd_nv3052c/esp_lcd_nv3052c.c:365-392 | The replay with override detection sends and returns exactly what the plain replay does |
| Nv3052c.ReplayRecords | components/esp_lcd_nv3052c/esp_lcd_nv3052c.c:365-392 | Defines the NV3052C table loop: the detection updates the cache before each record's transmission, and the first failed transmission ends it with its status |
| Nv3052c.ReplayRecordsRegs | components/esp_lcd_nv3052c/esp_lcd_nv3052c.c:367-376 | The cached values after a replay are those of every record attempted, up to the first failed one |
| Nv3052c.SendInitCmdsOp | components/esp_lcd_nv3052c/esp_lcd_nv3052c.c:336-403 | Sending the init commands produces only transmissions and delays |
| Nv3052c.SendInitCmdsSucceedsIff | components/esp_lcd_nv3052c/esp_lcd_nv3052c.c:348-392 | It succeeds exactly when the two cached-value transmissions and all table transmissions succeed |
| Nv3052c.SendInitCmdsComplete | components/esp_lcd_nv3052c/esp_lcd_nv3052c.c:348-392 | A successful send is address mode, pixel format, then each table record with its delay; the table's last overrides stay cached |
| Nv3052c.InitEffectsSend | components/esp_lcd_nv3052c/esp_lcd_nv3052c.c:348-392 | A complete send transmits the two cached values then each record once, in order, and nothing else |
| Nv3052c.InitReachesOriginalIff | components/esp_lcd_nv3052c/esp_lcd_nv3052c.c:405-416 | init reaches the original init exactly when multiplexed or every init transmission succeeded; it is then last and gives the status; only the cached values change |
| Nv3052c.InitOp | components/esp_lcd_nv3052c/esp_lcd_nv3052c.c:405-416 | Defines init: without multiplexing send the init commands, returning a failure before the original; then call the original init and return its status |
| Nv3052c.WithMlBits | components/esp_lcd_nv3052c/esp_lcd_nv3052c.c:467-471 | The ML bit is set exactly when y is mirrored, every other address-mode bit is kept, and repeating is idempotent |
| Nv3052c.MirrorByCommand | components/esp_lcd_nv3052c/esp_lcd_nv3052c.c:453-483 | By command: never the original; a complete call sends SDIR (0x04 for x) then the address mode with ML set exactly for y. Otherwise only the original runs. Only the cached address mode changes |
| Nv3052c.MirrorByCommandFails | components/esp_lcd_nv3052c/esp_lcd_nv3052c.c:458-477 | By command, mirror succeeds exactly when the transport is present and SDIR and the address mode both go out; a null transport gives ESP_FAIL with no effect; a failed SDIR returns its status with the address mode never sent; a failed address mode returns its status; the ML bit is updated before either send, so it stays set exactly for y even on failure |
| Nv3052c.MirrorOp | components/esp_lcd_nv3052c/esp_lcd_nv3052c.c:453-483 | Defines mirror: by command, ESP_FAIL on a null transport, else update the cached ML bit, send SDIR then the address mode, each returning its failure; otherwise the original mirror |
| Nv3052c.Pulse | components/esp_lcd_nv3052c/esp_lcd_nv3052c.c:110-117 | The factory's reset sends nothing when there is a pin and only soft_reset when there is none |
| Nv3052c.PulseDrivesPin | components/esp_lcd_nv3052c/esp_lcd_nv3052c.c:110-117 | With a pin the pulse drives it active, holds 10 ms and releases it, touching no other pin: the same pulse the adapted reset starts with; without a pin it is soft_reset alone |
| Nv3052c.EarlyBringUp | components/esp_lcd_nv3052c/esp_lcd_nv3052c.c:110-125 | The factory's bring-up only transmits, waits, and sets the reset pin |
| Nv3052c.Allocated | components/esp_lcd_nv3052c/esp_lcd_nv3052c.c:61-108 | After allocation the record is the first effect, and a record is handed out exactly on success |
| Nv3052c.Finish | components/esp_lcd_nv3052c/esp_lcd_nv3052c.c:110-160 | The same holds for the factory's second half |
| Nv3052c.NewChecksBeforeEffects | components/esp_lcd_nv3052c/esp_lcd_nv3052c.c:55-63 | Bad arguments give INVALID_ARG and a failed calloc NO_MEM, both before any effect; otherwise allocation comes first |
| Nv3052c.NewPanel | components/esp_lcd_nv3052c/esp_lcd_nv3052c.c:52-161 | Defines the factory: INVALID_ARG on failed argument checks and NO_MEM on failed calloc, both without effect, else the allocated record's set-up |
| Nv3052c.FinishKeepsDiscipline | components/esp_lcd_nv3052c/esp_lcd_nv3052c.c:110-160 | The second half keeps the release discipline and the transport |
| Nv3052c.NewReleasesOnError | components/esp_lcd_nv3052c/esp_lcd_nv3052c.c:65-160 | After allocation, every failure (gpio_config, unsupported format, soft reset, replay, RGB panel) ends with exactly the pin and record release; a success releases nothing |
| Nv3052c.FinishMultiplexed | components/esp_lcd_nv3052c/esp_lcd_nv3052c.c:110-133 | A successful multiplexed factory's effects are the bring-up then the RGB panel; the table's overrides stay cached |
| Nv3052c.EarlyBringUpComplete | components/esp_lcd_nv3052c/esp_lcd_nv3052c.c:110-125 | A successful bring-up is the reset pulse or soft reset, 120 ms, the cached values and the whole table |
| Nv3052c.NewMultiplexedInitialisesFirst | components/esp_lcd_nv3052c/esp_lcd_nv3052c.c:110-133 | With multiplexing the factory resets, waits 120 ms and sends the derived values and the table before creating the RGB panel |
| Nv3052c.BringUpSends | components/esp_lcd_nv3052c/esp_lcd_nv3052c.c:110-133 | The bring-up sends soft_reset (no pin only), the two cached values, then each record once |
| Nv3052c.TableSentExactlyOnce | components/esp_lcd_nv3052c/esp_lcd_nv3052c.c:405-416 | Across factory and init, the derived values and then the table are sent exactly once: by the factory when multiplexed, by init otherwise |
| Nv3052c.SentByFactory | components/esp_lcd_nv3052c/esp_lcd_nv3052c.c:110-133 | Multiplexed: the factory sends everything and init nothing |
| Nv3052c.SentByInit | components/esp_lcd_nv3052c/esp_lcd_nv3052c.c:405-416 | Not multiplexed: the factory sends nothing and init sends the derived values and the table |
| Nv3052c.DisplayOnOffAfterNew | components/esp_lcd_nv3052c/esp_lcd_nv3052c.c:485-505 | On a handed-out record, disp_on_off sends set_display_on/off without parameters exactly when disp_gpio_num was negative, else calls the original |
| Nv3052c.DispOnOffOp | components/esp_lcd_nv3052c/esp_lcd_nv3052c.c:485-505 | Defines disp_on_off: by command, ESP_FAIL on a null transport, else one set_display_on or set_display_off whose status is returned; otherwise the original |
| Nv3052c.Nv3052Panel.SendInitCmds | components/esp_lcd_nv3052c/esp_lcd_nv3052c.c:336-403 | The method's effects, status and cached values are those of the send specification |
| Nv3052c.Nv3052Panel.ReplayTable | components/esp_lcd_nv3052c/esp_lcd_nv3052c.c:365-399 | The loop equals the replay with override detection, record by record |
| Nv3052c.Nv3052Panel.DetectOverride | components/esp_lcd_nv3052c/esp_lcd_nv3052c.c:367-376 | One record's detection updates the cached values as the override function says |
| Nv3052c.Nv3052Panel.Init | components/esp_lcd_nv3052c/esp_lcd_nv3052c.c:405-416 | init equals its specification and keeps the record valid |
| Nv3052c.Nv3052Panel.Del | components/esp_lcd_nv3052c/esp_lcd_nv3052c.c:418-430 | del returns OK whatever the original del returns, with the shared del effects, and ends the record's life |
| Nv3052c.Nv3052Panel.Reset | components/esp_lcd_nv3052c/esp_lcd_nv3052c.c:432-451 | reset equals the shared reset specification |
| Nv3052c.Nv3052Panel.Mirror | components/esp_lcd_nv3052c/esp_lcd_nv3052c.c:453-483 | mirror equals its specification; a null transport gives ESP_FAIL with no effect |
| Nv3052c.Nv3052Panel.DispOnOff | components/esp_lcd_nv3052c/esp_lcd_nv3052c.c:485-505 | disp_on_off equals its specification |
| Nv3052c.Nv3052Panel.Configure | components/esp_lcd_nv3052c/esp_lcd_nv3052c.c:73-108 | The set-up fails with NOT_SUPPORTED exactly for an unknown order or width; otherwise the record holds the configuration and the derived values |
| Nv3052c.Nv3052Panel.BringUp | components/esp_lcd_nv3052c/esp_lcd_nv3052c.c:110-125 | The bring-up equals its specification |
| Nv3052c.Nv3052Panel.Adapt | components/esp_lcd_nv3052c/esp_lcd_nv3052c.c:136-148 | The five original operations are saved and all five of the panel's now dispatch to this adapter |
| Nv3052c.Nv3052Panel.New | components/esp_lcd_nv3052c/esp_lcd_nv3052c.c:52-161 | The factory equals its specification; on success a fresh valid record and a fresh panel whose operations are this adapter's |
| Nv3052c.Nv3052Panel.Complete | components/esp_lcd_nv3052c/esp_lcd_nv3052c.c:110-160 | The factory's second half equals its specification |
| Nv3052c.Nv3052Panel.CreatePanel | components/esp_lcd_nv3052c/esp_lcd_nv3052c.c:133-160 | RGB panel creation and takeover equal the shared specification |
| PlainAdapter.Pulse | components/lcd_h035a17/lcd_h035a17.c:76-83 | The factory's reset sends nothing when there is a pin and only 0x01 when there is none |
| PlainAdapter.PulseDrivesPin | components/lcd_h035a17/lcd_h035a17.c:76-83 | With a pin the pulse drives it active for only 1 ms, releases it, waits 10 ms and writes the inactive level again, touching no other pin; without a pin it is 0x01 alone |
| PlainAdapter.InitReachesOriginalIff | components/lcd_h035a17/lcd_h035a17.c:340-349 | init reaches the original exactly when multiplexed or the replay succeeded, which then gives the status; before it come the whole table (not multiplexed) or nothing |
| PlainAdapter.InitOp | components/lcd_h035a17/lcd_h035a17.c:340-349 | Defines init: without multiplexing replay the table, returning a failure before the original; then call the original init and return its status |
| PlainAdapter.EarlyBringUp | components/lcd_h035a17/lcd_h035a17.c:75-87 | The factory's bring-up only transmits, waits, and sets the reset pin |
| PlainAdapter.EarlyBringUpComplete | components/lcd_h035a17/lcd_h035a17.c:75-87 | A successful bring-up is the pulse or 0x01, 120 ms, then the whole table with its delays |
| PlainAdapter.Allocated | components/lcd_h035a17/lcd_h035a17.c:55-73 | After allocation the record is the first effect, and a record is handed out exactly on success |
| PlainAdapter.Finish | components/lcd_h035a17/lcd_h035a17.c:75-116 | The same holds for the factory's second half |
| PlainAdapter.NewChecksBeforeEffects | components/lcd_h035a17/lcd_h035a17.c:49-56 | Bad arguments give INVALID_ARG and a failed calloc NO_MEM, both before any effect |
| PlainAdapter.NewPanel | components/lcd_h035a17/lcd_h035a17.c:48-117 | Defines the factory: INVALID_ARG on failed argument checks and NO_MEM on failed calloc, both without effect, else the allocated record's set-up |
| PlainAdapter.NewIgnoresPixelFormat | components/lcd_h035a17/lcd_h035a17.c:66-73 | The factory's result does not depend on colour order or pixel width, so there is no NOT_SUPPORTED path, and the cached values stay zero |
| PlainAdapter.FinishKeepsDiscipline | components/lcd_h035a17/lcd_h035a17.c:75-116 | The second half keeps the release discipline and hands out the configured record |
| PlainAdapter.NewReleasesOnError | components/lcd_h035a17/lcd_h035a17.c:109-116 | After allocation every failure ends with exactly the pin (when configured) and record release; a success releases nothing |
| PlainAdapter.FinishMultiplexed | components/lcd_h035a17/lcd_h035a17.c:75-89 | A successful multiplexed factory's effects are the bring-up then the RGB panel |
| PlainAdapter.NewMultiplexedInitialisesFirst | components/lcd_h035a17/lcd_h035a17.c:75-89 | With multiplexing the factory resets, waits 120 ms and replays the table before creating the RGB panel |
| PlainAdapter.BringUpSends | components/lcd_h035a17/lcd_h035a17.c:75-89 | The bring-up sends 0x01 (no pin only) then each record once, and never the cached values |
| PlainAdapter.TableSentExactlyOnce | components/lcd_h035a17/lcd_h035a17.c:340-349 | Across factory and init the table is sent exactly once: by the factory when multiplexed, by init otherwise |
| PlainAdapter.SentByFactory | components/lcd_h035a17/lcd_h035a17.c:75-89 | Multiplexed: the factory sends everything and init nothing |
| PlainAdapter.SentByInit | components/lcd_h035a17/lcd_h035a17.c:340-349 | Not multiplexed: the factory sends nothing and init sends the table |
| InitReplay.Replay | components/lcd_h035a17/lcd_h035a17.c:328-334 | The loop transmits each record and waits its delay, stopping at the first failed transmission with its status, exactly as the replay specification does |
| PlainAdapter.PlainPanel.SendInitCmds | components/lcd_h035a17/lcd_h035a17.c:315-338 | Sending replays the caller's table when one was given, else the built-in one |
| PlainAdapter.PlainPanel.Init | components/lcd_h035a17/lcd_h035a17.c:340-349 | init equals its specification |
| PlainAdapter.PlainPanel.Del | components/lcd_h035a17/lcd_h035a17.c:350-361 | del returns OK whatever the original del returns, with the shared del effects, and ends the record's life |
| PlainAdapter.PlainPanel.Reset | components/lcd_h035a17/lcd_h035a17.c:362-381 | reset equals the shared reset specification |
| PlainAdapter.PlainPanel.Mirror | components/lcd_h035a17/lcd_h035a17.c:383-408 | mirror returns OK with no effect: nothing sent, original not called |
| PlainAdapter.PlainPanel.DispOnOff | components/lcd_h035a17/lcd_h035a17.c:410-431 | disp_on_off returns OK with no effect: nothing sent, original not called |
| PlainAdapter.PlainPanel.Configure | components/lcd_h035a17/lcd_h035a17.c:66-73 | The record holds the configuration; the cached values keep calloc's zero |
| PlainAdapter.PlainPanel.BringUp | components/lcd_h035a17/lcd_h035a17.c:75-87 | The bring-up equals its specification |
| PlainAdapter.PlainPanel.Adapt | components/lcd_h035a17/lcd_h035a17.c:92-105 | The five original operations are saved and all five of the panel's now dispatch to the vendor's adapter |
| PlainAdapter.PlainPanel.New | components/lcd_h035a17/lcd_h035a17.c:48-117 | The factory equals its specification; on success a fresh valid record and a fresh panel whose operations are the vendor's |
| PlainAdapter.PlainPanel.Complete | components/lcd_h035a17/lcd_h035a17.c:75-116 | The factory's second half equals its specification |
| PlainAdapter.PlainPanel.CreatePanel | components/lcd_h035a17/lcd_h035a17.c:89-116 | RGB panel creation and takeover equal the shared specification |
| LcdH035a17.DefaultReplayEndsWithDisplayOn | components/lcd_h035a17/lcd_h035a17.c:119-313 | The built-in table has 191 records and a complete replay ends with sleep-out, 200 ms, display-on, 20 ms, both without parameters |
| LcdH035a17.New | components/lcd_h035a17/lcd_h035a17.c:48-117 | esp_lcd_new_panel_h035a17 is the shared factory over the H035A17 table |
| LcdH040a18.DefaultReplayStartsWithFormat | components/lcd_H040A18/lcd_H040A18.c:120-121 | A replay of the built-in table starts by setting pixel format 0x77 and address mode 0, whatever the configuration said |
| LcdH040a18.DefaultReplayEndsWithDisplayOn | components/lcd_H040A18/lcd_H040A18.c:162-169 | A complete replay sends sleep-out then waits 120 ms at record 39, and ends with display-on and 20 ms |
| LcdH040a18.DefaultTableRecordSizes | components/lcd_H040A18/lcd_H040A18.c:119-170 | The 45 records carry 0 to 16 bytes each: 0xFF with 5, 0xB0 with 16, 0x11 with none and 120 ms |
| LcdH040a18.New | components/lcd_H040A18/lcd_H040A18.c:48-117 | esp_lcd_new_panel_h040a18 is the shared factory over the H040A18 table |

## Left out

- Logging (`ESP_LOG*`) has no effect on behaviour and is not modelled. So "delete panel IO" is logged while the transport is never released.
- Commented-out code is not modelled, because it never runs:
  - the transport release in the NV3052C factory;
  - the command2 bank logic of the NV3052C replay;
  - the mirror and disp_on_off bodies of H035A17 and H040A18.
- Without the command2 logic, the NV3052C override detection is always active and ignores the command page (see `DefaultTableVendorPageOverride`).
- The transport is never nulled, because its release is commented out. So the `ESP_FAIL` branch of the NV3052C `mirror` and `disp_on_off` is modelled but cannot occur on a record the factory handed out.
- The generic RGB panel and its five original operations are foreign code. Each call is an effect whose status is a parameter, and the panel is reduced to its five operation pointers.
- The transport, the GPIO driver and `vTaskDelay` are effects carrying their values. Tick rounding by `pdMS_TO_TICKS` depends on configuration and is not modelled.
- The heap is not modelled. `calloc` is an effect whose failure is a parameter.
- The `user_data` back-pointer from the RGB panel to the record is not modelled; the record is the object a method is called on.
- The electrical meaning of the table bytes is not modelled; only their structure (count, order, sizes, delays) is stated.
- RGB timing fields of the RGB configuration are not modelled; only `disp_gpio_num` is read by the adapters.
- A caller's table is a sequence holding the first `init_cmds_size` records. A size larger than the array is undefined behaviour in the source, and each record must hold at least `data_bytes` bytes.
- The `LCD_CMD_*` and bit constants come from an ESP-IDF header that is not part of this model. Their MIPI DCS values are used: 0x01, 0x28, 0x29, 0x36, 0x3A, 0x11, BGR bit 0x08, ML bit 0x10. `NV3052_CMD_SDIR` is taken as 0xC7, the value the sibling adapters' commented-out mirror uses.
- `lcd_H040A18.h` is not part of this model. Its record and configuration are taken to have the same layout as `lcd_h035a17.h`.
- `esp_lcd_nv3052c.h` is not part of this model. `nv3052_vendor_config_t` (RGB configuration, table pointer and size, the flags union) and `nv3052_lcd_init_cmd_t` are taken to have the same layout as their `lcd_h035a17.h` counterparts.
- Use after `del` is undefined in the source. `del` ends the record's life and every other operation requires a live record.
- The `H035A17_PANEL_IO_3WIRE_SPI_CONFIG` macro is transport configuration and is not modelled.
