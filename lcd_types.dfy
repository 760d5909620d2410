/**
 * Data shared by the three vendor panel adapters (NV3052C, H035A17, H040A18):
 * the init-command record and vendor configuration declared in lcd_h035a17.h,
 * the parts of ESP-IDF's generic panel and RGB configuration the adapters read,
 * esp_err_t status codes, MIPI DCS command codes, and the external effects
 * (GPIO, transmissions, delays, calls into the generic RGB panel) through which
 * an adapter's behaviour is observed.
 */
module LcdTypes {

  datatype Option<+T> = None | Some(value: T)

  type Byte = bv8

  /** esp_err_t: ESP_OK, ESP_FAIL, ESP_ERR_NO_MEM, ESP_ERR_INVALID_ARG,
      ESP_ERR_NOT_SUPPORTED, and any other code a collaborator returns. */
  datatype Status = Ok | Fail | NoMem | InvalidArg | NotSupported | DriverError(code: OtherCode)

  /** An esp_err_t value other than the five named above (0, -1, 0x101, 0x102,
      0x106), so that each code has exactly one Status. */
  type OtherCode = c: int | c !in {0, -1, 0x101, 0x102, 0x106} witness 0x103

  // MIPI DCS v1.1, section 6 (ESP-IDF's LCD_CMD_* names in comments)
  const CmdSoftReset: int := 0x01     // soft_reset, LCD_CMD_SWRESET
  const CmdSleepOut: int := 0x11      // exit_sleep_mode, LCD_CMD_SLPOUT
  const CmdDisplayOff: int := 0x28    // set_display_off, LCD_CMD_DISPOFF
  const CmdDisplayOn: int := 0x29     // set_display_on, LCD_CMD_DISPON
  const CmdAddressMode: int := 0x36   // set_address_mode, LCD_CMD_MADCTL
  const CmdPixelFormat: int := 0x3A   // set_pixel_format, LCD_CMD_COLMOD

  // Bits of the set_address_mode parameter
  const BgrBit: Byte := 0x08   // LCD_CMD_BGR_BIT: colour order BGR
  const MlBit: Byte := 0x10    // LCD_CMD_ML_BIT: vertical refresh order

  // lcd_rgb_element_order_t
  const ElementOrderRgb: int := 0
  const ElementOrderBgr: int := 1

  /** One record of an initialisation table: the command, a parameter array,
      how many of its bytes are sent, and the delay applied after sending. */
  datatype InitRecord = InitRecord(cmd: int, data: seq<Byte>, dataBytes: nat, delayMs: nat)

  /** A record the transport can read: the array holds at least dataBytes
      bytes (reading past it is undefined in the source). */
  type InitCmd = r: InitRecord | r.dataBytes <= |r.data| witness InitRecord(0, [], 0, 0)

  /** The parameter bytes a record carries on the wire: the first data_bytes
      bytes of its array, as the header documents data and data_bytes. */
  function Params(c: InitCmd): (p: seq<Byte>)
    ensures |p| == c.dataBytes
    ensures forall i :: 0 <= i < |p| ==> p[i] == c.data[i]
  {
    c.data[..c.dataBytes]
  }

  /** The flag bits of a vendor configuration; auto_del_panel_io and
      enable_io_multiplex are one bit shared through a union. */
  datatype VendorFlags = VendorFlags(useMipiInterface: bool, mirrorByCmd: bool, enableIoMultiplex: bool)
  {
    function AutoDelPanelIo(): bool
    {
      enableIoMultiplex
    }

    /** Writing auto_del_panel_io writes the shared bit, the meaning the
        header's union gives the two names; the other flags are untouched. */
    function SetAutoDelPanelIo(on: bool): (f: VendorFlags)
      ensures f.enableIoMultiplex == on && f.AutoDelPanelIo() == on
      ensures f.useMipiInterface == useMipiInterface && f.mirrorByCmd == mirrorByCmd
    {
      this.(enableIoMultiplex := on)
    }
  }

  /** The one field of esp_lcd_rgb_panel_config_t an adapter reads. */
  datatype RgbConfig = RgbConfig(dispGpioNum: int)

  /** A vendor configuration. initCmds is None for a null table pointer;
      otherwise it holds the first init_cmds_size records of the table. */
  datatype VendorConfig = VendorConfig(initCmds: Option<seq<InitCmd>>, rgbConfig: Option<RgbConfig>, flags: VendorFlags)

  /** The fields of esp_lcd_panel_dev_config_t an adapter reads. */
  datatype DevConfig = DevConfig(
    resetGpioNum: int,
    rgbEleOrder: int,
    bitsPerPixel: int,
    resetActiveHigh: bool,
    vendorConfig: Option<VendorConfig>)

  /** An esp_lcd_panel_io_handle_t: only its identity matters here. */
  datatype IoHandle = IoHandle(id: nat)

  datatype Op = OpInit | OpDel | OpReset | OpMirror | OpDispOnOff

  /** External effects, in the order an operation produces them. */
  datatype Event =
    | Alloc                            // calloc of the adapter record
    | Free                             // free of the adapter record
    | GpioConfig(pin: int)             // gpio_config: the pin as an output
    | GpioSet(pin: int, level: bool)   // gpio_set_level
    | GpioReset(pin: int)              // gpio_reset_pin: the pin is released
    | Tx(cmd: int, params: seq<Byte>)  // esp_lcd_panel_io_tx_param
    | Delay(ms: nat)                   // vTaskDelay(pdMS_TO_TICKS(ms))
    | NewRgbPanel                      // esp_lcd_new_rgb_panel
    | CallOrig(op: Op)                 // call of a saved generic RGB panel operation

  /** Status and effects of one call. */
  datatype Outcome = Outcome(status: Status, events: seq<Event>)

  /** The transport's answer to the n-th transmission (from 0) of one call. */
  type TxOracle = nat -> Status

  /** Answers of the collaborators a factory calls: calloc, gpio_config, the
      transport, esp_lcd_new_rgb_panel. */
  datatype FactoryOracle = FactoryOracle(allocOk: bool, gpioConfig: Status, tx: TxOracle, newRgbPanel: Status)

  datatype Vendor = VendorNv3052c | VendorH035a17 | VendorH040a18

  /** What a lifecycle function pointer points to. */
  datatype Handler = Unset | Original(op: Op) | Adapted(vendor: Vendor, op: Op)

  /** The esp_lcd_panel_t built by the generic RGB driver, reduced to its
      five lifecycle function pointers. */
  class RgbPanel {
    var initFn: Handler
    var delFn: Handler
    var resetFn: Handler
    var mirrorFn: Handler
    var dispOnOffFn: Handler

    /** esp_lcd_new_rgb_panel: every pointer is the generic implementation. */
    constructor ()
      ensures initFn == Original(OpInit) && delFn == Original(OpDel) && resetFn == Original(OpReset)
      ensures mirrorFn == Original(OpMirror) && dispOnOffFn == Original(OpDispOnOff)
    {
      initFn := Original(OpInit);
      delFn := Original(OpDel);
      resetFn := Original(OpReset);
      mirrorFn := Original(OpMirror);
      dispOnOffFn := Original(OpDispOnOff);
    }

    /** Every lifecycle pointer dispatches to vendor v's adapter. */
    ghost predicate AdaptedBy(v: Vendor)
      reads this
    {
      && initFn == Adapted(v, OpInit)
      && delFn == Adapted(v, OpDel)
      && resetFn == Adapted(v, OpReset)
      && mirrorFn == Adapted(v, OpMirror)
      && dispOnOffFn == Adapted(v, OpDispOnOff)
    }
  }
}
