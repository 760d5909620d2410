/**
 * The NV3052C panel adapter (esp_lcd_nv3052c.c): a record that wraps the
 * generic RGB panel, caches the set_address_mode (MADCTL) and set_pixel_format
 * (COLMOD) values it derives from the colour order and pixel width, replays an
 * initialisation table (sending the two cached values first and picking up
 * overrides of them from the table), and replaces the generic panel's five
 * lifecycle operations with its own.
 */
module Nv3052c {
  import opened LcdTypes
  import opened InitReplay
  import opened AdapterOps

  /** NV3052_CMD_SDIR: the source-direction register mirror_x is written to. */
  const CmdSdir: int := 0xC7

  /** Command page 1 (selected by three 0xFF records carrying 0x30, 0x52, 0x01), records 0 to 11; the
      last is the vendor register 0x3A, which shares its code with
      set_pixel_format. */
  const Page1HeadCmds: seq<InitCmd> := [
    InitRecord(0xFF, [0x30], 1, 0), InitRecord(0xFF, [0x52], 1, 0), InitRecord(0xFF, [0x01], 1, 0),
    InitRecord(0xE3, [0x00], 1, 0), InitRecord(0x0A, [0x01], 1, 0), InitRecord(0x23, [0xA2], 1, 0),
    InitRecord(0x25, [0x14], 1, 0), InitRecord(0x29, [0x02], 1, 0), InitRecord(0x2A, [0xCF], 1, 0),
    InitRecord(0x38, [0x9C], 1, 0), InitRecord(0x39, [0xA7], 1, 0), InitRecord(0x3A, [0x33], 1, 0)
  ]

  /** Command page 1, records 12 to 36. */
  const Page1TailCmds: seq<InitCmd> := [
    InitRecord(0x91, [0x77], 1, 0), InitRecord(0x92, [0x77], 1, 0), InitRecord(0x99, [0x52], 1, 0),
    InitRecord(0x9B, [0x5B], 1, 0), InitRecord(0xA0, [0x55], 1, 0), InitRecord(0xA1, [0x50], 1, 0),
    InitRecord(0xA4, [0x9C], 1, 0), InitRecord(0xA7, [0x02], 1, 0), InitRecord(0xA8, [0x01], 1, 0),
    InitRecord(0xA9, [0x01], 1, 0), InitRecord(0xAA, [0xFC], 1, 0), InitRecord(0xAB, [0x28], 1, 0),
    InitRecord(0xAC, [0x06], 1, 0), InitRecord(0xAD, [0x06], 1, 0), InitRecord(0xAE, [0x06], 1, 0),
    InitRecord(0xAF, [0x03], 1, 0), InitRecord(0xB0, [0x08], 1, 0), InitRecord(0xB1, [0x26], 1, 0),
    InitRecord(0xB2, [0x28], 1, 0), InitRecord(0xB3, [0x28], 1, 0), InitRecord(0xB4, [0x03], 1, 0),
    InitRecord(0xB5, [0x08], 1, 0), InitRecord(0xB6, [0x26], 1, 0), InitRecord(0xB7, [0x08], 1, 0),
    InitRecord(0xB8, [0x26], 1, 0)
  ]

  /** Command page 2 (three 0xFF records, the last carrying 0x02), records 37 to 55. */
  const Page2HeadCmds: seq<InitCmd> := [
    InitRecord(0xFF, [0x30], 1, 0), InitRecord(0xFF, [0x52], 1, 0), InitRecord(0xFF, [0x02], 1, 0),
    InitRecord(0xB0, [0x02], 1, 0), InitRecord(0xB1, [0x31], 1, 0), InitRecord(0xB2, [0x24], 1, 0),
    InitRecord(0xB3, [0x30], 1, 0), InitRecord(0xB4, [0x38], 1, 0), InitRecord(0xB5, [0x3E], 1, 0),
    InitRecord(0xB6, [0x26], 1, 0), InitRecord(0xB7, [0x3E], 1, 0), InitRecord(0xB8, [0x0A], 1, 0),
    InitRecord(0xB9, [0x00], 1, 0), InitRecord(0xBA, [0x11], 1, 0), InitRecord(0xBB, [0x11], 1, 0),
    InitRecord(0xBC, [0x13], 1, 0), InitRecord(0xBD, [0x14], 1, 0), InitRecord(0xBE, [0x18], 1, 0),
    InitRecord(0xBF, [0x11], 1, 0)
  ]

  /** Command page 2, records 56 to 75. */
  const Page2TailCmds: seq<InitCmd> := [
    InitRecord(0xC0, [0x16], 1, 0), InitRecord(0xC1, [0x00], 1, 0), InitRecord(0xD0, [0x05], 1, 0),
    InitRecord(0xD1, [0x30], 1, 0), InitRecord(0xD2, [0x25], 1, 0), InitRecord(0xD3, [0x35], 1, 0),
    InitRecord(0xD4, [0x34], 1, 0), InitRecord(0xD5, [0x3B], 1, 0), InitRecord(0xD6, [0x26], 1, 0),
    InitRecord(0xD7, [0x3D], 1, 0), InitRecord(0xD8, [0x0A], 1, 0), InitRecord(0xD9, [0x00], 1, 0),
    InitRecord(0xDA, [0x12], 1, 0), InitRecord(0xDB, [0x10], 1, 0), InitRecord(0xDC, [0x12], 1, 0),
    InitRecord(0xDD, [0x14], 1, 0), InitRecord(0xDE, [0x18], 1, 0), InitRecord(0xDF, [0x11], 1, 0),
    InitRecord(0xE0, [0x15], 1, 0), InitRecord(0xE1, [0x00], 1, 0)
  ]

  /** Command page 3 (three 0xFF records, the last carrying 0x03), records 76 to 94; record 92 is the
      vendor register 0x36, which shares its code with set_address_mode. */
  const Page3HeadCmds: seq<InitCmd> := [
    InitRecord(0xFF, [0x30], 1, 0), InitRecord(0xFF, [0x52], 1, 0), InitRecord(0xFF, [0x03], 1, 0),
    InitRecord(0x08, [0x09], 1, 0), InitRecord(0x09, [0x0A], 1, 0), InitRecord(0x0A, [0x0B], 1, 0),
    InitRecord(0x0B, [0x0C], 1, 0), InitRecord(0x28, [0x22], 1, 0), InitRecord(0x2A, [0xEC], 1, 0),
    InitRecord(0x2B, [0xEC], 1, 0), InitRecord(0x30, [0x00], 1, 0), InitRecord(0x31, [0x00], 1, 0),
    InitRecord(0x32, [0x00], 1, 0), InitRecord(0x33, [0x00], 1, 0), InitRecord(0x34, [0x61], 1, 0),
    InitRecord(0x35, [0xD4], 1, 0), InitRecord(0x36, [0x24], 1, 0), InitRecord(0x37, [0x03], 1, 0),
    InitRecord(0x40, [0x0D], 1, 0)
  ]

  /** Command page 3, records 95 to 113. */
  const Page3MidCmds: seq<InitCmd> := [
    InitRecord(0x41, [0x0E], 1, 0), InitRecord(0x42, [0x0F], 1, 0), InitRecord(0x43, [0x10], 1, 0),
    InitRecord(0x44, [0x22], 1, 0), InitRecord(0x45, [0xE1], 1, 0), InitRecord(0x46, [0xE2], 1, 0),
    InitRecord(0x47, [0x22], 1, 0), InitRecord(0x48, [0xE3], 1, 0), InitRecord(0x49, [0xE4], 1, 0),
    InitRecord(0x50, [0x11], 1, 0), InitRecord(0x51, [0x12], 1, 0), InitRecord(0x52, [0x13], 1, 0),
    InitRecord(0x53, [0x14], 1, 0), InitRecord(0x54, [0x22], 1, 0), InitRecord(0x55, [0xE5], 1, 0),
    InitRecord(0x56, [0xE6], 1, 0), InitRecord(0x57, [0x22], 1, 0), InitRecord(0x58, [0xE7], 1, 0),
    InitRecord(0x59, [0xE8], 1, 0)
  ]

  /** Command page 3, records 114 to 137. */
  const Page3GateCmds: seq<InitCmd> := [
    InitRecord(0x80, [0x05], 1, 0), InitRecord(0x81, [0x1E], 1, 0), InitRecord(0x82, [0x02], 1, 0),
    InitRecord(0x83, [0x04], 1, 0), InitRecord(0x84, [0x1E], 1, 0), InitRecord(0x85, [0x1E], 1, 0),
    InitRecord(0x86, [0x1F], 1, 0), InitRecord(0x87, [0x1F], 1, 0), InitRecord(0x88, [0x0E], 1, 0),
    InitRecord(0x89, [0x10], 1, 0), InitRecord(0x8A, [0x0A], 1, 0), InitRecord(0x8B, [0x0C], 1, 0),
    InitRecord(0x96, [0x05], 1, 0), InitRecord(0x97, [0x1E], 1, 0), InitRecord(0x98, [0x01], 1, 0),
    InitRecord(0x99, [0x03], 1, 0), InitRecord(0x9A, [0x1E], 1, 0), InitRecord(0x9B, [0x1E], 1, 0),
    InitRecord(0x9C, [0x1F], 1, 0), InitRecord(0x9D, [0x1F], 1, 0), InitRecord(0x9E, [0x0D], 1, 0),
    InitRecord(0x9F, [0x0F], 1, 0), InitRecord(0xA0, [0x09], 1, 0), InitRecord(0xA1, [0x0B], 1, 0)
  ]

  /** Command page 3, records 138 to 161. */
  const Page3TailCmds: seq<InitCmd> := [
    InitRecord(0xB0, [0x05], 1, 0), InitRecord(0xB1, [0x1F], 1, 0), InitRecord(0xB2, [0x03], 1, 0),
    InitRecord(0xB3, [0x01], 1, 0), InitRecord(0xB4, [0x1E], 1, 0), InitRecord(0xB5, [0x1E], 1, 0),
    InitRecord(0xB6, [0x1F], 1, 0), InitRecord(0xB7, [0x1E], 1, 0), InitRecord(0xB8, [0x0B], 1, 0),
    InitRecord(0xB9, [0x09], 1, 0), InitRecord(0xBA, [0x0F], 1, 0), InitRecord(0xBB, [0x0D], 1, 0),
    InitRecord(0xC6, [0x05], 1, 0), InitRecord(0xC7, [0x1F], 1, 0), InitRecord(0xC8, [0x04], 1, 0),
    InitRecord(0xC9, [0x02], 1, 0), InitRecord(0xCA, [0x1E], 1, 0), InitRecord(0xCB, [0x1E], 1, 0),
    InitRecord(0xCC, [0x1F], 1, 0), InitRecord(0xCD, [0x1E], 1, 0), InitRecord(0xCE, [0x0C], 1, 0),
    InitRecord(0xCF, [0x0A], 1, 0), InitRecord(0xD0, [0x10], 1, 0), InitRecord(0xD1, [0x0E], 1, 0)
  ]

  /** Back to the user page 0 (three 0xFF records, the last carrying 0x00), records 162 to 168:
      address mode 0x02, pixel format 0x55, then sleep-out (200 ms) and
      display-on (100 ms). */
  const Page0Cmds: seq<InitCmd> := [
    InitRecord(0xFF, [0x30], 1, 0), InitRecord(0xFF, [0x52], 1, 0), InitRecord(0xFF, [0x00], 1, 0),
    InitRecord(0x36, [0x02], 1, 0), InitRecord(0x3A, [0x55], 1, 0), InitRecord(0x11, [0x00], 1, 200),
    InitRecord(0x29, [0x00], 1, 100)
  ]

  /** Every record of the built-in table but the last page. */
  const VendorPageCmds: seq<InitCmd> :=
    Page1HeadCmds + Page1TailCmds + Page2HeadCmds + Page2TailCmds
    + Page3HeadCmds + Page3MidCmds + Page3GateCmds + Page3TailCmds

  /** The built-in table rgb_lcd_init_cmds: 169 one-byte records. */
  const DefaultCmds: seq<InitCmd> := VendorPageCmds + Page0Cmds

  /** The bits per pixel that the DPI field (bits 6..4) of a set_pixel_format
      parameter stands for (MIPI DCS v1.1, section 6, set_pixel_format), or 0
      for a reserved field. */
  function DpiBitsPerPixel(colmod: Byte): int
  {
    var field := (colmod >> 4) & 0x07;
    if field == 1 then 3
    else if field == 2 then 8
    else if field == 3 then 12
    else if field == 5 then 16
    else if field == 6 then 18
    else if field == 7 then 24
    else 0
  }

  /** The cached set_address_mode value for a colour order: the BGR bit is set
      exactly for BGR and no other bit is set; any other order is refused. */
  function MadctlFor(order: int): (m: Option<Byte>)
    ensures m.Some? <==> order == ElementOrderRgb || order == ElementOrderBgr
  {
    if order == ElementOrderRgb then Some(0)
    else if order == ElementOrderBgr then Some(0 | BgrBit)
    else None
  }

  /** The colour order sets only the BGR bit, exactly for BGR. */
  lemma MadctlForBits(order: int)
    requires MadctlFor(order).Some?
    ensures var m := MadctlFor(order).value;
      m & !BgrBit == 0 && (m & BgrBit != 0 <==> order == ElementOrderBgr)
  {
  }

  /** The cached set_pixel_format value for a pixel width: only 16, 18 and 24
      bits are accepted, the value carries only a DPI field and that field
      reads back as the same width. */
  function ColmodFor(bpp: int): (c: Option<Byte>)
    ensures c.Some? <==> bpp == 16 || bpp == 18 || bpp == 24
  {
    if bpp == 16 then Some(0x50)
    else if bpp == 18 then Some(0x60)
    else if bpp == 24 then Some(0x70)
    else None
  }

  /** The set_pixel_format value carries only a DPI field, and that field reads
      back as the accepted width; so two widths never share a value. */
  lemma ColmodForRoundTrip(bpp: int, other: int)
    requires ColmodFor(bpp).Some?
    ensures ColmodFor(bpp).value & 0x8F == 0 && DpiBitsPerPixel(ColmodFor(bpp).value) == bpp
    ensures ColmodFor(other) == ColmodFor(bpp) ==> other == bpp
  {
  }

  /** Override detection for one record: a record with at least one parameter
      byte whose command is set_address_mode or set_pixel_format replaces that
      cached value with its first byte. The command page is not looked at. */
  function Override(c: InitCmd, g: Regs): Regs
  {
    if c.dataBytes > 0 && c.cmd == CmdAddressMode then g.(madctl := c.data[0])
    else if c.dataBytes > 0 && c.cmd == CmdPixelFormat then g.(colmod := c.data[0])
    else g
  }

  /** The cached values after the detection has seen every record, in order. */
  function Overridden(cmds: seq<InitCmd>, g: Regs): Regs
    decreases |cmds|
  {
    if cmds == [] then g else Overridden(cmds[1..], Override(cmds[0], g))
  }

  /** Reference definition: the first parameter byte of the last record that
      carries a parameter for command code, or dflt when there is none. */
  function LastSetting(cmds: seq<InitCmd>, code: int, dflt: Byte): Byte
    decreases |cmds|
  {
    if cmds == [] then dflt
    else
      var c := cmds[|cmds| - 1];
      if c.dataBytes > 0 && c.cmd == code then c.data[0]
      else LastSetting(cmds[..|cmds| - 1], code, dflt)
  }

  lemma {:induction false} OverriddenSnoc(cmds: seq<InitCmd>, c: InitCmd, g: Regs)
    ensures Overridden(cmds + [c], g) == Override(c, Overridden(cmds, g))
    decreases |cmds|
  {
    if cmds == [] {
      assert cmds + [c] == [c];
      assert [c][1..] == [];
    } else {
      assert (cmds + [c])[1..] == cmds[1..] + [c];
      OverriddenSnoc(cmds[1..], c, Override(cmds[0], g));
    }
  }

  /** After a replay the cached values are those of the last record of the
      table that sets each of them, and are unchanged when no record does. */
  lemma {:induction false} OverriddenIsLastSetting(cmds: seq<InitCmd>, g: Regs)
    ensures Overridden(cmds, g) == Regs(LastSetting(cmds, CmdAddressMode, g.madctl), LastSetting(cmds, CmdPixelFormat, g.colmod))
    decreases |cmds|
  {
    if cmds != [] {
      var front := cmds[..|cmds| - 1];
      var c := cmds[|cmds| - 1];
      assert cmds == front + [c];
      OverriddenSnoc(front, c, g);
      OverriddenIsLastSetting(front, g);
    }
  }

  /** Records after position k that do not set code leave its last setting
      where the first k records put it. */
  lemma {:induction false} LastSettingSkip(cmds: seq<InitCmd>, code: int, dflt: Byte, k: nat)
    requires k <= |cmds|
    requires forall j :: k <= j < |cmds| ==> !(cmds[j].dataBytes > 0 && cmds[j].cmd == code)
    ensures LastSetting(cmds, code, dflt) == LastSetting(cmds[..k], code, dflt)
    decreases |cmds|
  {
    if k < |cmds| {
      var front := cmds[..|cmds| - 1];
      assert front[..k] == cmds[..k];
      LastSettingSkip(front, code, dflt, k);
    } else {
      assert cmds[..k] == cmds;
    }
  }

  lemma {:induction false} OverriddenAppend(a: seq<InitCmd>, b: seq<InitCmd>, g: Regs)
    ensures Overridden(a + b, g) == Overridden(b, Overridden(a, g))
    decreases |a|
  {
    if a == [] {
      assert a + b == b;
    } else {
      assert (a + b)[1..] == a[1..] + b;
      OverriddenAppend(a[1..], b, Override(a[0], g));
    }
  }

  /** Because the page is not looked at, page 1's vendor register 0x3A
      (record 11 of the built-in table) is taken for set_pixel_format: a
      replay of the first twelve records leaves pixel format 0x33 cached. */
  lemma DefaultTableVendorPageOverride(g: Regs)
    ensures Overridden(DefaultCmds[..12], g).colmod == 0x33
  {
    var p1 := Page1HeadCmds;
    assert DefaultCmds[..12] == p1;
    assert p1 == p1[..11] + [p1[11]];
    OverriddenSnoc(p1[..11], p1[11], g);
  }

  /** The built-in table's last page sets address mode 0x02 and pixel format
      0x55, so a complete replay of it leaves those cached, whatever the colour
      order and pixel width chose. */
  lemma DefaultTableSettles(g: Regs)
    ensures Overridden(DefaultCmds, g) == Regs(0x02, 0x55)
  {
    var h := Overridden(VendorPageCmds, g);
    var p0 := Page0Cmds;
    OverriddenAppend(VendorPageCmds, p0, g);
    OverriddenIsLastSetting(p0, h);
    LastSettingSkip(p0, CmdAddressMode, h.madctl, 4);
    assert p0[..4][3] == p0[3];
    LastSettingSkip(p0, CmdPixelFormat, h.colmod, 5);
    assert p0[..5][4] == p0[4];
  }

  datatype RegsOutcome = RegsOutcome(status: Status, events: seq<Event>, regs: Regs)

  /** Effects ev happened before o's. */
  function After(ev: seq<Event>, o: RegsOutcome): RegsOutcome
  {
    o.(events := ev + o.events)
  }

  lemma AfterAfter(a: seq<Event>, b: seq<Event>, o: RegsOutcome)
    ensures After(a, After(b, o)) == After(a + b, o)
  {
    assert a + (b + o.events) == (a + b) + o.events;
  }

  /** The replay loop with override detection: each record first updates the
      cached values, then is transmitted and waited for. It sends and returns
      exactly what the plain replay does. */
  function ReplayRecords(cmds: seq<InitCmd>, g: Regs, tx: TxOracle, n: nat): RegsOutcome
    decreases |cmds|
  {
    if cmds == [] then RegsOutcome(Ok, [], g)
    else
      var g' := Override(cmds[0], g);
      if tx(n) != Ok then RegsOutcome(tx(n), [Transmission(cmds[0])], g')
      else After([Transmission(cmds[0]), Delay(cmds[0].delayMs)], ReplayRecords(cmds[1..], g', tx, n + 1))
  }

  /** The replay with override detection sends and returns exactly what the
      plain replay does. */
  lemma {:induction false} ReplayRecordsPlays(cmds: seq<InitCmd>, g: Regs, tx: TxOracle, n: nat)
    ensures var r := ReplayRecords(cmds, g, tx, n);
      r.status == Play(cmds, tx, n).status && r.events == Play(cmds, tx, n).events
    decreases |cmds|
  {
    if cmds != [] && tx(n) == Ok {
      ReplayRecordsPlays(cmds[1..], Override(cmds[0], g), tx, n + 1);
    }
  }

  /** One iteration of the replay whose transmission fails: the replay ends
      there, after effects done, with that record attempted. */
  lemma ReplayRecordsFails(cmds: seq<InitCmd>, i: nat, g: Regs, tx: TxOracle, m: nat, done: seq<Event>, h: Regs, ev: seq<Event>)
    requires i < |cmds| && tx(m + i) != Ok
    requires h == Override(cmds[i], g) && ev == done + [Transmission(cmds[i])]
    ensures After(done, ReplayRecords(cmds[i..], g, tx, m + i)) == RegsOutcome(tx(m + i), ev, h)
  {
    assert cmds[i..][0] == cmds[i];
  }

  /** One iteration of the replay whose transmission succeeds: the record and
      its delay join the effects done, and the replay goes on with the next. */
  lemma ReplayRecordsSends(cmds: seq<InitCmd>, i: nat, g: Regs, tx: TxOracle, m: nat, done: seq<Event>, h: Regs, ev: seq<Event>)
    requires i < |cmds| && tx(m + i) == Ok
    requires h == Override(cmds[i], g) && ev == done + [Transmission(cmds[i]), Delay(cmds[i].delayMs)]
    ensures After(done, ReplayRecords(cmds[i..], g, tx, m + i)) == After(ev, ReplayRecords(cmds[i + 1..], h, tx, m + (i + 1)))
  {
    var c := cmds[i];
    assert cmds[i..][0] == c && cmds[i..][1..] == cmds[i + 1..];
    AfterAfter(done, [Transmission(c), Delay(c.delayMs)], ReplayRecords(cmds[i + 1..], h, tx, m + (i + 1)));
  }

  /** The cached values a replay leaves: those of every record attempted, up to
      and including the first whose transmission fails. */
  lemma {:induction false} ReplayRecordsRegs(cmds: seq<InitCmd>, g: Regs, tx: TxOracle, n: nat, k: nat)
    requires k <= |cmds|
    requires forall j :: n <= j < n + k ==> tx(j) == Ok
    requires k < |cmds| ==> tx(n + k) != Ok
    ensures ReplayRecords(cmds, g, tx, n).regs == Overridden(cmds[..if k < |cmds| then k + 1 else k], g)
    decreases k
  {
    var m := if k < |cmds| then k + 1 else k;
    if k == 0 {
      if cmds != [] {
        assert cmds[..1][1..] == [];
      }
    } else {
      assert tx(n) == Ok;
      ReplayRecordsRegs(cmds[1..], Override(cmds[0], g), tx, n + 1, k - 1);
      assert cmds[..m][1..] == cmds[1..][..m - 1];
    }
  }

  /** The two commands sent ahead of every table: the cached address mode and
      pixel format. */
  function PreCommands(g: Regs): seq<Event>
  {
    [Tx(CmdAddressMode, [g.madctl]), Tx(CmdPixelFormat, [g.colmod])]
  }

  /** Everything one full initialisation sends. */
  function InitSequence(g: Regs, t: seq<InitCmd>): seq<Event>
  {
    PreCommands(g) + Transmissions(t)
  }

  /** panel_nv3052_send_init_cmds, whose first transmission is the n-th of the
      enclosing call: the two cached values, then the table with override
      detection. Only transmissions and delays happen. */
  function SendInitCmdsOp(s: PanelState, builtIn: seq<InitCmd>, tx: TxOracle, n: nat): (r: RegsOutcome)
    ensures forall e :: e in r.events ==> e.Tx? || e.Delay?
  {
    var pre := PreCommands(s.regs);
    if tx(n) != Ok then RegsOutcome(tx(n), pre[..1], s.regs)
    else if tx(n + 1) != Ok then RegsOutcome(tx(n + 1), pre, s.regs)
    else
      ReplayRecordsPlays(Table(s, builtIn), s.regs, tx, n + 2);
      PlayEffects(Table(s, builtIn), tx, n + 2);
      After(pre, ReplayRecords(Table(s, builtIn), s.regs, tx, n + 2))
  }

  /** Sending the init commands succeeds exactly when every one of its
      transmissions does. */
  lemma SendInitCmdsSucceedsIff(s: PanelState, builtIn: seq<InitCmd>, tx: TxOracle, n: nat)
    ensures SendInitCmdsOp(s, builtIn, tx, n).status == Ok <==> forall j :: n <= j < n + 2 + |Table(s, builtIn)| ==> tx(j) == Ok
  {
    PlaySucceedsIff(Table(s, builtIn), tx, n + 2);
    ReplayRecordsPlays(Table(s, builtIn), s.regs, tx, n + 2);
    if forall j :: n <= j < n + 2 + |Table(s, builtIn)| ==> tx(j) == Ok {
      assert tx(n) == Ok && tx(n + 1) == Ok;
    }
  }

  /** A successful send transmits the two cached values and then every record
      of the table once, in order, each followed by its delay, and leaves the
      values of the table's last overriding records cached. */
  lemma SendInitCmdsComplete(s: PanelState, builtIn: seq<InitCmd>, tx: TxOracle, n: nat)
    requires SendInitCmdsOp(s, builtIn, tx, n).status == Ok
    ensures var r := SendInitCmdsOp(s, builtIn, tx, n);
      && r.events == PreCommands(s.regs) + RecordEffects(Table(s, builtIn))
      && r.regs == Overridden(Table(s, builtIn), s.regs)
  {
    var t := Table(s, builtIn);
    var r := SendInitCmdsOp(s, builtIn, tx, n);
    SendInitCmdsSucceedsIff(s, builtIn, tx, n);
    assert tx(n) == Ok && tx(n + 1) == Ok;
    var rest := ReplayRecords(t, s.regs, tx, n + 2);
    assert r == After(PreCommands(s.regs), rest);
    PlayAllSent(t, tx, n + 2);
    ReplayRecordsPlays(t, s.regs, tx, n + 2);
    assert rest.events == RecordEffects(t);
    ReplayRecordsRegs(t, s.regs, tx, n + 2, |t|);
    assert t[..|t|] == t;
  }

  /** What a complete send transmits: the two cached values, then each record
      of the table once, in table order, and nothing else. */
  lemma InitEffectsSend(g: Regs, t: seq<InitCmd>)
    ensures Sends(PreCommands(g) + RecordEffects(t)) == InitSequence(g, t)
  {
    SendsAppend(PreCommands(g), RecordEffects(t));
    SendsAll(PreCommands(g));
    RecordEffectsSendEachOnce(t);
  }

  /** One lifecycle call's result: status, effects, the record afterwards. */
  datatype Step = Step(status: Status, events: seq<Event>, state: PanelState)

  /** panel_nv3052_init: without I/O multiplexing send the init commands (a
      failure returns before the original init), then the original init. */
  function InitOp(s: PanelState, builtIn: seq<InitCmd>, tx: TxOracle, orig: Status): Step
  {
    if !s.flags.enableIoMultiplex then
      var r := SendInitCmdsOp(s, builtIn, tx, 0);
      if r.status != Ok then Step(r.status, r.events, s.(regs := r.regs))
      else Step(orig, r.events + [CallOrig(OpInit)], s.(regs := r.regs))
    else Step(orig, [CallOrig(OpInit)], s)
  }

  /** The original init is reached exactly when the record was multiplexed or
      every init transmission succeeded; it is then the last effect and its
      status is the result. Nothing but the cached values changes. */
  lemma InitReachesOriginalIff(s: PanelState, builtIn: seq<InitCmd>, tx: TxOracle, orig: Status)
    ensures var i := InitOp(s, builtIn, tx, orig);
      && (CallOrig(OpInit) in i.events <==> s.flags.enableIoMultiplex || forall j :: 0 <= j < 2 + |Table(s, builtIn)| ==> tx(j) == Ok)
      && (CallOrig(OpInit) in i.events ==> i.status == orig && i.events[|i.events| - 1] == CallOrig(OpInit))
      && (CallOrig(OpInit) !in i.events ==> i.status != Ok)
      && i.state.(regs := s.regs) == s
  {
    SendInitCmdsSucceedsIff(s, builtIn, tx, 0);
  }

  /** set_address_mode with the ML bit set exactly when y is mirrored and every
      other bit kept. */
  function WithMl(madctl: Byte, mirrorY: bool): Byte
  {
    if mirrorY then madctl | MlBit else madctl & !MlBit
  }

  /** The ML bit ends up set exactly when y is mirrored; every other bit is
      kept, so mirroring again with the same y changes nothing. */
  lemma WithMlBits(madctl: Byte, mirrorY: bool)
    ensures var m := WithMl(madctl, mirrorY);
      && m & !MlBit == madctl & !MlBit
      && (m & MlBit != 0 <==> mirrorY)
      && WithMl(m, mirrorY) == m
  {
  }

  /** panel_nv3052_mirror: by command, update the cached address mode first,
      then send the source direction (bit 2 for x) and the address mode; else
      the original mirror. */
  function MirrorOp(s: PanelState, mirrorX: bool, mirrorY: bool, tx: TxOracle, orig: Status): Step
  {
    if s.flags.mirrorByCmd then
      if s.io.None? then Step(Fail, [], s)
      else
        var s' := s.(regs := s.regs.(madctl := WithMl(s.regs.madctl, mirrorY)));
        var sent := [Tx(CmdSdir, [if mirrorX then 0x04 else 0x00]), Tx(CmdAddressMode, [s'.regs.madctl])];
        if tx(0) != Ok then Step(tx(0), sent[..1], s')
        else if tx(1) != Ok then Step(tx(1), sent, s')
        else Step(Ok, sent, s')
    else Step(orig, [CallOrig(OpMirror)], s)
  }

  /** Mirroring by command never reaches the original mirror, and a complete
      one sends the source direction then the address mode whose ML bit now
      says whether y is mirrored; otherwise only the original runs. Only the
      cached address mode ever changes. */
  lemma MirrorByCommand(s: PanelState, mirrorX: bool, mirrorY: bool, tx: TxOracle, orig: Status)
    ensures var m := MirrorOp(s, mirrorX, mirrorY, tx, orig);
      && (CallOrig(OpMirror) in m.events <==> !s.flags.mirrorByCmd)
      && (!s.flags.mirrorByCmd ==> m.status == orig && Sends(m.events) == [] && m.state == s)
      && (s.flags.mirrorByCmd && s.io.Some? && tx(0) == Ok && tx(1) == Ok ==>
            && m.status == Ok
            && Sends(m.events) == [Tx(CmdSdir, [if mirrorX then 0x04 else 0x00]), Tx(CmdAddressMode, [m.state.regs.madctl])]
            && (m.state.regs.madctl & MlBit != 0 <==> mirrorY)
            && m.state.regs.madctl & !MlBit == s.regs.madctl & !MlBit)
      && m.state.(regs := m.state.regs.(madctl := s.regs.madctl)) == s
  {
    var m := MirrorOp(s, mirrorX, mirrorY, tx, orig);
    WithMlBits(s.regs.madctl, mirrorY);
    if !s.flags.mirrorByCmd {
      SendsNone(m.events);
    } else if s.io.Some? && tx(0) == Ok && tx(1) == Ok {
      SendsAll(m.events);
    }
  }

  /** By command, mirror succeeds exactly when there is a transport and both
      transmissions succeed. A null transport gives ESP_FAIL with no effect and
      no change. A failed SDIR returns its status before the address mode is
      sent, and a failed address mode returns its own. With a transport the
      ML bit is updated before either transmission, so it stays updated when
      one fails. */
  lemma MirrorByCommandFails(s: PanelState, mirrorX: bool, mirrorY: bool, tx: TxOracle, orig: Status)
    requires s.flags.mirrorByCmd
    ensures var m, sdir := MirrorOp(s, mirrorX, mirrorY, tx, orig), Tx(CmdSdir, [if mirrorX then 0x04 else 0x00]);
      && (m.status == Ok <==> s.io.Some? && tx(0) == Ok && tx(1) == Ok)
      && (s.io.None? ==> m == Step(Fail, [], s))
      && (s.io.Some? ==> (m.state.regs.madctl & MlBit != 0 <==> mirrorY) && m.state.regs.madctl & !MlBit == s.regs.madctl & !MlBit)
      && (s.io.Some? && tx(0) != Ok ==> m.status == tx(0) && Sends(m.events) == [sdir])
      && (s.io.Some? && tx(0) == Ok && tx(1) != Ok ==>
            m.status == tx(1) && Sends(m.events) == [sdir, Tx(CmdAddressMode, [m.state.regs.madctl])])
  {
    var m := MirrorOp(s, mirrorX, mirrorY, tx, orig);
    WithMlBits(s.regs.madctl, mirrorY);
    if s.io.Some? {
      SendsAll(m.events);
    }
  }

  /** panel_nv3052_disp_on_off: by command, set_display_on or set_display_off;
      else the original. */
  function DispOnOffOp(s: PanelState, on: bool, tx: TxOracle, orig: Status): Outcome
  {
    if s.flags.displayOnOffUseCmd then
      if s.io.None? then Outcome(Fail, [])
      else Outcome(tx(0), [Tx(if on then CmdDisplayOn else CmdDisplayOff, [])])
    else Outcome(orig, [CallOrig(OpDispOnOff)])
  }

  /** The reset pulse (or soft reset) with which a multiplexed record is
      brought up inside the factory. */
  function Pulse(s: PanelState): (p: seq<Event>)
    ensures Sends(p) == if s.resetGpioNum < 0 then [Tx(CmdSoftReset, [])] else []
  {
    var pin, level := s.resetGpioNum, s.flags.resetLevel;
    if pin >= 0 then
      var p := [GpioSet(pin, level), Delay(10), GpioSet(pin, !level)];
      SendsNone(p);
      p
    else
      var p := [Tx(CmdSoftReset, [])];
      SendsAll(p);
      p
  }

  /** With a reset pin the factory's pulse holds the pin active for 10 ms and
      releases it, touching no other pin: the same pulse the adapted reset
      starts with. Without a pin only soft_reset is sent. */
  lemma PulseDrivesPin(s: PanelState, tx: TxOracle, orig: Status)
    ensures var p, pin := Pulse(s), s.resetGpioNum;
      && (pin >= 0 ==> PulsesPin(p, pin, s.flags.resetLevel) && TotalDelay(p) == 10 && p == ResetOp(s, tx, orig).events[..3])
      && (pin < 0 ==> p == [Tx(CmdSoftReset, [])])
  {
    var p, pin, level := Pulse(s), s.resetGpioNum, s.flags.resetLevel;
    if pin >= 0 {
      assert p[1..] == [Delay(10), GpioSet(pin, !level)] && p[1..][1..] == [GpioSet(pin, !level)];
      assert TotalDelay(p[1..][1..]) == 0;
      ResetDrivesPin(s, tx, orig);
    }
  }

  /** The factory's bring-up of a multiplexed record: reset (a failed soft reset
      ends it), wait 120 ms, send the init commands. Its only GPIO effects are
      on the reset pin. */
  function EarlyBringUp(s: PanelState, builtIn: seq<InitCmd>, tx: TxOracle): (r: RegsOutcome)
    ensures forall e :: e in r.events ==> e.Tx? || e.Delay? || (e.GpioSet? && e.pin == s.resetGpioNum)
  {
    if s.resetGpioNum >= 0 then After(Pulse(s) + [Delay(120)], SendInitCmdsOp(s, builtIn, tx, 0))
    else if tx(0) != Ok then RegsOutcome(tx(0), Pulse(s), s.regs)
    else After(Pulse(s) + [Delay(120)], SendInitCmdsOp(s, builtIn, tx, 1))
  }

  /** The cached values an accepted colour order and pixel width give. */
  function DerivedRegs(d: DevConfig): Regs
    requires MadctlFor(d.rgbEleOrder).Some? && ColmodFor(d.bitsPerPixel).Some?
  {
    Regs(MadctlFor(d.rgbEleOrder).value, ColmodFor(d.bitsPerPixel).value)
  }

  /** esp_lcd_new_panel_nv3052_rgb: argument checks, allocation, then the rest. */
  function NewPanel(builtIn: seq<InitCmd>, io: Option<IoHandle>, dev: Option<DevConfig>, hasRetPanel: bool, o: FactoryOracle): Built
  {
    if !ArgsValid(io, dev, hasRetPanel) then Built(InvalidArg, [], None)
    else if !o.allocOk then Built(NoMem, [], None)
    else Allocated(builtIn, io.value, dev.value, o)
  }

  /** The factory after a successful allocation: the reset pin, the colour
      order and the pixel width, then the rest. */
  function Allocated(builtIn: seq<InitCmd>, io: IoHandle, d: DevConfig, o: FactoryOracle): (b: Built)
    requires d.vendorConfig.Some? && d.vendorConfig.value.rgbConfig.Some?
    ensures b.events != [] && b.events[0] == Alloc
    ensures b.state.Some? <==> b.status == Ok
  {
    var pin := d.resetGpioNum;
    if pin >= 0 && o.gpioConfig != Ok then Abandon(o.gpioConfig, Prologue(pin), pin)
    else if MadctlFor(d.rgbEleOrder).None? || ColmodFor(d.bitsPerPixel).None? then Abandon(NotSupported, Prologue(pin), pin)
    else
      var vc := d.vendorConfig.value;
      Finish(builtIn, Configured(io, d, vc, vc.rgbConfig.value, DerivedRegs(d)), o)
  }

  /** The factory once the record is filled in: bring a multiplexed record up
      (a failure abandons it), then create the RGB panel. */
  function Finish(builtIn: seq<InitCmd>, s: PanelState, o: FactoryOracle): (b: Built)
    ensures b.events != [] && b.events[0] == Alloc
    ensures b.state.Some? <==> b.status == Ok
  {
    var pin := s.resetGpioNum;
    if s.flags.enableIoMultiplex then
      var early := EarlyBringUp(s, builtIn, o.tx);
      if early.status != Ok then Abandon(early.status, Prologue(pin) + early.events, pin)
      else CreateRgbPanel(s.(regs := early.regs), Prologue(pin) + early.events, o.newRgbPanel)
    else CreateRgbPanel(s, Prologue(pin), o.newRgbPanel)
  }

  /** Invalid arguments and a failed allocation are reported before any effect;
      once allocated, the record is the first effect; a record is handed out
      exactly on success. */
  lemma NewChecksBeforeEffects(builtIn: seq<InitCmd>, io: Option<IoHandle>, dev: Option<DevConfig>, hasRetPanel: bool, o: FactoryOracle)
    ensures var b := NewPanel(builtIn, io, dev, hasRetPanel, o);
      && (b.events == [] <==> !ArgsValid(io, dev, hasRetPanel) || !o.allocOk)
      && (!ArgsValid(io, dev, hasRetPanel) ==> b.status == InvalidArg)
      && (ArgsValid(io, dev, hasRetPanel) && !o.allocOk ==> b.status == NoMem)
      && (b.events != [] ==> b.events[0] == Alloc)
      && (b.state.Some? <==> b.status == Ok)
  {
  }

  lemma FinishKeepsDiscipline(builtIn: seq<InitCmd>, s: PanelState, o: FactoryOracle)
    ensures ReleaseDiscipline(Finish(builtIn, s, o), s.resetGpioNum)
    ensures Finish(builtIn, s, o).state.Some? ==> Finish(builtIn, s, o).state.value.io == s.io
  {
    var pin := s.resetGpioNum;
    if s.flags.enableIoMultiplex {
      var early := EarlyBringUp(s, builtIn, o.tx);
      var ev := Prologue(pin) + early.events;
      assert ReleasesNothing(ev) && OnPin(ev, pin);
      if early.status != Ok {
        AbandonKeepsDiscipline(early.status, ev, pin);
      } else {
        CreateRgbPanelKeepsDiscipline(s.(regs := early.regs), ev, o.newRgbPanel);
      }
    } else {
      CreateRgbPanelKeepsDiscipline(s, Prologue(pin), o.newRgbPanel);
    }
  }

  /** After allocation, a failing factory ends with exactly the release of the
      reset pin (when configured) and of the record, and releases nothing
      before; a successful one releases nothing and keeps the transport. Every
      GPIO effect is on the configured reset pin. */
  lemma NewReleasesOnError(builtIn: seq<InitCmd>, io: Option<IoHandle>, dev: Option<DevConfig>, hasRetPanel: bool, o: FactoryOracle)
    requires ArgsValid(io, dev, hasRetPanel) && o.allocOk
    ensures ReleaseDiscipline(NewPanel(builtIn, io, dev, hasRetPanel, o), dev.value.resetGpioNum)
    ensures NewPanel(builtIn, io, dev, hasRetPanel, o).state.Some? ==> NewPanel(builtIn, io, dev, hasRetPanel, o).state.value.io == io
  {
    var d := dev.value;
    var pin := d.resetGpioNum;
    if pin >= 0 && o.gpioConfig != Ok {
      AbandonKeepsDiscipline(o.gpioConfig, Prologue(pin), pin);
    } else if MadctlFor(d.rgbEleOrder).None? || ColmodFor(d.bitsPerPixel).None? {
      AbandonKeepsDiscipline(NotSupported, Prologue(pin), pin);
    } else {
      var vc := d.vendorConfig.value;
      FinishKeepsDiscipline(builtIn, Configured(io.value, d, vc, vc.rgbConfig.value, DerivedRegs(d)), o);
    }
  }

  /** The effects of a successful multiplexed bring-up followed by the RGB
      panel's creation. */
  function BringUpEffects(s: PanelState, builtIn: seq<InitCmd>): seq<Event>
  {
    Pulse(s) + ([Delay(120)] + (PreCommands(s.regs) + (RecordEffects(Table(s, builtIn)) + [NewRgbPanel])))
  }

  /** A multiplexed factory that hands out its record got there through a
      successful bring-up and a successful RGB panel creation. */
  lemma FinishCreates(builtIn: seq<InitCmd>, s: PanelState, o: FactoryOracle)
    requires s.flags.enableIoMultiplex && Finish(builtIn, s, o).state.Some?
    ensures var early := EarlyBringUp(s, builtIn, o.tx);
      && early.status == Ok
      && Finish(builtIn, s, o) == Built(Ok, (Prologue(s.resetGpioNum) + early.events) + [NewRgbPanel], Some(s.(regs := early.regs)))
  {
  }

  lemma FinishMultiplexed(builtIn: seq<InitCmd>, s: PanelState, o: FactoryOracle)
    requires s.flags.enableIoMultiplex && Finish(builtIn, s, o).state.Some?
    ensures Finish(builtIn, s, o).events == Prologue(s.resetGpioNum) + BringUpEffects(s, builtIn)
    ensures Finish(builtIn, s, o).state.value == s.(regs := Overridden(Table(s, builtIn), s.regs))
  {
    var early := EarlyBringUp(s, builtIn, o.tx);
    var pro := Prologue(s.resetGpioNum);
    var Pre, R, N := PreCommands(s.regs), RecordEffects(Table(s, builtIn)), [NewRgbPanel];
    FinishCreates(builtIn, s, o);
    EarlyBringUpComplete(s, builtIn, o.tx);
    BringUpAppend(early.events, pro, Pulse(s), Pre, R);
  }

  /** Creating the RGB panel after a bring-up, as a rearrangement of effects. */
  lemma BringUpAppend(ev: seq<Event>, pro: seq<Event>, pulse: seq<Event>, pre: seq<Event>, rec: seq<Event>)
    requires ev == pulse + ([Delay(120)] + (pre + rec))
    ensures (pro + ev) + [NewRgbPanel] == pro + (pulse + ([Delay(120)] + (pre + (rec + [NewRgbPanel]))))
  {
    AppendNested(pro, pulse, [Delay(120)], pre + rec, [NewRgbPanel]);
    assert (pre + rec) + [NewRgbPanel] == pre + (rec + [NewRgbPanel]);
  }

  /** A successful bring-up is the reset, the 120 ms wait, the two cached
      values and the whole table with its delays, and leaves the table's last
      overriding values cached. */
  lemma EarlyBringUpComplete(s: PanelState, builtIn: seq<InitCmd>, tx: TxOracle)
    requires EarlyBringUp(s, builtIn, tx).status == Ok
    ensures EarlyBringUp(s, builtIn, tx).events
      == Pulse(s) + ([Delay(120)] + (PreCommands(s.regs) + RecordEffects(Table(s, builtIn))))
    ensures EarlyBringUp(s, builtIn, tx).regs == Overridden(Table(s, builtIn), s.regs)
  {
    var n := if s.resetGpioNum >= 0 then 0 else 1;
    var r := SendInitCmdsOp(s, builtIn, tx, n);
    var P, W := Pulse(s), [Delay(120)];
    EarlyBringUpSends(s, builtIn, tx, n);
    SendInitCmdsComplete(s, builtIn, tx, n);
    assert (P + W) + r.events == P + (W + r.events);
  }

  /** A successful bring-up is the reset and the wait followed by a send whose
      first transmission is the n-th: n is 1 after a soft reset, else 0. */
  lemma EarlyBringUpSends(s: PanelState, builtIn: seq<InitCmd>, tx: TxOracle, n: nat)
    requires EarlyBringUp(s, builtIn, tx).status == Ok && n == if s.resetGpioNum >= 0 then 0 else 1
    ensures EarlyBringUp(s, builtIn, tx) == After(Pulse(s) + [Delay(120)], SendInitCmdsOp(s, builtIn, tx, n))
    ensures SendInitCmdsOp(s, builtIn, tx, n).status == Ok
  {
    if s.resetGpioNum < 0 {
      assert tx(0) == Ok;
    }
  }


  /** With I/O multiplexing the factory itself resets the panel, waits 120 ms
      and sends the two derived values and the whole table before it creates
      the RGB panel; the record keeps the table's last overriding values. */
  lemma NewMultiplexedInitialisesFirst(builtIn: seq<InitCmd>, io: Option<IoHandle>, dev: Option<DevConfig>, hasRetPanel: bool, o: FactoryOracle)
    requires ArgsValid(io, dev, hasRetPanel) && dev.value.vendorConfig.value.flags.enableIoMultiplex
    requires NewPanel(builtIn, io, dev, hasRetPanel, o).state.Some?
    ensures MadctlFor(dev.value.rgbEleOrder).Some? && ColmodFor(dev.value.bitsPerPixel).Some?
    ensures var b := NewPanel(builtIn, io, dev, hasRetPanel, o);
      var d := dev.value;
      var s := Configured(io.value, d, d.vendorConfig.value, d.vendorConfig.value.rgbConfig.value, DerivedRegs(d));
      && b.events == Prologue(d.resetGpioNum) + BringUpEffects(s, builtIn)
      && b.state.value == s.(regs := Overridden(Table(s, builtIn), DerivedRegs(d)))
  {
    var d := dev.value;
    var vc := d.vendorConfig.value;
    FinishMultiplexed(builtIn, Configured(io.value, d, vc, vc.rgbConfig.value, DerivedRegs(d)), o);
  }

  /** What a multiplexed bring-up sends: a soft reset when there is no reset
      pin, then the two cached values and the table. */
  lemma BringUpSends(s: PanelState, builtIn: seq<InitCmd>)
    ensures Sends(BringUpEffects(s, builtIn))
      == (if s.resetGpioNum < 0 then [Tx(CmdSoftReset, [])] else []) + InitSequence(s.regs, Table(s, builtIn))
  {
    var P := Pulse(s);
    var W := [Delay(120)];
    var Pre := PreCommands(s.regs);
    var R := RecordEffects(Table(s, builtIn));
    var N := [NewRgbPanel];
    var X := if s.resetGpioNum < 0 then [Tx(CmdSoftReset, [])] else [];
    var T := Transmissions(Table(s, builtIn));
    SendsNone(W);
    SendsNone(N);
    RecordEffectsSendEachOnce(Table(s, builtIn));
    SendsAppend(R, N);
    assert Sends(R + N) == T;
    SendsAppend(Pre, R + N);
    SendsAll(Pre);
    assert Sends(Pre + (R + N)) == InitSequence(s.regs, Table(s, builtIn));
    SendsAppend(W, Pre + (R + N));
    assert Sends(W + (Pre + (R + N))) == InitSequence(s.regs, Table(s, builtIn));
    SendsAppend(P, W + (Pre + (R + N)));
    assert BringUpEffects(s, builtIn) == P + (W + (Pre + (R + N)));
    assert Sends(BringUpEffects(s, builtIn)) == X + InitSequence(s.regs, Table(s, builtIn));
  }

  /** Across creation and init the table is sent exactly once, after the two
      derived values: by the factory when multiplexed (which then also sends a
      soft reset when there is no reset pin) and by init otherwise. Holds for
      every run in which init reaches the original init. */
  lemma TableSentExactlyOnce(builtIn: seq<InitCmd>, io: Option<IoHandle>, dev: Option<DevConfig>, o: FactoryOracle, tx: TxOracle, orig: Status)
    requires ArgsValid(io, dev, true)
    requires NewPanel(builtIn, io, dev, true, o).state.Some?
    requires CallOrig(OpInit) in InitOp(NewPanel(builtIn, io, dev, true, o).state.value, builtIn, tx, orig).events
    ensures MadctlFor(dev.value.rgbEleOrder).Some? && ColmodFor(dev.value.bitsPerPixel).Some?
    ensures var b := NewPanel(builtIn, io, dev, true, o);
      var i := InitOp(b.state.value, builtIn, tx, orig);
      var d := dev.value;
      var mux := d.vendorConfig.value.flags.enableIoMultiplex;
      && Sends(b.events + i.events)
           == (if mux && d.resetGpioNum < 0 then [Tx(CmdSoftReset, [])] else []) + InitSequence(DerivedRegs(d), Table(b.state.value, builtIn))
      && (mux ==> Sends(i.events) == [])
      && (!mux ==> Sends(b.events) == [])
  {
    var b := NewPanel(builtIn, io, dev, true, o);
    var i := InitOp(b.state.value, builtIn, tx, orig);
    SendsAppend(b.events, i.events);
    if dev.value.vendorConfig.value.flags.enableIoMultiplex {
      SentByFactory(builtIn, io, dev, o, tx, orig);
    } else {
      SentByInit(builtIn, io, dev, o, tx, orig);
    }
  }

  lemma SentByFactory(builtIn: seq<InitCmd>, io: Option<IoHandle>, dev: Option<DevConfig>, o: FactoryOracle, tx: TxOracle, orig: Status)
    requires ArgsValid(io, dev, true) && dev.value.vendorConfig.value.flags.enableIoMultiplex
    requires NewPanel(builtIn, io, dev, true, o).state.Some?
    ensures MadctlFor(dev.value.rgbEleOrder).Some? && ColmodFor(dev.value.bitsPerPixel).Some?
    ensures var b := NewPanel(builtIn, io, dev, true, o);
      && Sends(b.events) == (if dev.value.resetGpioNum < 0 then [Tx(CmdSoftReset, [])] else [])
           + InitSequence(DerivedRegs(dev.value), Table(b.state.value, builtIn))
      && Sends(InitOp(b.state.value, builtIn, tx, orig).events) == []
  {
    var d := dev.value;
    var vc := d.vendorConfig.value;
    var s0 := Configured(io.value, d, vc, vc.rgbConfig.value, DerivedRegs(d));
    var b := NewPanel(builtIn, io, dev, true, o);
    NewMultiplexedInitialisesFirst(builtIn, io, dev, true, o);
    assert Table(b.state.value, builtIn) == Table(s0, builtIn);
    SendsAppend(Prologue(d.resetGpioNum), BringUpEffects(s0, builtIn));
    BringUpSends(s0, builtIn);
    SendsNone(InitOp(b.state.value, builtIn, tx, orig).events);
  }

  lemma SentByInit(builtIn: seq<InitCmd>, io: Option<IoHandle>, dev: Option<DevConfig>, o: FactoryOracle, tx: TxOracle, orig: Status)
    requires ArgsValid(io, dev, true) && !dev.value.vendorConfig.value.flags.enableIoMultiplex
    requires NewPanel(builtIn, io, dev, true, o).state.Some?
    requires CallOrig(OpInit) in InitOp(NewPanel(builtIn, io, dev, true, o).state.value, builtIn, tx, orig).events
    ensures MadctlFor(dev.value.rgbEleOrder).Some? && ColmodFor(dev.value.bitsPerPixel).Some?
    ensures var b := NewPanel(builtIn, io, dev, true, o);
      && Sends(b.events) == []
      && Sends(InitOp(b.state.value, builtIn, tx, orig).events) == InitSequence(DerivedRegs(dev.value), Table(b.state.value, builtIn))
  {
    var d := dev.value;
    var vc := d.vendorConfig.value;
    var s0 := Configured(io.value, d, vc, vc.rgbConfig.value, DerivedRegs(d));
    var b := NewPanel(builtIn, io, dev, true, o);
    assert b == Finish(builtIn, s0, o);
    var s := b.state.value;
    assert s == s0;
    var pin := d.resetGpioNum;
    assert b.events == Prologue(pin) + [NewRgbPanel];
    SendsAppend(Prologue(pin), [NewRgbPanel]);
    SendsNone([NewRgbPanel]);
    var r := SendInitCmdsOp(s, builtIn, tx, 0);
    assert r.status == Ok;
    assert InitOp(s, builtIn, tx, orig).events == r.events + [CallOrig(OpInit)];
    SendInitCmdsComplete(s, builtIn, tx, 0);
    InitEffectsSend(s.regs, Table(s, builtIn));
    SendsAppend(r.events, [CallOrig(OpInit)]);
    SendsNone([CallOrig(OpInit)]);
  }

  /** On a record the factory handed out, display on/off goes by command
      exactly when the RGB configuration has no display-enable pin, and the
      command is then always sent, the transport never having been released. */
  lemma DisplayOnOffAfterNew(builtIn: seq<InitCmd>, io: Option<IoHandle>, dev: Option<DevConfig>, hasRetPanel: bool, o: FactoryOracle, on: bool, tx: TxOracle, orig: Status)
    requires ArgsValid(io, dev, hasRetPanel)
    requires NewPanel(builtIn, io, dev, hasRetPanel, o).state.Some?
    ensures DispOnOffOp(NewPanel(builtIn, io, dev, hasRetPanel, o).state.value, on, tx, orig)
      == if dev.value.vendorConfig.value.rgbConfig.value.dispGpioNum < 0
         then Outcome(tx(0), [Tx(if on then CmdDisplayOn else CmdDisplayOff, [])])
         else Outcome(orig, [CallOrig(OpDispOnOff)])
  {
    var d := dev.value;
    var vc := d.vendorConfig.value;
    var s0 := Configured(io.value, d, vc, vc.rgbConfig.value, DerivedRegs(d));
    FinishKeepsDiscipline(builtIn, s0, o);
    assert NewPanel(builtIn, io, dev, hasRetPanel, o) == Finish(builtIn, s0, o);
  }

  /** nv3052_panel_t: the adapter record, and the five generic RGB panel
      operations it saved before overwriting them. */
  class Nv3052Panel {
    var io: Option<IoHandle>
    var resetGpioNum: int
    var madctl: Byte
    var colmod: Byte
    var initCmds: Option<seq<InitCmd>>
    var mirrorByCmd: bool
    var enableIoMultiplex: bool
    var displayOnOffUseCmd: bool
    var resetLevel: bool
    var origInit: Handler
    var origDel: Handler
    var origReset: Handler
    var origMirror: Handler
    var origDispOnOff: Handler
    /** Allocated and not yet freed by del. */
    var live: bool

    function Model(): PanelState
      reads this
    {
      PanelState(io, resetGpioNum, Regs(madctl, colmod), initCmds,
        PanelFlags(mirrorByCmd, enableIoMultiplex, displayOnOffUseCmd, resetLevel))
    }

    /** A record handed out by the factory: live, with every saved operation the
        generic RGB panel's own. */
    ghost predicate Valid()
      reads this
    {
      && live
      && origInit == Original(OpInit) && origDel == Original(OpDel) && origReset == Original(OpReset)
      && origMirror == Original(OpMirror) && origDispOnOff == Original(OpDispOnOff)
    }

    /** calloc: every field zero. */
    constructor Zeroed()
      ensures Model() == PanelState(None, 0, Regs(0, 0), None, PanelFlags(false, false, false, false))
      ensures origInit == Unset && origDel == Unset && origReset == Unset && origMirror == Unset && origDispOnOff == Unset
      ensures live
    {
      io, resetGpioNum, madctl, colmod, initCmds := None, 0, 0, 0, None;
      mirrorByCmd, enableIoMultiplex, displayOnOffUseCmd, resetLevel := false, false, false, false;
      origInit, origDel, origReset, origMirror, origDispOnOff := Unset, Unset, Unset, Unset, Unset;
      live := true;
    }

    /** panel_nv3052_send_init_cmds; its first transmission is the n-th of the
        enclosing call. */
    method SendInitCmds(tx: TxOracle, n: nat) returns (r: Status, ev: seq<Event>)
      modifies this`madctl, this`colmod
      ensures RegsOutcome(r, ev, Regs(madctl, colmod)) == SendInitCmdsOp(old(Model()), DefaultCmds, tx, n)
    {
      ghost var s := Model();
      ev := [Tx(CmdAddressMode, [madctl])];
      r := tx(n);
      if r != Ok { return; }
      ev := ev + [Tx(CmdPixelFormat, [colmod])];
      r := tx(n + 1);
      if r != Ok { return; }
      var cmds := if initCmds.Some? then initCmds.value else DefaultCmds;
      assert cmds == Table(s, DefaultCmds);
      assert ev == PreCommands(s.regs);
      ghost var rest := ReplayRecords(cmds, s.regs, tx, n + 2);
      assert SendInitCmdsOp(s, DefaultCmds, tx, n) == After(ev, rest);
      var sent;
      r, sent := ReplayTable(cmds, tx, n + 2);
      ev := ev + sent;
    }

    /** The loop of panel_nv3052_send_init_cmds: for each record, override
        detection, then the transmission (the m-th of the enclosing call for
        the first record) and the record's delay. */
    method ReplayTable(cmds: seq<InitCmd>, tx: TxOracle, m: nat) returns (r: Status, ev: seq<Event>)
      modifies this`madctl, this`colmod
      ensures RegsOutcome(r, ev, Regs(madctl, colmod)) == ReplayRecords(cmds, old(Regs(madctl, colmod)), tx, m)
    {
      ghost var whole := ReplayRecords(cmds, Regs(madctl, colmod), tx, m);
      assert cmds[0..] == cmds;
      r, ev := Ok, [];
      var i := 0;
      while i < |cmds|
        invariant 0 <= i <= |cmds| && r == Ok
        invariant whole == After(ev, ReplayRecords(cmds[i..], Regs(madctl, colmod), tx, m + i))
      {
        var c := cmds[i];
        ghost var g := Regs(madctl, colmod);
        ghost var done := ev;
        DetectOverride(c);
        ev := ev + [Tx(c.cmd, c.data[..c.dataBytes])];
        r := tx(m + i);
        if r != Ok {
          ReplayRecordsFails(cmds, i, g, tx, m, done, Regs(madctl, colmod), ev);
          return;
        }
        ev := ev + [Delay(c.delayMs)];
        ReplayRecordsSends(cmds, i, g, tx, m, done, Regs(madctl, colmod), ev);
        i := i + 1;
      }
      assert cmds[i..] == [];
    }

    /** The loop body's override detection for one record. */
    method DetectOverride(c: InitCmd)
      modifies this`madctl, this`colmod
      ensures Regs(madctl, colmod) == Override(c, old(Regs(madctl, colmod)))
    {
      if c.dataBytes > 0 {
        if c.cmd == CmdAddressMode {
          madctl := c.data[0];
        } else if c.cmd == CmdPixelFormat {
          colmod := c.data[0];
        }
      }
    }

    /** panel_nv3052_init. */
    method Init(tx: TxOracle, orig: Status) returns (r: Status, ev: seq<Event>)
      requires Valid()
      modifies this`madctl, this`colmod
      ensures Valid()
      ensures Step(r, ev, Model()) == InitOp(old(Model()), DefaultCmds, tx, orig)
    {
      ev := [];
      if !enableIoMultiplex {
        r, ev := SendInitCmds(tx, 0);
        if r != Ok { return; }
      }
      ev := ev + [CallOrig(origInit.op)];
      r := orig;
    }

    /** panel_nv3052_del: the original del's status is ignored. */
    method Del(orig: Status) returns (r: Status, ev: seq<Event>)
      requires Valid()
      modifies this`live
      ensures !live && r == Ok && ev == DelEffects(resetGpioNum)
    {
      ev := [];
      if resetGpioNum >= 0 {
        ev := ev + [GpioReset(resetGpioNum)];
      }
      ev := ev + [CallOrig(origDel.op), Free];
      live := false;
      r := Ok;
    }

    /** panel_nv3052_reset. */
    method Reset(tx: TxOracle, orig: Status) returns (r: Status, ev: seq<Event>)
      requires Valid()
      ensures Outcome(r, ev) == ResetOp(Model(), tx, orig)
    {
      ev := [];
      if resetGpioNum >= 0 {
        ev := [GpioSet(resetGpioNum, resetLevel), Delay(10), GpioSet(resetGpioNum, !resetLevel), Delay(120)];
      } else if io.Some? {
        ev := [Tx(CmdSoftReset, [])];
        r := tx(0);
        if r != Ok { return; }
        ev := ev + [Delay(120)];
      }
      ev := ev + [CallOrig(origReset.op)];
      r := orig;
    }

    /** panel_nv3052_mirror. */
    method Mirror(mirrorX: bool, mirrorY: bool, tx: TxOracle, orig: Status) returns (r: Status, ev: seq<Event>)
      requires Valid()
      modifies this`madctl
      ensures Valid()
      ensures Step(r, ev, Model()) == MirrorOp(old(Model()), mirrorX, mirrorY, tx, orig)
    {
      ghost var s := Model();
      if mirrorByCmd {
        if io.None? {
          return Fail, [];
        }
        var sdir: Byte := if mirrorX then 1 << 2 else 0;
        if mirrorY {
          madctl := madctl | MlBit;
        } else {
          madctl := madctl & !MlBit;
        }
        assert madctl == WithMl(s.regs.madctl, mirrorY);
        assert Model() == s.(regs := s.regs.(madctl := madctl));
        ev := [Tx(CmdSdir, [sdir])];
        r := tx(0);
        if r != Ok { return; }
        ev := ev + [Tx(CmdAddressMode, [madctl])];
        r := tx(1);
        if r != Ok { return; }
      } else {
        ev := [CallOrig(origMirror.op)];
        r := orig;
      }
    }

    /** panel_nv3052_disp_on_off. */
    method DispOnOff(on: bool, tx: TxOracle, orig: Status) returns (r: Status, ev: seq<Event>)
      requires Valid()
      ensures Outcome(r, ev) == DispOnOffOp(Model(), on, tx, orig)
    {
      if displayOnOffUseCmd {
        if io.None? {
          return Fail, [];
        }
        var command := if on then CmdDisplayOn else CmdDisplayOff;
        ev := [Tx(command, [])];
        r := tx(0);
      } else {
        ev := [CallOrig(origDispOnOff.op)];
        r := orig;
      }
    }

    /** The factory's record set-up: the colour order and pixel width give the
        cached values (anything else is NOT_SUPPORTED), then the configuration
        is copied in. The record is fresh from calloc. */
    method Configure(io: IoHandle, d: DevConfig, vc: VendorConfig, rgb: RgbConfig) returns (r: Status)
      requires madctl == 0
      modifies this`io, this`resetGpioNum, this`madctl, this`colmod, this`initCmds
      modifies this`mirrorByCmd, this`enableIoMultiplex, this`displayOnOffUseCmd, this`resetLevel
      ensures r == Ok || r == NotSupported
      ensures r == Ok <==> MadctlFor(d.rgbEleOrder).Some? && ColmodFor(d.bitsPerPixel).Some?
      ensures r == Ok ==> Model() == Configured(io, d, vc, rgb, DerivedRegs(d))
    {
      if d.rgbEleOrder == ElementOrderRgb {
        madctl := 0;
      } else if d.rgbEleOrder == ElementOrderBgr {
        madctl := madctl | BgrBit;
      } else {
        return NotSupported;
      }
      colmod := 0;
      if d.bitsPerPixel == 16 {
        colmod := 0x50;
      } else if d.bitsPerPixel == 18 {
        colmod := 0x60;
      } else if d.bitsPerPixel == 24 {
        colmod := 0x70;
      } else {
        return NotSupported;
      }
      this.io := Some(io);
      initCmds := vc.initCmds;
      resetGpioNum := d.resetGpioNum;
      mirrorByCmd := vc.flags.mirrorByCmd;
      displayOnOffUseCmd := if rgb.dispGpioNum >= 0 then false else true;
      enableIoMultiplex := vc.flags.enableIoMultiplex;
      resetLevel := d.resetActiveHigh;
      r := Ok;
    }

    /** The factory's bring-up of a multiplexed record: reset, wait, send the
        init commands before the RGB panel exists. */
    method BringUp(tx: TxOracle) returns (r: Status, ev: seq<Event>)
      modifies this`madctl, this`colmod
      ensures RegsOutcome(r, ev, Regs(madctl, colmod)) == EarlyBringUp(old(Model()), DefaultCmds, tx)
    {
      var n := 0;
      if resetGpioNum >= 0 {
        ev := [GpioSet(resetGpioNum, resetLevel), Delay(10), GpioSet(resetGpioNum, !resetLevel)];
      } else {
        ev := [Tx(CmdSoftReset, [])];
        r := tx(0);
        if r != Ok {
          return;
        }
        n := 1;
      }
      ev := ev + [Delay(120)];
      var sent;
      r, sent := SendInitCmds(tx, n);
      ev := ev + sent;
    }

    /** Save the RGB panel's five operations in the record, then overwrite them
        with this adapter's. */
    method Adapt(rgb: RgbPanel)
      modifies this`origInit, this`origDel, this`origReset, this`origMirror, this`origDispOnOff, rgb
      ensures origInit == old(rgb.initFn) && origDel == old(rgb.delFn) && origReset == old(rgb.resetFn)
      ensures origMirror == old(rgb.mirrorFn) && origDispOnOff == old(rgb.dispOnOffFn)
      ensures rgb.AdaptedBy(VendorNv3052c)
    {
      origInit, origDel, origReset, origMirror, origDispOnOff :=
        rgb.initFn, rgb.delFn, rgb.resetFn, rgb.mirrorFn, rgb.dispOnOffFn;
      rgb.initFn := Adapted(VendorNv3052c, OpInit);
      rgb.delFn := Adapted(VendorNv3052c, OpDel);
      rgb.resetFn := Adapted(VendorNv3052c, OpReset);
      rgb.mirrorFn := Adapted(VendorNv3052c, OpMirror);
      rgb.dispOnOffFn := Adapted(VendorNv3052c, OpDispOnOff);
    }

    /** esp_lcd_new_panel_nv3052_rgb: on success a fresh live record and a fresh
        RGB panel whose five operations are this adapter's, the originals saved
        in the record. */
    static method New(io: Option<IoHandle>, dev: Option<DevConfig>, hasRetPanel: bool, o: FactoryOracle)
      returns (r: Status, ev: seq<Event>, panel: RgbPanel?, nv: Nv3052Panel?)
      ensures Built(r, ev, if nv == null then None else Some(nv.Model())) == NewPanel(DefaultCmds, io, dev, hasRetPanel, o)
      ensures (nv != null <==> r == Ok) && (panel != null <==> r == Ok)
      ensures nv != null ==> fresh(nv) && nv.Valid()
      ensures panel != null ==> fresh(panel) && panel.AdaptedBy(VendorNv3052c)
    {
      panel, nv := null, null;
      ev := [];
      if io.None? || dev.None? || !hasRetPanel {
        return InvalidArg, ev, panel, nv;
      }
      var d := dev.value;
      if d.vendorConfig.None? || d.vendorConfig.value.rgbConfig.None? {
        return InvalidArg, ev, panel, nv;
      }
      var vc := d.vendorConfig.value;
      if vc.flags.enableIoMultiplex && vc.flags.mirrorByCmd {
        return InvalidArg, ev, panel, nv;
      }
      if !o.allocOk {
        return NoMem, ev, panel, nv;
      }
      ghost var spec := Allocated(DefaultCmds, io.value, d, o);
      assert NewPanel(DefaultCmds, io, dev, hasRetPanel, o) == spec;
      var p := new Nv3052Panel.Zeroed();
      ev := [Alloc];
      var pin := d.resetGpioNum;
      if pin >= 0 {
        ev := ev + [GpioConfig(pin)];
        if o.gpioConfig != Ok {
          return o.gpioConfig, ev + Release(pin), panel, nv;
        }
      }
      assert ev == Prologue(pin);
      r := p.Configure(io.value, d, vc, vc.rgbConfig.value);
      if r != Ok {
        return r, ev + Release(pin), panel, nv;
      }
      assert spec == Finish(DefaultCmds, p.Model(), o);
      r, ev, panel, nv := Complete(p, o, ev);
    }

    /** The factory after the record is filled in: the multiplexed bring-up,
        the RGB panel's creation, the takeover of its operations; any failure
        releases the reset pin and frees the record. */
    static method Complete(p: Nv3052Panel, o: FactoryOracle, ev0: seq<Event>)
      returns (r: Status, ev: seq<Event>, panel: RgbPanel?, nv: Nv3052Panel?)
      requires ev0 == Prologue(p.resetGpioNum) && p.live
      modifies p
      ensures Built(r, ev, if nv == null then None else Some(nv.Model())) == Finish(DefaultCmds, old(p.Model()), o)
      ensures (nv != null <==> r == Ok) && (panel != null <==> r == Ok)
      ensures nv != null ==> nv == p && nv.Valid()
      ensures panel != null ==> fresh(panel) && panel.AdaptedBy(VendorNv3052c)
    {
      panel, nv := null, null;
      ev := ev0;
      var pin := p.resetGpioNum;
      ghost var spec := Finish(DefaultCmds, p.Model(), o);
      if p.enableIoMultiplex {
        var early;
        r, early := p.BringUp(o.tx);
        ev := ev + early;
        if r != Ok {
          assert spec == Abandon(r, ev, pin);
          return r, ev + Release(pin), panel, nv;
        }
      }
      assert spec == CreateRgbPanel(p.Model(), ev, o.newRgbPanel);
      r, ev, panel, nv := CreatePanel(p, o.newRgbPanel, ev);
    }

    /** esp_lcd_new_rgb_panel with answer created, then the takeover of the
        new panel's operations; a failure releases the reset pin and frees the
        record. */
    static method CreatePanel(p: Nv3052Panel, created: Status, ev0: seq<Event>)
      returns (r: Status, ev: seq<Event>, panel: RgbPanel?, nv: Nv3052Panel?)
      requires p.live
      modifies p`origInit, p`origDel, p`origReset, p`origMirror, p`origDispOnOff
      ensures Built(r, ev, if nv == null then None else Some(nv.Model())) == CreateRgbPanel(old(p.Model()), ev0, created)
      ensures (nv != null <==> r == Ok) && (panel != null <==> r == Ok)
      ensures nv != null ==> nv == p && nv.Valid()
      ensures panel != null ==> fresh(panel) && panel.AdaptedBy(VendorNv3052c)
    {
      panel, nv := null, null;
      ev := ev0 + [NewRgbPanel];
      if created != Ok {
        return created, ev + Release(p.resetGpioNum), panel, nv;
      }
      var rgb := new RgbPanel();
      p.Adapt(rgb);
      r, panel, nv := Ok, rgb, p;
    }
  }
}
