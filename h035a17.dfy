/**
 * The H035A17 adapter (lcd_h035a17.c): its built-in initialisation table and
 * its factory, the record and lifecycle being PlainAdapter's.
 */
module LcdH035a17 {
  import opened LcdTypes
  import opened InitReplay
  import opened AdapterOps
  import opened PlainAdapter

  // The built-in table rgb_lcd_init_cmds, in table order, in chunks of 24.
  const Part1Cmds: seq<InitCmd> := [
    InitRecord(0xFF, [0x30], 1, 0), InitRecord(0xFF, [0x52], 1, 0), InitRecord(0xFF, [0x01], 1, 0),
    InitRecord(0xE3, [0x00], 1, 0), InitRecord(0x40, [0x00], 1, 0), InitRecord(0x03, [0x40], 1, 0),
    InitRecord(0x04, [0x00], 1, 0), InitRecord(0x05, [0x03], 1, 0), InitRecord(0x08, [0x00], 1, 0),
    InitRecord(0x09, [0x07], 1, 0), InitRecord(0x0A, [0x01], 1, 0), InitRecord(0x0B, [0x32], 1, 0),
    InitRecord(0x0C, [0x32], 1, 0), InitRecord(0x0D, [0x0B], 1, 0), InitRecord(0x0E, [0x00], 1, 0),
    InitRecord(0x23, [0xA2], 1, 0), InitRecord(0x24, [0x0C], 1, 0), InitRecord(0x25, [0x06], 1, 0),
    InitRecord(0x26, [0x14], 1, 0), InitRecord(0x27, [0x14], 1, 0), InitRecord(0x38, [0x9C], 1, 0),
    InitRecord(0x39, [0xA7], 1, 0), InitRecord(0x28, [0x40], 1, 0), InitRecord(0x29, [0x01], 1, 0)
  ]

  const Part2Cmds: seq<InitCmd> := [
    InitRecord(0x2A, [0xDF], 1, 0), InitRecord(0x49, [0x3C], 1, 0), InitRecord(0x91, [0x57], 1, 0),
    InitRecord(0x92, [0x57], 1, 0), InitRecord(0xA0, [0x55], 1, 0), InitRecord(0xA1, [0x50], 1, 0),
    InitRecord(0xA4, [0x9C], 1, 0), InitRecord(0xA7, [0x02], 1, 0), InitRecord(0xA8, [0x01], 1, 0),
    InitRecord(0xA9, [0x01], 1, 0), InitRecord(0xAA, [0xFC], 1, 0), InitRecord(0xAB, [0x28], 1, 0),
    InitRecord(0xAC, [0x06], 1, 0), InitRecord(0xAD, [0x06], 1, 0), InitRecord(0xAE, [0x06], 1, 0),
    InitRecord(0xAF, [0x03], 1, 0), InitRecord(0xB0, [0x08], 1, 0), InitRecord(0xB1, [0x26], 1, 0),
    InitRecord(0xB2, [0x28], 1, 0), InitRecord(0xB3, [0x28], 1, 0), InitRecord(0xB4, [0x03], 1, 0),
    InitRecord(0xB5, [0x08], 1, 0), InitRecord(0xB6, [0x26], 1, 0), InitRecord(0xB7, [0x08], 1, 0)
  ]

  const Part3Cmds: seq<InitCmd> := [
    InitRecord(0xB8, [0x26], 1, 0), InitRecord(0xF0, [0x00], 1, 0), InitRecord(0xF6, [0xC0], 1, 0),
    InitRecord(0xFF, [0x30], 1, 0), InitRecord(0xFF, [0x52], 1, 0), InitRecord(0xFF, [0x02], 1, 0),
    InitRecord(0xB0, [0x0B], 1, 0), InitRecord(0xB1, [0x16], 1, 0), InitRecord(0xB2, [0x17], 1, 0),
    InitRecord(0xB3, [0x2C], 1, 0), InitRecord(0xB4, [0x32], 1, 0), InitRecord(0xB5, [0x3B], 1, 0),
    InitRecord(0xB6, [0x29], 1, 0), InitRecord(0xB7, [0x40], 1, 0), InitRecord(0xB8, [0x0D], 1, 0),
    InitRecord(0xB9, [0x05], 1, 0), InitRecord(0xBA, [0x12], 1, 0), InitRecord(0xBB, [0x10], 1, 0),
    InitRecord(0xBC, [0x12], 1, 0), InitRecord(0xBD, [0x15], 1, 0), InitRecord(0xBE, [0x19], 1, 0),
    InitRecord(0xBF, [0x0E], 1, 0), InitRecord(0xC0, [0x16], 1, 0), InitRecord(0xC1, [0x0A], 1, 0)
  ]

  const Part4Cmds: seq<InitCmd> := [
    InitRecord(0xD0, [0x0C], 1, 0), InitRecord(0xD1, [0x17], 1, 0), InitRecord(0xD2, [0x14], 1, 0),
    InitRecord(0xD3, [0x2E], 1, 0), InitRecord(0xD4, [0x32], 1, 0), InitRecord(0xD5, [0x3C], 1, 0),
    InitRecord(0xD6, [0x22], 1, 0), InitRecord(0xD7, [0x3D], 1, 0), InitRecord(0xD8, [0x0D], 1, 0),
    InitRecord(0xD9, [0x07], 1, 0), InitRecord(0xDA, [0x13], 1, 0), InitRecord(0xDB, [0x13], 1, 0),
    InitRecord(0xDC, [0x11], 1, 0), InitRecord(0xDD, [0x15], 1, 0), InitRecord(0xDE, [0x19], 1, 0),
    InitRecord(0xDF, [0x10], 1, 0), InitRecord(0xE0, [0x17], 1, 0), InitRecord(0xE1, [0x0A], 1, 0),
    InitRecord(0xFF, [0x30], 1, 0), InitRecord(0xFF, [0x52], 1, 0), InitRecord(0xFF, [0x03], 1, 0),
    InitRecord(0x00, [0x2A], 1, 0), InitRecord(0x01, [0x2A], 1, 0), InitRecord(0x02, [0x2A], 1, 0)
  ]

  const Part5Cmds: seq<InitCmd> := [
    InitRecord(0x03, [0x2A], 1, 0), InitRecord(0x04, [0x61], 1, 0), InitRecord(0x05, [0x80], 1, 0),
    InitRecord(0x06, [0xC7], 1, 0), InitRecord(0x07, [0x01], 1, 0), InitRecord(0x08, [0x03], 1, 0),
    InitRecord(0x09, [0x04], 1, 0), InitRecord(0x70, [0x22], 1, 0), InitRecord(0x71, [0x80], 1, 0),
    InitRecord(0x30, [0x2A], 1, 0), InitRecord(0x31, [0x2A], 1, 0), InitRecord(0x32, [0x2A], 1, 0),
    InitRecord(0x33, [0x2A], 1, 0), InitRecord(0x34, [0x61], 1, 0), InitRecord(0x35, [0xC5], 1, 0),
    InitRecord(0x36, [0x80], 1, 0), InitRecord(0x37, [0x23], 1, 0), InitRecord(0x40, [0x03], 1, 0),
    InitRecord(0x41, [0x04], 1, 0), InitRecord(0x42, [0x05], 1, 0), InitRecord(0x43, [0x06], 1, 0),
    InitRecord(0x44, [0x11], 1, 0), InitRecord(0x45, [0xE8], 1, 0), InitRecord(0x46, [0xE9], 1, 0)
  ]

  const Part6Cmds: seq<InitCmd> := [
    InitRecord(0x47, [0x11], 1, 0), InitRecord(0x48, [0xEA], 1, 0), InitRecord(0x49, [0xEB], 1, 0),
    InitRecord(0x50, [0x07], 1, 0), InitRecord(0x51, [0x08], 1, 0), InitRecord(0x52, [0x09], 1, 0),
    InitRecord(0x53, [0x0A], 1, 0), InitRecord(0x54, [0x11], 1, 0), InitRecord(0x55, [0xEC], 1, 0),
    InitRecord(0x56, [0xED], 1, 0), InitRecord(0x57, [0x11], 1, 0), InitRecord(0x58, [0xEF], 1, 0),
    InitRecord(0x59, [0xF0], 1, 0), InitRecord(0xB1, [0x01], 1, 0), InitRecord(0xB4, [0x15], 1, 0),
    InitRecord(0xB5, [0x16], 1, 0), InitRecord(0xB6, [0x09], 1, 0), InitRecord(0xB7, [0x0F], 1, 0),
    InitRecord(0xB8, [0x0D], 1, 0), InitRecord(0xB9, [0x0B], 1, 0), InitRecord(0xBA, [0x00], 1, 0),
    InitRecord(0xC7, [0x02], 1, 0), InitRecord(0xCA, [0x17], 1, 0), InitRecord(0xCB, [0x18], 1, 0)
  ]

  const Part7Cmds: seq<InitCmd> := [
    InitRecord(0xCC, [0x0A], 1, 0), InitRecord(0xCD, [0x10], 1, 0), InitRecord(0xCE, [0x0E], 1, 0),
    InitRecord(0xCF, [0x0C], 1, 0), InitRecord(0xD0, [0x00], 1, 0), InitRecord(0x81, [0x00], 1, 0),
    InitRecord(0x84, [0x15], 1, 0), InitRecord(0x85, [0x16], 1, 0), InitRecord(0x86, [0x10], 1, 0),
    InitRecord(0x87, [0x0A], 1, 0), InitRecord(0x88, [0x0C], 1, 0), InitRecord(0x89, [0x0E], 1, 0),
    InitRecord(0x8A, [0x02], 1, 0), InitRecord(0x97, [0x00], 1, 0), InitRecord(0x9A, [0x17], 1, 0),
    InitRecord(0x9B, [0x18], 1, 0), InitRecord(0x9C, [0x0F], 1, 0), InitRecord(0x9D, [0x09], 1, 0),
    InitRecord(0x9E, [0x0B], 1, 0), InitRecord(0x9F, [0x0D], 1, 0), InitRecord(0xA0, [0x01], 1, 0),
    InitRecord(0xFF, [0x30], 1, 0), InitRecord(0xFF, [0x52], 1, 0), InitRecord(0xFF, [0x02], 1, 0)
  ]

  const Part8Cmds: seq<InitCmd> := [
    InitRecord(0x01, [0x01], 1, 0), InitRecord(0x02, [0xDA], 1, 0), InitRecord(0x03, [0xBA], 1, 0),
    InitRecord(0x04, [0xA8], 1, 0), InitRecord(0x05, [0x9A], 1, 0), InitRecord(0x06, [0x70], 1, 0),
    InitRecord(0x07, [0xFF], 1, 0), InitRecord(0x08, [0x91], 1, 0), InitRecord(0x09, [0x90], 1, 0),
    InitRecord(0x0A, [0xFF], 1, 0), InitRecord(0x0B, [0x8F], 1, 0), InitRecord(0x0C, [0x60], 1, 0),
    InitRecord(0x0D, [0x58], 1, 0), InitRecord(0x0E, [0x48], 1, 0), InitRecord(0x0F, [0x38], 1, 0),
    InitRecord(0x10, [0x2B], 1, 0), InitRecord(0xFF, [0x30], 1, 0), InitRecord(0xFF, [0x52], 1, 0),
    InitRecord(0xFF, [0x00], 1, 0), InitRecord(0x3A, [0x77], 1, 0), InitRecord(0x36, [0x0A], 1, 0),
    InitRecord(0x11, [0x00], 0, 200), InitRecord(0x29, [0x00], 0, 20)
  ]

  const DefaultCmds: seq<InitCmd> := Part1Cmds + Part2Cmds + Part3Cmds + Part4Cmds + Part5Cmds + Part6Cmds + Part7Cmds + Part8Cmds

  /** The built-in table has 191 records and ends by leaving sleep mode, waiting
      200 ms, and switching the display on, both commands without parameters:
      a complete replay of it ends with exactly these effects. */
  lemma DefaultReplayEndsWithDisplayOn()
    ensures |DefaultCmds| == 191
    ensures var ev := RecordEffects(DefaultCmds);
      ev[|ev| - 4..] == [Tx(CmdSleepOut, []), Delay(200), Tx(CmdDisplayOn, []), Delay(20)]
  {
    assert |DefaultCmds| == 191;
    assert DefaultCmds[189] == Part8Cmds[21] && DefaultCmds[190] == Part8Cmds[22];
    var ev := RecordEffects(DefaultCmds);
    assert ev[|ev| - 4..] == [ev[378], ev[379], ev[380], ev[381]];
  }

  /** esp_lcd_new_panel_h035a17. */
  method New(io: Option<IoHandle>, dev: Option<DevConfig>, hasRetPanel: bool, o: FactoryOracle)
    returns (r: Status, ev: seq<Event>, panel: RgbPanel?, p: PlainPanel?)
    ensures Built(r, ev, if p == null then None else Some(p.Model())) == NewPanel(DefaultCmds, io, dev, hasRetPanel, o)
    ensures (p != null <==> r == Ok) && (panel != null <==> r == Ok)
    ensures p != null ==> fresh(p) && p.Valid() && p.vendor == VendorH035a17 && p.builtIn == DefaultCmds
    ensures panel != null ==> fresh(panel) && panel.AdaptedBy(VendorH035a17)
  {
    r, ev, panel, p := PlainPanel.New(VendorH035a17, DefaultCmds, io, dev, hasRetPanel, o);
  }
}
