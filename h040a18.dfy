/**
 * The H040A18 adapter (lcd_H040A18.c): its built-in initialisation table and
 * its factory, the record and lifecycle being PlainAdapter's.
 */
module LcdH040a18 {
  import opened LcdTypes
  import opened InitReplay
  import opened AdapterOps
  import opened PlainAdapter

  // The built-in table rgb_lcd_init_cmds, in table order, in chunks of 9.
  const Part1Cmds: seq<InitCmd> := [
    InitRecord(0x3A, [0x77], 1, 0),
    InitRecord(0x36, [0x00], 1, 0),
    InitRecord(0xFF, [0x77, 0x01, 0x00, 0x00, 0x13], 5, 0),
    InitRecord(0xEF, [0x08], 1, 0),
    InitRecord(0xFF, [0x77, 0x01, 0x00, 0x00, 0x10], 5, 0),
    InitRecord(0xC0, [0x77, 0x00], 2, 0),
    InitRecord(0xC1, [0x0E, 0x0C], 2, 0),
    InitRecord(0xC2, [0x07, 0x02], 2, 0),
    InitRecord(0xCC, [0x30], 1, 0)
  ]

  const Part2Cmds: seq<InitCmd> := [
    InitRecord(0xB0, [0x00, 0x13, 0x1E, 0x0D, 0x11, 0x06, 0x0F, 0x07, 0x0F, 0x2C, 0x05, 0x17, 0x1E, 0x2D, 0x34, 0x1D], 16, 0),
    InitRecord(0xB1, [0x00, 0x1A, 0x1F, 0x0F, 0x12, 0x08, 0x0B, 0x0A, 0x03, 0x22, 0x03, 0x0F, 0x09, 0x28, 0x33, 0x1F], 16, 0),
    InitRecord(0xFF, [0x77, 0x01, 0x00, 0x00, 0x11], 5, 0),
    InitRecord(0xB0, [0x5C], 1, 0),
    InitRecord(0xB1, [0x69], 1, 0),
    InitRecord(0xB2, [0x87], 1, 0),
    InitRecord(0xB3, [0x80], 1, 0),
    InitRecord(0xB5, [0x4A], 1, 0),
    InitRecord(0xB7, [0x85], 1, 0)
  ]

  const Part3Cmds: seq<InitCmd> := [
    InitRecord(0xB8, [0x48], 1, 0),
    InitRecord(0xB9, [0x10, 0x1F], 2, 0),
    InitRecord(0xBB, [0x03], 1, 0),
    InitRecord(0xC0, [0x80], 1, 0),
    InitRecord(0xC1, [0x08], 1, 0),
    InitRecord(0xC2, [0x08], 1, 0),
    InitRecord(0xD0, [0x88], 1, 0),
    InitRecord(0xE0, [0x00, 0x00, 0x02, 0x00, 0x00, 0x0C], 6, 0),
    InitRecord(0xE1, [0x03, 0x96, 0x05, 0x96, 0x02, 0x96, 0x04, 0x96, 0x00, 0x44, 0x44], 11, 0)
  ]

  const Part4Cmds: seq<InitCmd> := [
    InitRecord(0xE2, [0x00, 0x00, 0x03, 0x03, 0x00, 0x00, 0x02, 0x00, 0x00, 0x00, 0x02, 0x00], 12, 0),
    InitRecord(0xE3, [0x00, 0x00, 0x33, 0x33], 4, 0),
    InitRecord(0xE4, [0x44, 0x44], 2, 0),
    InitRecord(0xE5, [0x0B, 0xD4, 0x28, 0x8C, 0x0D, 0xD6, 0x28, 0x8C, 0x07, 0xD0, 0x28, 0x8C, 0x09, 0xD2, 0x28, 0x8C], 16, 0),
    InitRecord(0xE6, [0x00, 0x00, 0x33, 0x33], 4, 0),
    InitRecord(0xE7, [0x44, 0x44], 2, 0),
    InitRecord(0xE8, [0x0A, 0xD5, 0x28, 0x8C, 0x0C, 0xD7, 0x28, 0x8C, 0x06, 0xD1, 0x28, 0x8C, 0x08, 0xD3, 0x28, 0x8C], 16, 0),
    InitRecord(0xEB, [0x00, 0x01, 0xE4, 0xE4, 0x44, 0x00], 6, 0),
    InitRecord(0xED, [0xFF, 0x45, 0x67, 0xFC, 0x01, 0x3F, 0xAB, 0xFF, 0xFF, 0xBA, 0xF3, 0x10, 0xCF, 0x76, 0x54, 0xFF], 16, 0)
  ]

  const Part5Cmds: seq<InitCmd> := [
    InitRecord(0xEF, [0x10, 0x0D, 0x04, 0x08, 0x3F, 0x1F], 6, 0),
    InitRecord(0xFF, [0x77, 0x01, 0x00, 0x00, 0x13], 5, 0),
    InitRecord(0xE8, [0x00, 0x0E], 2, 0),
    InitRecord(0x11, [0x00], 0, 120),
    InitRecord(0xE8, [0x00, 0x0C], 2, 20),
    InitRecord(0xE8, [0x40, 0x00], 2, 0),
    InitRecord(0xFF, [0x77, 0x01, 0x00, 0x00, 0x00], 5, 0),
    InitRecord(0x35, [0x00], 1, 0),
    InitRecord(0x29, [0x00], 0, 20)
  ]

  const DefaultCmds: seq<InitCmd> := Part1Cmds + Part2Cmds + Part3Cmds + Part4Cmds + Part5Cmds

  /** The built-in table has 45 records. It opens by setting the pixel format
      to 0x77 and the address mode to 0: the table, not the colour order or
      pixel width the factory was given, decides both. */
  lemma DefaultReplayStartsWithFormat()
    ensures |DefaultCmds| == 45
    ensures var ev := RecordEffects(DefaultCmds);
      ev[..4] == [Tx(CmdPixelFormat, [0x77]), Delay(0), Tx(CmdAddressMode, [0x00]), Delay(0)]
  {
    assert |DefaultCmds| == 45;
    assert DefaultCmds[0] == Part1Cmds[0] && DefaultCmds[1] == Part1Cmds[1];
    assert Params(DefaultCmds[0]) == [0x77] && Params(DefaultCmds[1]) == [0x00];
    var ev := RecordEffects(DefaultCmds);
    assert ev[..4] == [ev[0], ev[1], ev[2], ev[3]];
  }

  /** Every record of cmds carries at most k parameter bytes. */
  predicate ParamsAtMost(cmds: seq<InitCmd>, k: nat)
  {
    forall i :: 0 <= i < |cmds| ==> cmds[i].dataBytes <= k
  }

  lemma ParamsAtMostAppend(a: seq<InitCmd>, b: seq<InitCmd>, k: nat)
    requires ParamsAtMost(a, k) && ParamsAtMost(b, k)
    ensures ParamsAtMost(a + b, k)
  {
    forall i | 0 <= i < |a + b|
      ensures (a + b)[i].dataBytes <= k
    {
      if i >= |a| {
        assert (a + b)[i] == b[i - |a|];
      }
    }
  }

  /** The built-in table's records carry from 0 to 16 parameter bytes, sent in
      full: record 2 selects a command page with 5 bytes, record 9 writes a
      16-byte gamma curve, record 39 leaves sleep mode with none. */
  lemma DefaultTableRecordSizes()
    ensures ParamsAtMost(DefaultCmds, 16)
    ensures |DefaultCmds| == 45
    ensures Transmission(DefaultCmds[2]) == Tx(0xFF, [0x77, 0x01, 0x00, 0x00, 0x13])
    ensures DefaultCmds[9].cmd == 0xB0 && |Params(DefaultCmds[9])| == 16
    ensures Transmission(DefaultCmds[39]) == Tx(CmdSleepOut, []) && DefaultCmds[39].delayMs == 120
  {
    assert ParamsAtMost(Part1Cmds, 16);
    assert ParamsAtMost(Part2Cmds, 16);
    assert ParamsAtMost(Part3Cmds, 16);
    assert ParamsAtMost(Part4Cmds, 16);
    assert ParamsAtMost(Part5Cmds, 16);
    ParamsAtMostAppend(Part1Cmds, Part2Cmds, 16);
    ParamsAtMostAppend(Part1Cmds + Part2Cmds, Part3Cmds, 16);
    ParamsAtMostAppend(Part1Cmds + Part2Cmds + Part3Cmds, Part4Cmds, 16);
    ParamsAtMostAppend(Part1Cmds + Part2Cmds + Part3Cmds + Part4Cmds, Part5Cmds, 16);
    assert DefaultCmds[2] == Part1Cmds[2] && DefaultCmds[9] == Part2Cmds[0] && DefaultCmds[39] == Part5Cmds[3];
    assert Params(DefaultCmds[2]) == [0x77, 0x01, 0x00, 0x00, 0x13];
  }

  /** A complete replay of the built-in table leaves sleep mode at record 39,
      waits 120 ms, and ends by switching the display on; both commands go
      without parameters. */
  lemma DefaultReplayEndsWithDisplayOn()
    ensures |DefaultCmds| == 45
    ensures var ev := RecordEffects(DefaultCmds);
      && ev[78..80] == [Tx(CmdSleepOut, []), Delay(120)]
      && ev[88..] == [Tx(CmdDisplayOn, []), Delay(20)]
  {
    assert |DefaultCmds| == 45;
    assert DefaultCmds[39] == Part5Cmds[3] && DefaultCmds[44] == Part5Cmds[8];
    var ev := RecordEffects(DefaultCmds);
    assert ev[78..80] == [ev[78], ev[79]];
    assert ev[88..] == [ev[88], ev[89]];
  }

  /** esp_lcd_new_panel_h040a18. */
  method New(io: Option<IoHandle>, dev: Option<DevConfig>, hasRetPanel: bool, o: FactoryOracle)
    returns (r: Status, ev: seq<Event>, panel: RgbPanel?, p: PlainPanel?)
    ensures Built(r, ev, if p == null then None else Some(p.Model())) == NewPanel(DefaultCmds, io, dev, hasRetPanel, o)
    ensures (p != null <==> r == Ok) && (panel != null <==> r == Ok)
    ensures p != null ==> fresh(p) && p.Valid() && p.vendor == VendorH040a18 && p.builtIn == DefaultCmds
    ensures panel != null ==> fresh(panel) && panel.AdaptedBy(VendorH040a18)
  {
    r, ev, panel, p := PlainPanel.New(VendorH040a18, DefaultCmds, io, dev, hasRetPanel, o);
  }
}
