/**
 * The behaviour the H035A17 and H040A18 adapters share (lcd_h035a17.c and
 * lcd_H040A18.c are the same code over different built-in tables). Unlike the
 * NV3052C adapter they derive nothing from the colour order or pixel width:
 * the cached address mode and pixel format stay at calloc's zero and are
 * never sent, the table is replayed without override detection, the
 * multiplexed reset pulse has an extra 1 ms phase, and mirror and
 * display on/off do nothing.
 */
module PlainAdapter {
  import opened LcdTypes
  import opened InitReplay
  import opened AdapterOps

  /** The reset with which the factory brings a multiplexed panel up: the pin
      active, 1 ms, inactive, 10 ms, inactive again; or soft_reset when there is
      no reset pin. */
  function Pulse(s: PanelState): (p: seq<Event>)
    ensures Sends(p) == if s.resetGpioNum < 0 then [Tx(CmdSoftReset, [])] else []
  {
    var pin, level := s.resetGpioNum, s.flags.resetLevel;
    if pin >= 0 then
      var p := [GpioSet(pin, level), Delay(1), GpioSet(pin, !level), Delay(10), GpioSet(pin, !level)];
      SendsNone(p);
      p
    else
      var p := [Tx(CmdSoftReset, [])];
      SendsAll(p);
      p
  }

  /** With a reset pin the factory's pulse holds the pin active for only 1 ms,
      releases it, waits 10 ms and writes the inactive level again, touching
      no other pin. Without a pin only soft_reset is sent. */
  lemma PulseDrivesPin(s: PanelState)
    ensures var p, pin, level := Pulse(s), s.resetGpioNum, s.flags.resetLevel;
      && (pin >= 0 ==> PulsesPin(p, pin, level) && p[1] == Delay(1) && p[2] == GpioSet(pin, !level) && TotalDelay(p) == 11)
      && (pin < 0 ==> p == [Tx(CmdSoftReset, [])])
  {
    var p, pin, level := Pulse(s), s.resetGpioNum, s.flags.resetLevel;
    if pin >= 0 {
      var q := p[1..];
      assert q == [Delay(1), GpioSet(pin, !level), Delay(10), GpioSet(pin, !level)];
      assert q[1..] == [GpioSet(pin, !level), Delay(10), GpioSet(pin, !level)];
      assert q[1..][1..] == [Delay(10), GpioSet(pin, !level)] && q[1..][1..][1..] == [GpioSet(pin, !level)];
      assert TotalDelay(q[1..][1..][1..]) == 0;
      assert TotalDelay(q[1..][1..]) == 10;
      assert TotalDelay(q[1..]) == 10 && TotalDelay(q) == 11;
    }
  }

  /** panel_*_init: without I/O multiplexing replay the table (a failure
      returns before the original init), then the original init. */
  function InitOp(s: PanelState, builtIn: seq<InitCmd>, tx: TxOracle, orig: Status): Outcome
  {
    if !s.flags.enableIoMultiplex then
      var r := Play(Table(s, builtIn), tx, 0);
      if r.status != Ok then r
      else Outcome(orig, r.events + [CallOrig(OpInit)])
    else Outcome(orig, [CallOrig(OpInit)])
  }

  /** The original init is reached exactly when the record was multiplexed or
      every transmission of the replay succeeded; it is then the last effect,
      its status is the result, and before it come the whole table (without
      multiplexing) or nothing (with it). */
  lemma InitReachesOriginalIff(s: PanelState, builtIn: seq<InitCmd>, tx: TxOracle, orig: Status)
    ensures var i := InitOp(s, builtIn, tx, orig);
      && (CallOrig(OpInit) in i.events <==> s.flags.enableIoMultiplex || forall j :: 0 <= j < |Table(s, builtIn)| ==> tx(j) == Ok)
      && (CallOrig(OpInit) in i.events ==> i.status == orig)
      && (CallOrig(OpInit) !in i.events ==> i.status != Ok)
      && (s.flags.enableIoMultiplex ==> i.events == [CallOrig(OpInit)])
      && (!s.flags.enableIoMultiplex && CallOrig(OpInit) in i.events ==> i.events == RecordEffects(Table(s, builtIn)) + [CallOrig(OpInit)])
  {
    var t := Table(s, builtIn);
    PlaySucceedsIff(t, tx, 0);
    PlayEffects(t, tx, 0);
    if !s.flags.enableIoMultiplex && forall j :: 0 <= j < |t| ==> tx(j) == Ok {
      PlayAllSent(t, tx, 0);
    }
  }

  /** The factory's bring-up of a multiplexed record: reset (a failed soft reset
      ends it), wait 120 ms, replay the table. Its only GPIO effects are on the
      reset pin. */
  function EarlyBringUp(s: PanelState, builtIn: seq<InitCmd>, tx: TxOracle): (o: Outcome)
    ensures forall e :: e in o.events ==> e.Tx? || e.Delay? || (e.GpioSet? && e.pin == s.resetGpioNum)
  {
    if s.resetGpioNum >= 0 then
      PlayEffects(Table(s, builtIn), tx, 0);
      Preceded(Pulse(s) + [Delay(120)], Play(Table(s, builtIn), tx, 0))
    else if tx(0) != Ok then Outcome(tx(0), Pulse(s))
    else
      PlayEffects(Table(s, builtIn), tx, 1);
      Preceded(Pulse(s) + [Delay(120)], Play(Table(s, builtIn), tx, 1))
  }

  /** A successful bring-up is the reset, the 120 ms wait and the whole table
      with its delays. */
  lemma EarlyBringUpComplete(s: PanelState, builtIn: seq<InitCmd>, tx: TxOracle)
    requires EarlyBringUp(s, builtIn, tx).status == Ok
    ensures EarlyBringUp(s, builtIn, tx).events == Pulse(s) + ([Delay(120)] + RecordEffects(Table(s, builtIn)))
  {
    var n := if s.resetGpioNum >= 0 then 0 else 1;
    var t := Table(s, builtIn);
    var r := Play(t, tx, n);
    var P, W := Pulse(s), [Delay(120)];
    if s.resetGpioNum < 0 {
      assert tx(0) == Ok;
    }
    assert EarlyBringUp(s, builtIn, tx) == Preceded(P + W, r);
    PlaySucceedsIff(t, tx, n);
    PlayAllSent(t, tx, n);
    assert (P + W) + r.events == P + (W + r.events);
  }

  /** esp_lcd_new_panel_h035a17 / esp_lcd_new_panel_h040a18: argument checks,
      allocation, then the rest. */
  function NewPanel(builtIn: seq<InitCmd>, io: Option<IoHandle>, dev: Option<DevConfig>, hasRetPanel: bool, o: FactoryOracle): Built
  {
    if !ArgsValid(io, dev, hasRetPanel) then Built(InvalidArg, [], None)
    else if !o.allocOk then Built(NoMem, [], None)
    else Allocated(builtIn, io.value, dev.value, o)
  }

  /** The factory after a successful allocation: the reset pin, the record's
      fields (the cached values left at zero), then the rest. */
  function Allocated(builtIn: seq<InitCmd>, io: IoHandle, d: DevConfig, o: FactoryOracle): (b: Built)
    requires d.vendorConfig.Some? && d.vendorConfig.value.rgbConfig.Some?
    ensures b.events != [] && b.events[0] == Alloc
    ensures b.state.Some? <==> b.status == Ok
  {
    var pin := d.resetGpioNum;
    if pin >= 0 && o.gpioConfig != Ok then Abandon(o.gpioConfig, Prologue(pin), pin)
    else
      var vc := d.vendorConfig.value;
      Finish(builtIn, Configured(io, d, vc, vc.rgbConfig.value, Regs(0, 0)), o)
  }

  /** The factory once the record is filled in: bring a multiplexed record up
      (a failure abandons it), then create the RGB panel. */
  function Finish(builtIn: seq<InitCmd>, s: PanelState, o: FactoryOracle): (b: Built)
    ensures b.events != [] && b.events[0] == Alloc
    ensures b.state.Some? <==> b.status == Ok
  {
    var pin := s.resetGpioNum;
    if s.flags.enableIoMultiplex then
      var early := EarlyBringUp(s, builtIn, o.tx);
      if early.status != Ok then Abandon(early.status, Prologue(pin) + early.events, pin)
      else CreateRgbPanel(s, Prologue(pin) + early.events, o.newRgbPanel)
    else CreateRgbPanel(s, Prologue(pin), o.newRgbPanel)
  }

  /** Invalid arguments and a failed allocation are reported before any effect;
      once allocated, the record is the first effect; a record is handed out
      exactly on success. */
  lemma NewChecksBeforeEffects(builtIn: seq<InitCmd>, io: Option<IoHandle>, dev: Option<DevConfig>, hasRetPanel: bool, o: FactoryOracle)
    ensures var b := NewPanel(builtIn, io, dev, hasRetPanel, o);
      && (b.events == [] <==> !ArgsValid(io, dev, hasRetPanel) || !o.allocOk)
      && (!ArgsValid(io, dev, hasRetPanel) ==> b.status == InvalidArg)
      && (ArgsValid(io, dev, hasRetPanel) && !o.allocOk ==> b.status == NoMem)
      && (b.events != [] ==> b.events[0] == Alloc)
      && (b.state.Some? <==> b.status == Ok)
  {
  }

  /** The colour order and pixel width are not looked at: the factory behaves
      the same whatever they are, so there is no NOT_SUPPORTED path, and a
      record it hands out has both cached values zero. */
  lemma NewIgnoresPixelFormat(builtIn: seq<InitCmd>, io: Option<IoHandle>, d: DevConfig, hasRetPanel: bool, o: FactoryOracle, order: int, bpp: int)
    ensures NewPanel(builtIn, io, Some(d.(rgbEleOrder := order, bitsPerPixel := bpp)), hasRetPanel, o)
      == NewPanel(builtIn, io, Some(d), hasRetPanel, o)
    ensures NewPanel(builtIn, io, Some(d), hasRetPanel, o).state.Some? ==>
      NewPanel(builtIn, io, Some(d), hasRetPanel, o).state.value.regs == Regs(0, 0)
  {
    var b := NewPanel(builtIn, io, Some(d), hasRetPanel, o);
    if ArgsValid(io, Some(d), hasRetPanel) && o.allocOk && !(d.resetGpioNum >= 0 && o.gpioConfig != Ok) {
      var vc := d.vendorConfig.value;
      var s := Configured(io.value, d, vc, vc.rgbConfig.value, Regs(0, 0));
      assert Configured(io.value, d.(rgbEleOrder := order, bitsPerPixel := bpp), vc, vc.rgbConfig.value, Regs(0, 0)) == s;
      assert b == Finish(builtIn, s, o);
      if s.flags.enableIoMultiplex && EarlyBringUp(s, builtIn, o.tx).status == Ok {
        assert b == CreateRgbPanel(s, Prologue(s.resetGpioNum) + EarlyBringUp(s, builtIn, o.tx).events, o.newRgbPanel);
      }
    }
  }

  lemma FinishKeepsDiscipline(builtIn: seq<InitCmd>, s: PanelState, o: FactoryOracle)
    ensures ReleaseDiscipline(Finish(builtIn, s, o), s.resetGpioNum)
    ensures Finish(builtIn, s, o).state.Some? ==> Finish(builtIn, s, o).state.value == s
  {
    var pin := s.resetGpioNum;
    if s.flags.enableIoMultiplex {
      var early := EarlyBringUp(s, builtIn, o.tx);
      var ev := Prologue(pin) + early.events;
      assert ReleasesNothing(ev) && OnPin(ev, pin);
      if early.status != Ok {
        AbandonKeepsDiscipline(early.status, ev, pin);
      } else {
        CreateRgbPanelKeepsDiscipline(s, ev, o.newRgbPanel);
      }
    } else {
      CreateRgbPanelKeepsDiscipline(s, Prologue(pin), o.newRgbPanel);
    }
  }

  /** After allocation, a failing factory ends with exactly the release of the
      reset pin (when configured) and of the record, and releases nothing
      before; a successful one releases nothing and keeps the transport. Every
      GPIO effect is on the configured reset pin. */
  lemma NewReleasesOnError(builtIn: seq<InitCmd>, io: Option<IoHandle>, dev: Option<DevConfig>, hasRetPanel: bool, o: FactoryOracle)
    requires ArgsValid(io, dev, hasRetPanel) && o.allocOk
    ensures ReleaseDiscipline(NewPanel(builtIn, io, dev, hasRetPanel, o), dev.value.resetGpioNum)
    ensures NewPanel(builtIn, io, dev, hasRetPanel, o).state.Some? ==> NewPanel(builtIn, io, dev, hasRetPanel, o).state.value.io == io
  {
    var d := dev.value;
    var pin := d.resetGpioNum;
    if pin >= 0 && o.gpioConfig != Ok {
      AbandonKeepsDiscipline(o.gpioConfig, Prologue(pin), pin);
    } else {
      var vc := d.vendorConfig.value;
      FinishKeepsDiscipline(builtIn, Configured(io.value, d, vc, vc.rgbConfig.value, Regs(0, 0)), o);
    }
  }

  /** The effects of a successful multiplexed bring-up followed by the RGB
      panel's creation. */
  function BringUpEffects(s: PanelState, builtIn: seq<InitCmd>): seq<Event>
  {
    Pulse(s) + ([Delay(120)] + (RecordEffects(Table(s, builtIn)) + [NewRgbPanel]))
  }

  lemma FinishMultiplexed(builtIn: seq<InitCmd>, s: PanelState, o: FactoryOracle)
    requires s.flags.enableIoMultiplex && Finish(builtIn, s, o).state.Some?
    ensures Finish(builtIn, s, o).events == Prologue(s.resetGpioNum) + BringUpEffects(s, builtIn)
  {
    var early := EarlyBringUp(s, builtIn, o.tx);
    var pro := Prologue(s.resetGpioNum);
    assert early.status == Ok;
    assert Finish(builtIn, s, o).events == (pro + early.events) + [NewRgbPanel];
    EarlyBringUpComplete(s, builtIn, o.tx);
    AppendNested(pro, Pulse(s), [Delay(120)], RecordEffects(Table(s, builtIn)), [NewRgbPanel]);
  }

  /** With I/O multiplexing the factory itself resets the panel (pin pulse with
      its 1 ms phase, or soft reset), waits 120 ms and replays the whole table
      before it creates the RGB panel. */
  lemma NewMultiplexedInitialisesFirst(builtIn: seq<InitCmd>, io: Option<IoHandle>, dev: Option<DevConfig>, hasRetPanel: bool, o: FactoryOracle)
    requires ArgsValid(io, dev, hasRetPanel) && dev.value.vendorConfig.value.flags.enableIoMultiplex
    requires NewPanel(builtIn, io, dev, hasRetPanel, o).state.Some?
    ensures var b := NewPanel(builtIn, io, dev, hasRetPanel, o);
      var d := dev.value;
      var s := Configured(io.value, d, d.vendorConfig.value, d.vendorConfig.value.rgbConfig.value, Regs(0, 0));
      && b.events == Prologue(d.resetGpioNum) + BringUpEffects(s, builtIn)
      && b.state.value == s
  {
    var d := dev.value;
    var vc := d.vendorConfig.value;
    var s := Configured(io.value, d, vc, vc.rgbConfig.value, Regs(0, 0));
    FinishMultiplexed(builtIn, s, o);
    FinishKeepsDiscipline(builtIn, s, o);
  }

  /** What a multiplexed bring-up sends: a soft reset when there is no reset
      pin, then each record of the table once, in order; never the cached
      values. */
  lemma BringUpSends(s: PanelState, builtIn: seq<InitCmd>)
    ensures Sends(BringUpEffects(s, builtIn))
      == (if s.resetGpioNum < 0 then [Tx(CmdSoftReset, [])] else []) + Transmissions(Table(s, builtIn))
  {
    var P := Pulse(s);
    var W := [Delay(120)];
    var R := RecordEffects(Table(s, builtIn));
    var N := [NewRgbPanel];
    var X := if s.resetGpioNum < 0 then [Tx(CmdSoftReset, [])] else [];
    var T := Transmissions(Table(s, builtIn));
    SendsNone(W);
    SendsNone(N);
    RecordEffectsSendEachOnce(Table(s, builtIn));
    SendsAppend(R, N);
    assert Sends(R + N) == T;
    SendsAppend(W, R + N);
    assert Sends(W + (R + N)) == T;
    SendsAppend(P, W + (R + N));
    assert BringUpEffects(s, builtIn) == P + (W + (R + N));
    assert Sends(BringUpEffects(s, builtIn)) == X + T;
  }

  /** Across creation and init the table is sent exactly once and nothing else
      but the multiplexed soft reset is: by the factory when multiplexed and by
      init otherwise. Holds for every run in which init reaches the original
      init. */
  lemma TableSentExactlyOnce(builtIn: seq<InitCmd>, io: Option<IoHandle>, dev: Option<DevConfig>, o: FactoryOracle, tx: TxOracle, orig: Status)
    requires ArgsValid(io, dev, true)
    requires NewPanel(builtIn, io, dev, true, o).state.Some?
    requires CallOrig(OpInit) in InitOp(NewPanel(builtIn, io, dev, true, o).state.value, builtIn, tx, orig).events
    ensures var b := NewPanel(builtIn, io, dev, true, o);
      var i := InitOp(b.state.value, builtIn, tx, orig);
      var d := dev.value;
      var mux := d.vendorConfig.value.flags.enableIoMultiplex;
      && Sends(b.events + i.events)
           == (if mux && d.resetGpioNum < 0 then [Tx(CmdSoftReset, [])] else []) + Transmissions(Table(b.state.value, builtIn))
      && (mux ==> Sends(i.events) == [])
      && (!mux ==> Sends(b.events) == [])
  {
    var b := NewPanel(builtIn, io, dev, true, o);
    var i := InitOp(b.state.value, builtIn, tx, orig);
    SendsAppend(b.events, i.events);
    if dev.value.vendorConfig.value.flags.enableIoMultiplex {
      SentByFactory(builtIn, io, dev, o, tx, orig);
    } else {
      SentByInit(builtIn, io, dev, o, tx, orig);
    }
  }

  lemma SentByFactory(builtIn: seq<InitCmd>, io: Option<IoHandle>, dev: Option<DevConfig>, o: FactoryOracle, tx: TxOracle, orig: Status)
    requires ArgsValid(io, dev, true) && dev.value.vendorConfig.value.flags.enableIoMultiplex
    requires NewPanel(builtIn, io, dev, true, o).state.Some?
    ensures var b := NewPanel(builtIn, io, dev, true, o);
      && Sends(b.events) == (if dev.value.resetGpioNum < 0 then [Tx(CmdSoftReset, [])] else []) + Transmissions(Table(b.state.value, builtIn))
      && Sends(InitOp(b.state.value, builtIn, tx, orig).events) == []
  {
    var d := dev.value;
    var vc := d.vendorConfig.value;
    var s := Configured(io.value, d, vc, vc.rgbConfig.value, Regs(0, 0));
    NewMultiplexedInitialisesFirst(builtIn, io, dev, true, o);
    var b := NewPanel(builtIn, io, dev, true, o);
    assert b.state.value == s && s.flags.enableIoMultiplex;
    assert InitOp(s, builtIn, tx, orig).events == [CallOrig(OpInit)];
    SendsNone([CallOrig(OpInit)]);
    SendsAppend(Prologue(d.resetGpioNum), BringUpEffects(s, builtIn));
    BringUpSends(s, builtIn);
  }

  lemma SentByInit(builtIn: seq<InitCmd>, io: Option<IoHandle>, dev: Option<DevConfig>, o: FactoryOracle, tx: TxOracle, orig: Status)
    requires ArgsValid(io, dev, true) && !dev.value.vendorConfig.value.flags.enableIoMultiplex
    requires NewPanel(builtIn, io, dev, true, o).state.Some?
    requires CallOrig(OpInit) in InitOp(NewPanel(builtIn, io, dev, true, o).state.value, builtIn, tx, orig).events
    ensures var b := NewPanel(builtIn, io, dev, true, o);
      && Sends(b.events) == []
      && Sends(InitOp(b.state.value, builtIn, tx, orig).events) == Transmissions(Table(b.state.value, builtIn))
  {
    var d := dev.value;
    var vc := d.vendorConfig.value;
    var s := Configured(io.value, d, vc, vc.rgbConfig.value, Regs(0, 0));
    var b := NewPanel(builtIn, io, dev, true, o);
    assert b == Finish(builtIn, s, o);
    FinishKeepsDiscipline(builtIn, s, o);
    var pin := d.resetGpioNum;
    assert b.events == Prologue(pin) + [NewRgbPanel];
    SendsAppend(Prologue(pin), [NewRgbPanel]);
    SendsNone([NewRgbPanel]);
    var t := Table(s, builtIn);
    InitReachesOriginalIff(s, builtIn, tx, orig);
    SendsAppend(RecordEffects(t), [CallOrig(OpInit)]);
    SendsNone([CallOrig(OpInit)]);
    RecordEffectsSendEachOnce(t);
  }

  /** The adapter record of lcd_h035a17.c and lcd_H040A18.c (h035a17_panel_t,
      h040a18_panel_t), with the vendor it belongs to and that vendor's
      built-in table. */
  class PlainPanel {
    const vendor: Vendor
    const builtIn: seq<InitCmd>
    var io: Option<IoHandle>
    var resetGpioNum: int
    var madctl: Byte
    var colmod: Byte
    var initCmds: Option<seq<InitCmd>>
    var mirrorByCmd: bool
    var enableIoMultiplex: bool
    var displayOnOffUseCmd: bool
    var resetLevel: bool
    var origInit: Handler
    var origDel: Handler
    var origReset: Handler
    var origMirror: Handler
    var origDispOnOff: Handler
    /** Allocated and not yet freed by del. */
    var live: bool

    function Model(): PanelState
      reads this
    {
      PanelState(io, resetGpioNum, Regs(madctl, colmod), initCmds,
        PanelFlags(mirrorByCmd, enableIoMultiplex, displayOnOffUseCmd, resetLevel))
    }

    /** A record handed out by the factory: live, the cached values never
        written since calloc, every saved operation the generic RGB panel's
        own. */
    ghost predicate Valid()
      reads this
    {
      && live
      && madctl == 0 && colmod == 0
      && origInit == Original(OpInit) && origDel == Original(OpDel) && origReset == Original(OpReset)
      && origMirror == Original(OpMirror) && origDispOnOff == Original(OpDispOnOff)
    }

    /** calloc: every field zero. */
    constructor Zeroed(vendor: Vendor, builtIn: seq<InitCmd>)
      ensures this.vendor == vendor && this.builtIn == builtIn
      ensures Model() == PanelState(None, 0, Regs(0, 0), None, PanelFlags(false, false, false, false))
      ensures origInit == Unset && origDel == Unset && origReset == Unset && origMirror == Unset && origDispOnOff == Unset
      ensures live
    {
      this.vendor, this.builtIn := vendor, builtIn;
      io, resetGpioNum, madctl, colmod, initCmds := None, 0, 0, 0, None;
      mirrorByCmd, enableIoMultiplex, displayOnOffUseCmd, resetLevel := false, false, false, false;
      origInit, origDel, origReset, origMirror, origDispOnOff := Unset, Unset, Unset, Unset, Unset;
      live := true;
    }

    /** panel_*_send_init_cmds: replay the caller's table or the built-in one,
        its first transmission being the n-th of the enclosing call. */
    method SendInitCmds(tx: TxOracle, n: nat) returns (r: Status, ev: seq<Event>)
      ensures Outcome(r, ev) == Play(Table(Model(), builtIn), tx, n)
    {
      var cmds := if initCmds.Some? then initCmds.value else builtIn;
      r, ev := Replay(cmds, tx, n);
    }

    /** panel_*_init. */
    method Init(tx: TxOracle, orig: Status) returns (r: Status, ev: seq<Event>)
      requires Valid()
      ensures Outcome(r, ev) == InitOp(Model(), builtIn, tx, orig)
    {
      ev := [];
      if !enableIoMultiplex {
        r, ev := SendInitCmds(tx, 0);
        if r != Ok { return; }
      }
      ev := ev + [CallOrig(origInit.op)];
      r := orig;
    }

    /** panel_*_del: the original del's status is ignored. */
    method Del(orig: Status) returns (r: Status, ev: seq<Event>)
      requires Valid()
      modifies this`live
      ensures !live && r == Ok && ev == DelEffects(resetGpioNum)
    {
      ev := [];
      if resetGpioNum >= 0 {
        ev := ev + [GpioReset(resetGpioNum)];
      }
      ev := ev + [CallOrig(origDel.op), Free];
      live := false;
      r := Ok;
    }

    /** panel_h035a17_reset and panel_h040a18_reset. The vendors' reset is the
        same code as the NV3052C one, so both classes delegate to the shared
        ResetOp; each keeps its own method because each installs its own reset
        in the panel. */
    method Reset(tx: TxOracle, orig: Status) returns (r: Status, ev: seq<Event>)
      requires Valid()
      ensures Outcome(r, ev) == ResetOp(Model(), tx, orig)
    {
      ev := [];
      if resetGpioNum >= 0 {
        ev := [GpioSet(resetGpioNum, resetLevel), Delay(10), GpioSet(resetGpioNum, !resetLevel), Delay(120)];
      } else if io.Some? {
        ev := [Tx(CmdSoftReset, [])];
        r := tx(0);
        if r != Ok { return; }
        ev := ev + [Delay(120)];
      }
      ev := ev + [CallOrig(origReset.op)];
      r := orig;
    }

    /** panel_*_mirror: succeeds without any effect, whatever mirror_by_cmd
        says; neither the panel nor the generic RGB panel is mirrored. */
    method Mirror(mirrorX: bool, mirrorY: bool) returns (r: Status, ev: seq<Event>)
      requires Valid()
      ensures r == Ok && ev == []
    {
      r, ev := Ok, [];
    }

    /** panel_*_disp_on_off: succeeds without any effect, whatever
        display_on_off_use_cmd says. */
    method DispOnOff(on: bool) returns (r: Status, ev: seq<Event>)
      requires Valid()
      ensures r == Ok && ev == []
    {
      r, ev := Ok, [];
    }

    /** The factory's record set-up: the configuration is copied in; the colour
        order and pixel width are not looked at and the cached values keep
        calloc's zero. */
    method Configure(io: IoHandle, d: DevConfig, vc: VendorConfig, rgb: RgbConfig)
      requires madctl == 0 && colmod == 0
      modifies this`io, this`resetGpioNum, this`initCmds
      modifies this`mirrorByCmd, this`enableIoMultiplex, this`displayOnOffUseCmd, this`resetLevel
      ensures Model() == Configured(io, d, vc, rgb, Regs(0, 0))
    {
      this.io := Some(io);
      initCmds := vc.initCmds;
      resetGpioNum := d.resetGpioNum;
      mirrorByCmd := vc.flags.mirrorByCmd;
      displayOnOffUseCmd := if rgb.dispGpioNum >= 0 then false else true;
      enableIoMultiplex := vc.flags.enableIoMultiplex;
      resetLevel := d.resetActiveHigh;
    }

    /** The factory's bring-up of a multiplexed record: reset, wait, send the
        table before the RGB panel exists. */
    method BringUp(tx: TxOracle) returns (r: Status, ev: seq<Event>)
      ensures Outcome(r, ev) == EarlyBringUp(Model(), builtIn, tx)
    {
      var n := 0;
      if resetGpioNum >= 0 {
        ev := [GpioSet(resetGpioNum, resetLevel), Delay(1), GpioSet(resetGpioNum, !resetLevel), Delay(10), GpioSet(resetGpioNum, !resetLevel)];
      } else {
        ev := [Tx(CmdSoftReset, [])];
        r := tx(0);
        if r != Ok {
          return;
        }
        n := 1;
      }
      ev := ev + [Delay(120)];
      var sent;
      r, sent := SendInitCmds(tx, n);
      ev := ev + sent;
    }

    /** Save the RGB panel's five operations in the record, then overwrite them
        with this adapter's. */
    method Adapt(rgb: RgbPanel)
      modifies this`origInit, this`origDel, this`origReset, this`origMirror, this`origDispOnOff, rgb
      ensures origInit == old(rgb.initFn) && origDel == old(rgb.delFn) && origReset == old(rgb.resetFn)
      ensures origMirror == old(rgb.mirrorFn) && origDispOnOff == old(rgb.dispOnOffFn)
      ensures rgb.AdaptedBy(vendor)
    {
      origInit, origDel, origReset, origMirror, origDispOnOff :=
        rgb.initFn, rgb.delFn, rgb.resetFn, rgb.mirrorFn, rgb.dispOnOffFn;
      rgb.initFn := Adapted(vendor, OpInit);
      rgb.delFn := Adapted(vendor, OpDel);
      rgb.resetFn := Adapted(vendor, OpReset);
      rgb.mirrorFn := Adapted(vendor, OpMirror);
      rgb.dispOnOffFn := Adapted(vendor, OpDispOnOff);
    }

    /** esp_lcd_new_panel_h035a17 / esp_lcd_new_panel_h040a18 for the given
        vendor and built-in table: on success a fresh live record and a fresh
        RGB panel whose five operations are the vendor's, the originals saved
        in the record. */
    static method New(vendor: Vendor, builtIn: seq<InitCmd>, io: Option<IoHandle>, dev: Option<DevConfig>, hasRetPanel: bool, o: FactoryOracle)
      returns (r: Status, ev: seq<Event>, panel: RgbPanel?, p: PlainPanel?)
      ensures Built(r, ev, if p == null then None else Some(p.Model())) == NewPanel(builtIn, io, dev, hasRetPanel, o)
      ensures (p != null <==> r == Ok) && (panel != null <==> r == Ok)
      ensures p != null ==> fresh(p) && p.Valid() && p.vendor == vendor && p.builtIn == builtIn
      ensures panel != null ==> fresh(panel) && panel.AdaptedBy(vendor)
    {
      panel, p := null, null;
      ev := [];
      if io.None? || dev.None? || !hasRetPanel {
        return InvalidArg, ev, panel, p;
      }
      var d := dev.value;
      if d.vendorConfig.None? || d.vendorConfig.value.rgbConfig.None? {
        return InvalidArg, ev, panel, p;
      }
      var vc := d.vendorConfig.value;
      if vc.flags.enableIoMultiplex && vc.flags.mirrorByCmd {
        return InvalidArg, ev, panel, p;
      }
      if !o.allocOk {
        return NoMem, ev, panel, p;
      }
      ghost var spec := Allocated(builtIn, io.value, d, o);
      assert NewPanel(builtIn, io, dev, hasRetPanel, o) == spec;
      var q := new PlainPanel.Zeroed(vendor, builtIn);
      ev := [Alloc];
      var pin := d.resetGpioNum;
      if pin >= 0 {
        ev := ev + [GpioConfig(pin)];
        if o.gpioConfig != Ok {
          return o.gpioConfig, ev + Release(pin), panel, p;
        }
      }
      assert ev == Prologue(pin);
      q.Configure(io.value, d, vc, vc.rgbConfig.value);
      assert spec == Finish(builtIn, q.Model(), o);
      r, ev, panel, p := Complete(q, o, ev);
    }

    /** The factory after the record is filled in: the multiplexed bring-up,
        the RGB panel's creation, the takeover of its operations; any failure
        releases the reset pin and frees the record. */
    static method Complete(q: PlainPanel, o: FactoryOracle, ev0: seq<Event>)
      returns (r: Status, ev: seq<Event>, panel: RgbPanel?, p: PlainPanel?)
      requires ev0 == Prologue(q.resetGpioNum) && q.live && q.madctl == 0 && q.colmod == 0
      modifies q
      ensures Built(r, ev, if p == null then None else Some(p.Model())) == Finish(q.builtIn, old(q.Model()), o)
      ensures (p != null <==> r == Ok) && (panel != null <==> r == Ok)
      ensures p != null ==> p == q && p.Valid()
      ensures panel != null ==> fresh(panel) && panel.AdaptedBy(q.vendor)
    {
      panel, p := null, null;
      ev := ev0;
      var pin := q.resetGpioNum;
      ghost var spec := Finish(q.builtIn, q.Model(), o);
      if q.enableIoMultiplex {
        var early;
        r, early := q.BringUp(o.tx);
        ev := ev + early;
        if r != Ok {
          assert spec == Abandon(r, ev, pin);
          return r, ev + Release(pin), panel, p;
        }
      }
      assert spec == CreateRgbPanel(q.Model(), ev, o.newRgbPanel);
      r, ev, panel, p := CreatePanel(q, o.newRgbPanel, ev);
    }

    /** esp_lcd_new_rgb_panel with answer created, then the takeover of the
        new panel's operations; a failure releases the reset pin and frees the
        record. */
    static method CreatePanel(q: PlainPanel, created: Status, ev0: seq<Event>)
      returns (r: Status, ev: seq<Event>, panel: RgbPanel?, p: PlainPanel?)
      requires q.live && q.madctl == 0 && q.colmod == 0
      modifies q`origInit, q`origDel, q`origReset, q`origMirror, q`origDispOnOff
      ensures Built(r, ev, if p == null then None else Some(p.Model())) == CreateRgbPanel(old(q.Model()), ev0, created)
      ensures (p != null <==> r == Ok) && (panel != null <==> r == Ok)
      ensures p != null ==> p == q && p.Valid()
      ensures panel != null ==> fresh(panel) && panel.AdaptedBy(q.vendor)
    {
      panel, p := null, null;
      ev := ev0 + [NewRgbPanel];
      if created != Ok {
        return created, ev + Release(q.resetGpioNum), panel, p;
      }
      var rgb := new RgbPanel();
      q.Adapt(rgb);
      r, panel, p := Ok, rgb, q;
    }
  }
}
