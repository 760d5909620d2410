/**
 * The adapter record all three vendors share (nv3052_panel_t, h035a17_panel_t
 * and h040a18_panel_t have the same fields) and the parts of their factories
 * and lifecycle operations that are identical in the three: the error label,
 * the adapted reset and the adapted del.
 */
module AdapterOps {
  import opened LcdTypes
  import opened InitReplay

  /** The record's flag bits. */
  datatype PanelFlags = PanelFlags(mirrorByCmd: bool, enableIoMultiplex: bool, displayOnOffUseCmd: bool, resetLevel: bool)

  /** The cached set_address_mode (MADCTL) and set_pixel_format (COLMOD) values. */
  datatype Regs = Regs(madctl: Byte, colmod: Byte)

  /** The record's value apart from the saved function pointers. */
  datatype PanelState = PanelState(
    io: Option<IoHandle>,
    resetGpioNum: int,
    regs: Regs,
    initCmds: Option<seq<InitCmd>>,
    flags: PanelFlags)

  /** The record after a factory's field assignments: display on/off goes by
      command exactly when the RGB configuration has no display-enable pin. */
  function Configured(io: IoHandle, d: DevConfig, vc: VendorConfig, rgb: RgbConfig, regs: Regs): (s: PanelState)
    ensures s.flags.displayOnOffUseCmd <==> rgb.dispGpioNum < 0
    ensures s.io == Some(io) && s.resetGpioNum == d.resetGpioNum && s.regs == regs && s.initCmds == vc.initCmds
    ensures s.flags.enableIoMultiplex == vc.flags.enableIoMultiplex && s.flags.mirrorByCmd == vc.flags.mirrorByCmd
    ensures s.flags.resetLevel == d.resetActiveHigh
  {
    PanelState(Some(io), d.resetGpioNum, regs, vc.initCmds,
      PanelFlags(vc.flags.mirrorByCmd, vc.flags.enableIoMultiplex, if rgb.dispGpioNum >= 0 then false else true, d.resetActiveHigh))
  }

  /** The table a replay uses: the caller's when one was given, else the
      vendor's built-in one. The specifications take the built-in table as a
      parameter so that their proofs hold for any table; each adapter's record
      instantiates it with its own constant. */
  function Table(s: PanelState, builtIn: seq<InitCmd>): seq<InitCmd>
  {
    SelectTable(s.initCmds, builtIn)
  }

  /** The factories' argument checks, done before anything else. */
  predicate ArgsValid(io: Option<IoHandle>, dev: Option<DevConfig>, hasRetPanel: bool)
  {
    && io.Some? && dev.Some? && hasRetPanel
    && dev.value.vendorConfig.Some? && dev.value.vendorConfig.value.rgbConfig.Some?
    && !(dev.value.vendorConfig.value.flags.enableIoMultiplex && dev.value.vendorConfig.value.flags.mirrorByCmd)
  }

  /** A factory's result: status, effects, and the record when it succeeded. */
  datatype Built = Built(status: Status, events: seq<Event>, state: Option<PanelState>)

  /** The factories' error label: release the reset pin when one is
      configured, then free the record. */
  function Release(pin: int): (ev: seq<Event>)
    ensures |ev| > 0 && ev[|ev| - 1] == Free && Free !in ev[..|ev| - 1]
    ensures GpioReset(pin) in ev <==> pin >= 0
    ensures forall e :: e in ev ==> e == Free || e == GpioReset(pin)
  {
    (if pin >= 0 then [GpioReset(pin)] else []) + [Free]
  }

  /** The effects every factory starts with once the record is allocated:
      the allocation, then configuring the reset pin when there is one. */
  function Prologue(pin: int): (ev: seq<Event>)
    ensures ReleasesNothing(ev) && OnPin(ev, pin) && Sends(ev) == []
  {
    var ev := [Alloc] + (if pin >= 0 then [GpioConfig(pin)] else []);
    SendsNone(ev);
    ev
  }

  /** A factory failing after allocation with status st, effects ev so far. */
  function Abandon(st: Status, ev: seq<Event>, pin: int): Built
  {
    Built(st, ev + Release(pin), None)
  }

  /** No effect in ev frees the record or releases a pin. */
  predicate ReleasesNothing(ev: seq<Event>)
  {
    forall e :: e in ev ==> e != Free && !e.GpioReset?
  }

  /** Every GPIO effect in ev is on pin. */
  predicate OnPin(ev: seq<Event>, pin: int)
  {
    forall e :: e in ev && (e.GpioConfig? || e.GpioSet? || e.GpioReset?) ==> e.pin == pin
  }

  /** The release discipline of a factory that got as far as allocating: every
      GPIO effect is on the reset pin; a success releases nothing; a failure
      ends with exactly the release and releases nothing before it. */
  predicate ReleaseDiscipline(b: Built, pin: int)
  {
    var k := |b.events| - |Release(pin)|;
    && OnPin(b.events, pin)
    && (b.status == Ok ==> ReleasesNothing(b.events))
    && (b.status != Ok ==> k >= 0 && b.events[k..] == Release(pin) && ReleasesNothing(b.events[..k]))
  }

  /** ev is a reset pulse on pin: it first drives the pin to the active level
      and last to the inactive one, touches no other pin and releases nothing. */
  predicate PulsesPin(ev: seq<Event>, pin: int, level: bool)
  {
    && |ev| > 0 && ev[0] == GpioSet(pin, level) && ev[|ev| - 1] == GpioSet(pin, !level)
    && OnPin(ev, pin) && ReleasesNothing(ev)
  }

  /** Abandoning effects that released nothing keeps the discipline. */
  lemma AbandonKeepsDiscipline(st: Status, ev: seq<Event>, pin: int)
    requires st != Ok && ReleasesNothing(ev) && OnPin(ev, pin)
    ensures ReleaseDiscipline(Abandon(st, ev, pin), pin)
  {
    var b := Abandon(st, ev, pin);
    assert b.events[..|ev|] == ev;
  }

  /** The last step of every factory: create the generic RGB panel and, when
      that succeeds, hand out the record. */
  function CreateRgbPanel(s: PanelState, ev: seq<Event>, created: Status): (b: Built)
    ensures b.state.Some? <==> b.status == Ok
    ensures b.state.Some? ==> b.state.value == s
  {
    if created != Ok then Abandon(created, ev + [NewRgbPanel], s.resetGpioNum)
    else Built(Ok, ev + [NewRgbPanel], Some(s))
  }

  /** Creating the RGB panel after effects that released nothing keeps the
      discipline. */
  lemma CreateRgbPanelKeepsDiscipline(s: PanelState, ev: seq<Event>, created: Status)
    requires ReleasesNothing(ev) && OnPin(ev, s.resetGpioNum)
    ensures ReleaseDiscipline(CreateRgbPanel(s, ev, created), s.resetGpioNum)
  {
    var e := ev + [NewRgbPanel];
    assert forall x :: x in e ==> x in ev || x == NewRgbPanel;
    assert ReleasesNothing(e) && OnPin(e, s.resetGpioNum);
    if created != Ok {
      AbandonKeepsDiscipline(created, e, s.resetGpioNum);
    } else {
      assert CreateRgbPanel(s, ev, created) == Built(Ok, e, Some(s));
    }
  }

  /** The adapted reset of all three adapters: pulse the reset pin when there is
      one, else send soft_reset when the transport is live, then call the
      original reset; a failed soft_reset returns before the original. */
  function ResetOp(s: PanelState, tx: TxOracle, orig: Status): Outcome
  {
    var pin := s.resetGpioNum;
    var level := s.flags.resetLevel;
    if pin >= 0 then
      Outcome(orig, [GpioSet(pin, level), Delay(10), GpioSet(pin, !level), Delay(120), CallOrig(OpReset)])
    else if s.io.Some? then
      if tx(0) != Ok then Outcome(tx(0), [Tx(CmdSoftReset, [])])
      else Outcome(orig, [Tx(CmdSoftReset, []), Delay(120), CallOrig(OpReset)])
    else Outcome(orig, [CallOrig(OpReset)])
  }

  /** Reset sends at most soft_reset, only when there is no reset pin and the
      transport is live, and reaches the original reset, whose status it
      returns, unless that soft_reset failed. */
  lemma ResetReachesOriginal(s: PanelState, tx: TxOracle, orig: Status)
    ensures var o := ResetOp(s, tx, orig);
      && (CallOrig(OpReset) in o.events <==> !(s.resetGpioNum < 0 && s.io.Some? && tx(0) != Ok))
      && (CallOrig(OpReset) in o.events ==> o.status == orig && o.events[|o.events| - 1] == CallOrig(OpReset))
      && Sends(o.events) == (if s.resetGpioNum < 0 && s.io.Some? then [Tx(CmdSoftReset, [])] else [])
  {
    var o := ResetOp(s, tx, orig);
    if s.resetGpioNum >= 0 {
      SendsNone(o.events);
    } else if s.io.Some? {
      assert Sends([Tx(CmdSoftReset, [])]) == [Tx(CmdSoftReset, [])];
      if tx(0) == Ok {
        SendsAppend([Tx(CmdSoftReset, [])], [Delay(120), CallOrig(OpReset)]);
        assert [Delay(120), CallOrig(OpReset)][1..] == [CallOrig(OpReset)];
      }
    }
  }

  /** With a reset pin, reset holds the pin active for 10 ms, releases it,
      waits 120 ms and only then calls the original reset; without a pin no pin
      is driven, and without a transport either the original is all there is. */
  lemma ResetDrivesPin(s: PanelState, tx: TxOracle, orig: Status)
    ensures var o, pin := ResetOp(s, tx, orig), s.resetGpioNum;
      && OnPin(o.events, pin) && ReleasesNothing(o.events)
      && (pin >= 0 ==> |o.events| == 5 && PulsesPin(o.events[..3], pin, s.flags.resetLevel)
                       && TotalDelay(o.events[..3]) == 10 && o.events[3..] == [Delay(120), CallOrig(OpReset)])
      && (pin < 0 ==> forall e :: e in o.events ==> !e.GpioSet?)
      && (pin < 0 && s.io.None? ==> o.events == [CallOrig(OpReset)])
  {
    var o, pin, level := ResetOp(s, tx, orig), s.resetGpioNum, s.flags.resetLevel;
    if pin >= 0 {
      var p := o.events[..3];
      assert p == [GpioSet(pin, level), Delay(10), GpioSet(pin, !level)];
      assert p[1..] == [Delay(10), GpioSet(pin, !level)] && p[1..][1..] == [GpioSet(pin, !level)];
      assert TotalDelay(p[1..][1..]) == 0;
    }
  }

  /** Effects of the adapted del: release the reset pin when one is configured,
      call the original del (whose status is ignored), free the record. */
  function DelEffects(pin: int): (ev: seq<Event>)
    ensures (GpioReset(pin) in ev <==> pin >= 0) && CallOrig(OpDel) in ev && ev[|ev| - 1] == Free
    ensures Sends(ev) == []
  {
    var e := (if pin >= 0 then [GpioReset(pin)] else []) + [CallOrig(OpDel), Free];
    SendsNone(e);
    e
  }
}
