/**
 * The command-table replay engine shared by the three adapters: pick the
 * caller's table or the built-in one, then for each record in order transmit
 * the command with its parameters and wait its delay; the first transmission
 * that fails ends the replay with that status.
 */
module InitReplay {
  import opened LcdTypes

  /** The transmission one record produces. */
  function Transmission(c: InitCmd): Event
  {
    Tx(c.cmd, Params(c))
  }

  /** The caller's table when its pointer is non-null, else the built-in one. */
  function SelectTable(table: Option<seq<InitCmd>>, builtIn: seq<InitCmd>): seq<InitCmd>
  {
    if table.Some? then table.value else builtIn
  }

  /** Effects of a replay in which every transmission succeeds: each record's
      transmission immediately followed by its delay. */
  function RecordEffects(cmds: seq<InitCmd>): (ev: seq<Event>)
    ensures |ev| == 2 * |cmds|
    ensures forall i :: 0 <= i < |cmds| ==> ev[2 * i] == Transmission(cmds[i]) && ev[2 * i + 1] == Delay(cmds[i].delayMs)
  {
    if cmds == [] then []
    else
      var rest := RecordEffects(cmds[1..]);
      assert forall i :: 1 <= i < |cmds| ==> cmds[1..][i - 1] == cmds[i];
      [Transmission(cmds[0]), Delay(cmds[0].delayMs)] + rest
  }

  lemma {:induction false} RecordEffectsAppend(a: seq<InitCmd>, b: seq<InitCmd>)
    ensures RecordEffects(a + b) == RecordEffects(a) + RecordEffects(b)
  {
    if a == [] {
      assert a + b == b;
    } else {
      assert (a + b)[1..] == a[1..] + b;
      RecordEffectsAppend(a[1..], b);
    }
  }

  /** The replay loop: record j of cmds is the (n + j)-th transmission of the
      enclosing call. */
  function Play(cmds: seq<InitCmd>, tx: TxOracle, n: nat): Outcome
    decreases |cmds|
  {
    if cmds == [] then Outcome(Ok, [])
    else if tx(n) != Ok then Outcome(tx(n), [Transmission(cmds[0])])
    else
      var rest := Play(cmds[1..], tx, n + 1);
      Outcome(rest.status, [Transmission(cmds[0]), Delay(cmds[0].delayMs)] + rest.events)
  }

  /** A replay produces at most a transmission and a delay per record, and
      nothing but transmissions and delays. */
  lemma {:induction false} PlayEffects(cmds: seq<InitCmd>, tx: TxOracle, n: nat)
    ensures var o := Play(cmds, tx, n);
      |o.events| <= 2 * |cmds| && forall e :: e in o.events ==> e.Tx? || e.Delay?
    decreases |cmds|
  {
    if cmds != [] && tx(n) == Ok {
      PlayEffects(cmds[1..], tx, n + 1);
    }
  }

  /** Effects ev happened before o's. */
  function Preceded(ev: seq<Event>, o: Outcome): Outcome
  {
    o.(events := ev + o.events)
  }

  lemma PrecededPreceded(a: seq<Event>, b: seq<Event>, o: Outcome)
    ensures Preceded(a, Preceded(b, o)) == Preceded(a + b, o)
  {
    assert a + (b + o.events) == (a + b) + o.events;
  }

  /** Appending after a right-nested concatenation. */
  lemma AppendNested(a: seq<Event>, b: seq<Event>, c: seq<Event>, d: seq<Event>, e: seq<Event>)
    ensures (a + (b + (c + d))) + e == a + (b + (c + (d + e)))
  {
    assert (a + (b + (c + d))) + e == a + ((b + (c + d)) + e);
    assert (b + (c + d)) + e == b + ((c + d) + e);
    assert (c + d) + e == c + (d + e);
  }

  /** One iteration of the replay loop whose transmission (the (m + i)-th)
      fails: after effects done, record i is attempted and the replay ends. */
  lemma PlayFails(cmds: seq<InitCmd>, i: nat, tx: TxOracle, m: nat, done: seq<Event>, ev: seq<Event>)
    requires i < |cmds| && tx(m + i) != Ok && ev == done + [Transmission(cmds[i])]
    ensures Preceded(done, Play(cmds[i..], tx, m + i)) == Outcome(tx(m + i), ev)
  {
    assert cmds[i..][0] == cmds[i];
  }

  /** One iteration of the replay loop whose transmission succeeds: record i
      and its delay join the effects done, and the replay goes on. */
  lemma PlaySends(cmds: seq<InitCmd>, i: nat, tx: TxOracle, m: nat, done: seq<Event>, ev: seq<Event>)
    requires i < |cmds| && tx(m + i) == Ok && ev == done + [Transmission(cmds[i]), Delay(cmds[i].delayMs)]
    ensures Preceded(done, Play(cmds[i..], tx, m + i)) == Preceded(ev, Play(cmds[i + 1..], tx, m + (i + 1)))
  {
    var c := cmds[i];
    assert cmds[i..][0] == c && cmds[i..][1..] == cmds[i + 1..];
    PrecededPreceded(done, [Transmission(c), Delay(c.delayMs)], Play(cmds[i + 1..], tx, m + (i + 1)));
  }

  /** The replay loop of panel_*_send_init_cmds, record i being the
      (n + i)-th transmission: transmit, stop at the first failure, else wait
      the record's delay. */
  method Replay(cmds: seq<InitCmd>, tx: TxOracle, n: nat) returns (r: Status, ev: seq<Event>)
    ensures Outcome(r, ev) == Play(cmds, tx, n)
  {
    ghost var whole := Play(cmds, tx, n);
    assert cmds[0..] == cmds;
    r, ev := Ok, [];
    var i := 0;
    while i < |cmds|
      invariant 0 <= i <= |cmds| && r == Ok
      invariant whole == Preceded(ev, Play(cmds[i..], tx, n + i))
    {
      var c := cmds[i];
      ghost var done := ev;
      ev := ev + [Tx(c.cmd, c.data[..c.dataBytes])];
      r := tx(n + i);
      if r != Ok {
        PlayFails(cmds, i, tx, n, done, ev);
        return;
      }
      ev := ev + [Delay(c.delayMs)];
      PlaySends(cmds, i, tx, n, done, ev);
      i := i + 1;
    }
    assert cmds[i..] == [] && ev + [] == ev;
  }

  /** When every transmission succeeds, the replay succeeds and its effects are
      every record, in table order, each followed by its delay. */
  lemma {:induction false} PlayAllSent(cmds: seq<InitCmd>, tx: TxOracle, n: nat)
    requires forall j :: n <= j < n + |cmds| ==> tx(j) == Ok
    ensures Play(cmds, tx, n) == Outcome(Ok, RecordEffects(cmds))
    decreases |cmds|
  {
    if cmds != [] {
      assert tx(n) == Ok;
      PlayAllSent(cmds[1..], tx, n + 1);
    }
  }

  /** The first failing transmission (record k) ends the replay: records before
      it were sent with their delays, record k was attempted, nothing after it
      is sent, and the replay returns that transmission's status. */
  lemma {:induction false} PlayStopsAtFirstFailure(cmds: seq<InitCmd>, tx: TxOracle, n: nat, k: nat)
    requires k < |cmds|
    requires forall j :: n <= j < n + k ==> tx(j) == Ok
    requires tx(n + k) != Ok
    ensures Play(cmds, tx, n) == Outcome(tx(n + k), RecordEffects(cmds[..k]) + [Transmission(cmds[k])])
    decreases k
  {
    if k > 0 {
      assert tx(n) == Ok;
      PlayStopsAtFirstFailure(cmds[1..], tx, n + 1, k - 1);
      assert cmds[..k][1..] == cmds[1..][..k - 1];
    }
  }

  /** A replay succeeds exactly when all of its transmissions succeed. */
  lemma {:induction false} PlaySucceedsIff(cmds: seq<InitCmd>, tx: TxOracle, n: nat)
    ensures Play(cmds, tx, n).status == Ok <==> forall j :: n <= j < n + |cmds| ==> tx(j) == Ok
    decreases |cmds|
  {
    if cmds != [] {
      PlaySucceedsIff(cmds[1..], tx, n + 1);
    }
  }

  /** The transmissions among a sequence of effects, in order. */
  function Sends(ev: seq<Event>): (s: seq<Event>)
    ensures |s| <= |ev|
    ensures forall e :: e in s ==> e.Tx? && e in ev
  {
    if ev == [] then [] else (if ev[0].Tx? then [ev[0]] else []) + Sends(ev[1..])
  }

  lemma {:induction false} SendsAppend(a: seq<Event>, b: seq<Event>)
    ensures Sends(a + b) == Sends(a) + Sends(b)
  {
    if a == [] {
      assert a + b == b;
    } else {
      assert (a + b)[1..] == a[1..] + b;
      SendsAppend(a[1..], b);
    }
  }

  /** Effects without a transmission send nothing. */
  lemma {:induction false} SendsNone(ev: seq<Event>)
    requires forall e :: e in ev ==> !e.Tx?
    ensures Sends(ev) == []
  {
    if ev != [] {
      SendsNone(ev[1..]);
    }
  }

  /** Effects made only of transmissions are all sent. */
  lemma {:induction false} SendsAll(ev: seq<Event>)
    requires forall e :: e in ev ==> e.Tx?
    ensures Sends(ev) == ev
  {
    if ev != [] {
      SendsAll(ev[1..]);
      assert ev == [ev[0]] + ev[1..];
    }
  }

  /** The transmissions a table calls for, one per record, in table order. */
  function Transmissions(cmds: seq<InitCmd>): seq<Event>
  {
    if cmds == [] then [] else [Transmission(cmds[0])] + Transmissions(cmds[1..])
  }

  /** A complete replay sends every record exactly once, in table order, and
      nothing else. */
  lemma {:induction false} RecordEffectsSendEachOnce(cmds: seq<InitCmd>)
    ensures Sends(RecordEffects(cmds)) == Transmissions(cmds)
  {
    if cmds != [] {
      var c := cmds[0];
      RecordEffectsSendEachOnce(cmds[1..]);
      SendsAppend([Transmission(c), Delay(c.delayMs)], RecordEffects(cmds[1..]));
      assert [Transmission(c), Delay(c.delayMs)][1..] == [Delay(c.delayMs)];
      assert Sends([Delay(c.delayMs)]) == [];
    }
  }

  /** Sum of the delays among a sequence of effects. */
  function TotalDelay(ev: seq<Event>): nat
  {
    if ev == [] then 0 else (if ev[0].Delay? then ev[0].ms else 0) + TotalDelay(ev[1..])
  }

  /** Sum of the delays a table asks for. */
  function SumDelays(cmds: seq<InitCmd>): nat
  {
    if cmds == [] then 0 else cmds[0].delayMs + SumDelays(cmds[1..])
  }

  /** A complete replay waits exactly the table's total delay. */
  lemma {:induction false} RecordEffectsDelay(cmds: seq<InitCmd>)
    ensures TotalDelay(RecordEffects(cmds)) == SumDelays(cmds)
  {
    if cmds != [] {
      var c := cmds[0];
      var rest := RecordEffects(cmds[1..]);
      RecordEffectsDelay(cmds[1..]);
      assert ([Transmission(c), Delay(c.delayMs)] + rest)[1..] == [Delay(c.delayMs)] + rest;
      assert ([Delay(c.delayMs)] + rest)[1..] == rest;
    }
  }
}
