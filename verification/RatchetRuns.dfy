/** Runs of two Double Ratchet parties in which something goes wrong. */
module RatchetRuns {
  import opened Common
  import opened Ratchet
  import opened RatchetDelivery
  import opened RatchetInvariants
  import opened RatchetOnce
  import opened RatchetTheorems

  /** A run grows by an event. */
  lemma RunGrows(ys: seq<System>, es: seq<Event>, e: Event) returns (ys': seq<System>, es': seq<Event>)
    requires IsRun(ys, es) && |ys| == |es| + 1 && Possible(ys[|es|], e)
    requires PartyOf(ys[|es|], e.alice).epoch < |ys[|es|].net.sent|
    ensures IsRun(ys', es') && |ys'| == |es'| + 1 && ys'[|es'|] == Step(ys[|es|], e) && es' == es + [e]
            && ys' == ys + [ys'[|es'|]]
  {
    hide Step;
    ys', es' := ys + [Step(ys[|es|], e)], es + [e];
  }

  // ----- Steps -------------------------------------------------------------

  lemma CanSend(net: Net, p: Party)
    requires PartyOk(net, p) && p.epoch >= 1
    ensures p.state.haveCks
  {
    hide CacheOk, OpenedOk;
  }

  /** A party that can send adds a message to its chain. */
  lemma SendStep(y: System, alice: bool) returns (y': System)
    requires Inv(y) && PartyOf(y, alice).epoch >= 1
    ensures PartyOf(y, alice).epoch < |y.net.sent| && y' == Step(y, Send(alice, [], [])) && Inv(y')
    ensures var j := PartyOf(y, alice).epoch;
            && y'.net == y.net.(sent := y.net.sent[j := y.net.sent[j] + [Sent([], [])]], wire := y'.net.wire)
            && PartyOf(y', alice) == PartyOf(y, alice).(state := PartyOf(y', alice).state)
            && PartyOf(y', alice).state.nr == PartyOf(y, alice).state.nr
            && PartyOf(y', !alice) == PartyOf(y, !alice)
  {
    hide Inv, PartyOk;
    StepKeeps(y, Send(alice, [], []));
    InvParty(y, alice);
    CanSend(y.net, PartyOf(y, alice));
    y' := Step(y, Send(alice, [], []));
  }

  lemma FirstOpens(net: Net, p: Party, next: DhKey)
    requires Shape(net) && PartyOk(net, p) && IsSent(net, p.epoch + 1, 0)
    requires Previous(net, p.epoch + 1) <= p.state.nr + MAX_SKIP
    ensures Openable(net, p, p.epoch + 1, 0) && After(net, p, p.epoch + 1, 0, next).nr == 1
  {
    NothingAhead(net, p);
    hide Skip, SkipTo, Iter, Base, Root;
  }

  /** The next chain may start with its message 0. */
  ghost predicate CanStart(y: System, e: Event) {
    && e.Deliver? && e == Deliver(e.alice, PartyOf(y, e.alice).epoch + 1, 0, [], e.next, true) && IsNew(y.net, e.next)
    && IsSent(y.net, e.k, 0) && y.net.sent[e.k][0].aad == []
    && Previous(y.net, e.k) <= PartyOf(y, e.alice).state.nr + MAX_SKIP
  }

  lemma IsPossible(y: System, e: Event)
    requires Inv(y) && e.Deliver? && IsSent(y.net, e.k, e.n) && Incoming(PartyOf(y, e.alice), e.k)
             && IsNew(y.net, e.next)
    ensures Possible(y, e) && PartyOf(y, e.alice).epoch < |y.net.sent|
  {
    assert KeysOk(y.net, PartyOf(y, e.alice));
    hide PartyOk, Shape, MessageFor, KeysOk;
    assert Id(e.k, e.n) in y.net.wire;
  }

  /** The first message of a chain not seen before brings its receiver two epochs on. */
  lemma FirstOfChain(y: System, e: Event) returns (y': System)
    requires Inv(y) && CanStart(y, e)
    ensures Possible(y, e) && PartyOf(y, e.alice).epoch < |y.net.sent| && y' == Step(y, e) && Inv(y')
    ensures PartyOf(y', e.alice).epoch == PartyOf(y, e.alice).epoch + 2 && PartyOf(y', e.alice).state.nr == 1
    ensures PartyOf(y', !e.alice) == PartyOf(y, !e.alice) && y'.net == Extended(Read(y.net, e.k, 0), e.next)
  {
    hide Inv, Step, After, Openable, PartyOk, Shape;
    var p := PartyOf(y, e.alice);
    IsPossible(y, e);
    StepKeeps(y, e);
    DeliverIs(y, e);
    InvParty(y, e.alice);
    FirstOpens(y.net, p, e.next);
    y' := Step(y, e);
  }

  // ----- Deliveries without a rollback -------------------------------------

  /** Two messages are sent; the first is read, comes again without a rollback, and then the second does not open. */
  lemma DuplicateRun(id: nat, b: DhKey, a: DhKey, c: DhKey, d: DhKey) returns (ys: seq<System>, es: seq<Event>)
    requires b != a && c !in {a, b} && d !in {a, b, c} && LOW_ORDER !in {a, b, c, d}
    ensures IsRun(ys, es) && |ys| == 6 && |es| == 5
    ensures es[3] == Deliver(false, 1, 0, [], d, false) && es[4] == Deliver(false, 1, 1, [], d, true)
    ensures IsSent(ys[3].net, 1, 1) && Openable(ys[3].net, ys[3].bob, 1, 1) && !Opens(ys[4], es[4])
  {
    hide Inv, Step, Result;
    ys, es := ManySends(id, b, a, 2);
    RunKeeps(ys, es, 2);
    var y := ys[2];
    SentMessages(y, 2);
    var y1 := FirstOfChain(y, Deliver(false, 1, 0, [], c, true));
    ys, es := RunGrows(ys, es, Deliver(false, 1, 0, [], c, true));
    var e, e' := Deliver(false, 1, 0, [], d, false), Deliver(false, 1, 1, [], d, true);
    var y2 := DuplicateStep(y1, e, e');
    ys, es := RunGrows(ys, es, e);
    ys, es := RunGrows(ys, es, e');
  }

  /** What was sent on Alice's first chain is there to be delivered. */
  lemma SentMessages(y: System, n: nat)
    requires Inv(y) && y.net.keys != [] && |y.net.keys| == 2 && |y.net.sent| == 2
             && y.net.sent[1] == seq(n, _ => Sent([], []))
    ensures forall i: nat | i < n :: IsSent(y.net, 1, i) && y.net.sent[1][i].aad == []
  {
  }

  lemma DuplicateStep(y: System, e: Event, e': Event) returns (y': System)
    requires Inv(y) && y.bob.epoch == 2 && y.bob.state.nr == 1 && Id(1, 0) in y.net.read && IsSent(y.net, 1, 1)
    requires e.Deliver? && e == Deliver(false, 1, 0, [], e.next, false) && e' == Deliver(false, 1, 1, [], e.next, true)
    requires IsNew(y.net, e.next)
    ensures Possible(y, e) && y.bob.epoch < |y.net.sent| && y' == Step(y, e)
    ensures Openable(y.net, y.bob, 1, 1)
    ensures Possible(y', e') && y'.bob.epoch < |y'.net.sent| && !Opens(y', e')
  {
    hide Inv, PartyOk, Shape, Decrypt, TryDecrypt, Step, Opens, MessageFor;
    assert IsSent(y.net, 1, 0);
    IsPossible(y, e);
    IsPossible(y, e');
    InvParty(y, false);
    OpensOnce(y.net, y.bob, 1, 0);
    FailsPlain(y.net, y.bob, 1, 0, [], e.next);
    DuplicateCostsTheNext(y.net, y.bob, 1, 0, [], [], e.next, e.next);
    y' := DuplicateLands(y, e, e');
  }

  /** A plain delivery that fails changes the receiver's state and nothing else. */
  lemma PlainFailure(y: System, e: Event)
    requires Possible(y, e) && e.Deliver? && !e.tried && PartyOf(y, e.alice).epoch < |y.net.sent|
    requires Decrypt(PartyOf(y, e.alice).state, y.net.wire[Id(e.k, e.n)], e.aad, e.next).1.None?
    ensures var p, s := PartyOf(y, e.alice),
            Decrypt(PartyOf(y, e.alice).state, y.net.wire[Id(e.k, e.n)], e.aad, e.next).0;
            Step(y, e) == SetParty(y, e.alice, p.(state := s))
  {
    hide Decrypt;
  }

  /** Alice speaks, Bob reads and answers, and Alice reads that. */
  lemma TwoChains(id: nat, b: DhKey, a: DhKey, c: DhKey, d: DhKey) returns (ys: seq<System>, es: seq<Event>)
    requires a != b && c !in {a, b} && d !in {a, b, c} && LOW_ORDER !in {a, b, c, d}
    ensures IsRun(ys, es) && |ys| == 5 && |es| == 4 && Inv(ys[4])
    ensures var y := ys[4];
            && y.net.keys == [b, a, c, d] && |y.net.sent| == 4 && |y.net.sent[1]| == 1 && y.net.sent[3] == []
            && y.alice.epoch == 3 && y.bob.epoch == 2 && y.bob.state.nr == 1 && Id(1, 0) in y.net.read
  {
    hide Inv, Step, Result, PartyOk, IsRun;
    ys, es := ManySends(id, b, a, 1);
    assert |ys| == 2 by {
      RunLength(ys, es);
    }
    RunKeeps(ys, es, 1) by {
      assert CarefulRun(ys, es, 1);
    }
    SentMessages(ys[1], 1);
    var e1, e3 := Deliver(false, 1, 0, [], c, true), Deliver(true, 2, 0, [], d, true);
    var y1 := FirstOfChain(ys[1], e1);
    ys, es := RunGrows(ys, es, e1);
    var y2 := SendStep(y1, false);
    ys, es := RunGrows(ys, es, Send(false, [], []));
    FreshReceiver(y2);
    var y3 := FirstOfChain(y2, e3);
    ys, es := RunGrows(ys, es, e3);
    assert ys[4] == y3;
  }

  lemma RunLength(ys: seq<System>, es: seq<Event>)
    requires IsRun(ys, es)
    ensures |ys| == |es| + 1
  {
    hide Step;
  }

  /** Then Alice speaks twice on her second chain, and Bob reads the first of it. */
  lemma ThreeChains(
    id: nat, b: DhKey, a: DhKey, c: DhKey, d: DhKey, f: DhKey) returns (ys: seq<System>, es: seq<Event>)
    requires a != b && c !in {a, b} && d !in {a, b, c} && f !in {a, b, c, d} && LOW_ORDER !in {a, b, c, d, f}
    ensures IsRun(ys, es) && |ys| == 8 && |es| == 7 && Inv(ys[7])
    ensures var y := ys[7];
            && y.net.keys == [b, a, c, d, f] && y.bob.epoch == 4 && y.bob.state.nr == 1
            && IsSent(y.net, 1, 0) && IsSent(y.net, 3, 1) && Id(1, 0) in y.net.read
  {
    hide Inv, Step, Result, PartyOk, IsRun;
    ys, es := TwoChains(id, b, a, c, d);
    var y4 := SendStep(ys[4], true);
    ys, es := RunGrows(ys, es, Send(true, [], []));
    var y5 := SendStep(y4, true);
    ys, es := RunGrows(ys, es, Send(true, [], []));
    var e := Deliver(false, 3, 0, [], f, true);
    var y6 := FirstOfChain(y5, e);
    ys, es := RunGrows(ys, es, e);
    assert ys[7] == y6;
  }

  lemma FreshReceiver(y: System)
    requires Inv(y) && y.alice.epoch == 1
    ensures y.alice.state.nr == 0
  {
    assert KeysOk(y.net, y.alice);
  }

  /**
   A duplicate from an old chain, decrypted outright: the next message of the present chain, which
   could be opened before, does not open after.
   */
  lemma OldDuplicateRun(
    id: nat, b: DhKey, a: DhKey, c: DhKey, d: DhKey, f: DhKey, g: DhKey) returns (ys: seq<System>, es: seq<Event>)
    requires a != b && c !in {a, b} && d !in {a, b, c} && f !in {a, b, c, d} && g !in {a, b, c, d, f}
    requires LOW_ORDER !in {a, b, c, d, f, g}
    ensures IsRun(ys, es) && |ys| == 10 && |es| == 9
    ensures es[7] == Deliver(false, 1, 0, [], g, false) && es[8] == Deliver(false, 3, 1, [], g, true)
    ensures IsSent(ys[7].net, 3, 1) && Openable(ys[7].net, ys[7].bob, 3, 1) && !Opens(ys[8], es[8])
  {
    hide Inv, Step, Result, PartyOk;
    ys, es := ThreeChains(id, b, a, c, d, f);
    var e, e' := Deliver(false, 1, 0, [], g, false), Deliver(false, 3, 1, [], g, true);
    var y := OldDuplicateStep(ys[7], e, e');
    ys, es := RunGrows(ys, es, e);
    ys, es := RunGrows(ys, es, e');
  }

  lemma OldDuplicateStep(y: System, e: Event, e': Event) returns (y': System)
    requires Inv(y) && y.bob.epoch == 4 && y.bob.state.nr == 1 && Id(1, 0) in y.net.read
    requires IsSent(y.net, 1, 0) && IsSent(y.net, 3, 1) && |y.net.keys| == 5
    requires e.Deliver? && e == Deliver(false, 1, 0, [], e.next, false) && e' == Deliver(false, 3, 1, [], e.next, true)
    requires IsNew(y.net, e.next)
    ensures Possible(y, e) && y.bob.epoch < |y.net.sent| && y' == Step(y, e)
    ensures Openable(y.net, y.bob, 3, 1)
    ensures Possible(y', e') && y'.bob.epoch < |y'.net.sent| && !Opens(y', e')
  {
    hide Inv, PartyOk, Shape, Decrypt, TryDecrypt, Step, Opens, MessageFor;
    var net, p := y.net, y.bob;
    IsPossible(y, e);
    IsPossible(y, e');
    InvParty(y, false);
    OpensOnce(net, p, 1, 0);
    assert !Harmless(net, p, 1, 0, []);
    FailsPlain(net, p, 1, 0, [], e.next);
    OldDuplicateDiverts(net, p, 1, 0, [], e.next, 3, 1, [], e.next);
    NotFiledAhead(net, p, e.next);
    y' := DuplicateLands(y, e, e');
  }

  lemma FailsPlain(net: Net, p: Party, k: nat, n: nat, aad: Bytes, next: DhKey)
    requires Shape(net) && PartyOk(net, p) && IsSent(net, k, n) && Incoming(p, k) && !Openable(net, p, k, n)
    ensures Decrypt(p.state, MessageFor(net, k, n), aad, next).1.None?
  {
    OpensIff(net, p, k, n, aad, next);
    hide PartyOk, Shape, Decrypt, Openable, MessageFor;
  }

  /** The duplicate's skips file nothing of the present chain that was not sent before. */
  lemma NotFiledAhead(net: Net, p: Party, next: DhKey)
    requires Shape(net) && PartyOk(net, p) && p.epoch == 4 && p.state.nr == 1 && IsSent(net, 1, 0) && IsSent(net, 3, 1)
    requires Slot(net.keys[1], 0) !in p.state.skipped
    ensures Slot(net.keys[3], 1) !in Decrypt(p.state, MessageFor(net, 1, 0), [], next).0.skipped
  {
    NothingAhead(net, p);
    assert p.state.dhr == net.keys[3] && net.keys[1] != net.keys[3] && net.keys[1] != LOW_ORDER;
    hide Shape, CacheOk, OpenedOk, Iter, Base, Root, MessageKey;
    assert SkipTo(p.state, 0) == p.state;
  }

  lemma DuplicateLands(y: System, e: Event, e': Event) returns (y': System)
    requires Inv(y) && Possible(y, e) && Possible(y, e') && y.bob.epoch < |y.net.sent|
    requires e.Deliver? && !e.alice && !e.tried && e'.Deliver? && !e'.alice && e'.tried
    requires IsSent(y.net, e.k, e.n) && IsSent(y.net, e'.k, e'.n)
    requires var s := Decrypt(y.bob.state, MessageFor(y.net, e.k, e.n), e.aad, e.next);
             s.1.None? && TryDecrypt(s.0, MessageFor(y.net, e'.k, e'.n), e'.aad, e'.next).1.None?
    ensures y' == Step(y, e) && Possible(y', e') && y'.bob.epoch < |y'.net.sent| && !Opens(y', e')
  {
    hide PartyOk, Shape, Decrypt, TryDecrypt;
    y' := Step(y, e);
    PlainFailure(y, e);
  }

  // ----- A cache that is too small -----------------------------------------

  /** Alice sends `n` messages to a Bob who has received none. */
  lemma {:induction false} ManySends(id: nat, b: DhKey, a: DhKey, n: nat) returns (ys: seq<System>, es: seq<Event>)
    requires b != a && LOW_ORDER !in {a, b}
    ensures IsRun(ys, es) && |es| == n && forall i | 0 <= i < n :: es[i] == Send(true, [], [])
    ensures var y := ys[n];
            && y.bob == Party(InitBob(id, b), 0) && y.alice.epoch == 1 && y.alice.state.haveCks
            && y.net.id == id && y.net.keys == [b, a] && |y.net.sent| == 2 && y.net.sent[1] == seq(n, _ => Sent([], []))
  {
    if n == 0 {
      ys, es := [Start(id, b, a)], [];
      assert [] == seq(0, _ => Sent([], []));
    } else {
      ys, es := ManySends(id, b, a, n - 1);
      var y, e := ys[n - 1], Send(true, [], []);
      var y' := Step(y, e);
      assert seq(n - 1, _ => Sent([], [])) + [Sent([], [])] == seq(n, _ => Sent([], []));
      ys, es := ys + [y'], es + [e];
    }
  }

  /** Nothing is read by sending. */
  lemma {:induction false} NothingRead(ys: seq<System>, es: seq<Event>, n: nat)
    requires IsRun(ys, es) && n < |ys| && n <= |es| && forall i | 0 <= i < n :: es[i].Send?
    ensures ys[n].net.read == {}
  {
    if n > 0 {
      NothingRead(ys, es, n - 1);
    }
  }

  /**
   Bob gets message 1000 first, which fills his cache, and then message 1002, for which it has
   no room: message 0, whose key is the first in the cache, is lost.
   */
  lemma FullCacheLoses(
    id: nat, b: DhKey, a: DhKey, c: DhKey, d: DhKey) returns (ys: seq<System>, es: seq<Event>)
    requires b != a && c !in {a, b} && d !in {a, b, c} && LOW_ORDER !in {a, b, c, d}
    ensures IsRun(ys, es) && |es| == MAX_SKIP + 5 && CarefulRun(ys, es, |es|)
    ensures Lost(ys[|es|].net, ys[|es|].bob, Id(1, 0))
  {
    hide Step, Inv, Result, Lost, Lossless;
    ys, es := FullCache(id, b, a, c);
    var n := |es|;
    var e := Deliver(false, 1, MAX_SKIP + 2, [], d, true);
    var y := Overflow(ys[n], e);
    ys, es := ys + [y], es + [e];
  }

  lemma SendingIsCareful(ys: seq<System>, es: seq<Event>)
    requires IsRun(ys, es) && forall i | 0 <= i < |es| :: es[i].Send?
    ensures |ys| == |es| + 1 && CarefulRun(ys, es, |es|)
  {
    RunLength(ys, es);
    hide Step;
  }

  lemma CarefulGrows(ys: seq<System>, es: seq<Event>, e: Event)
    requires CarefulRun(ys, es, |es|) && |ys| == |es| + 1 && Possible(ys[|es|], e) && Careful(ys[|es|], e)
    requires PartyOf(ys[|es|], e.alice).epoch < |ys[|es|].net.sent|
    ensures CarefulRun(ys + [Step(ys[|es|], e)], es + [e], |es| + 1)
  {
    hide Step, Possible, Careful;
  }

  /** After message 1000 the cache is full. */
  lemma FullCache(id: nat, b: DhKey, a: DhKey, c: DhKey) returns (ys: seq<System>, es: seq<Event>)
    requires b != a && c !in {a, b} && LOW_ORDER !in {a, b, c}
    ensures IsRun(ys, es) && |es| == MAX_SKIP + 4 && |ys| == |es| + 1 && CarefulRun(ys, es, |es|) && Inv(ys[|es|])
    ensures var net, p := ys[|es|].net, ys[|es|].bob;
            && net.keys == [b, a, c] && Id(1, 0) !in net.read && Lossless(net, p)
            && p.epoch == 2 && p.state.nr == MAX_SKIP + 1 && |p.state.skipped| == MAX_SKIP
            && IsSent(net, 1, MAX_SKIP + 2) && net.sent[1][MAX_SKIP + 2].aad == []
  {
    hide Step, Inv, Result, Lost, Lossless, CarefulRun;
    ys, es := ManySends(id, b, a, MAX_SKIP + 3);
    var n := |es|;
    NothingRead(ys, es, n);
    SendingIsCareful(ys, es);
    RunKeeps(ys, es, n);
    var e := Deliver(false, 1, MAX_SKIP, [], c, true);
    var y := FillCache(ys[n], e);
    CarefulGrows(ys, es, e);
    ys, es := ys + [y], es + [e];
    RunKeeps(ys, es, n + 1);
  }

  /** Bob's first message passes over as many as the cache holds. */
  lemma FillCache(y: System, e: Event) returns (y': System)
    requires Inv(y) && e.Deliver? && e == Deliver(false, 1, MAX_SKIP, [], e.next, true) && IsNew(y.net, e.next)
    requires y.bob == Party(InitBob(y.net.id, y.net.keys[0]), 0) && |y.net.keys| == 2
    requires IsSent(y.net, 1, MAX_SKIP + 2) && y.net.sent[1][MAX_SKIP].aad == []
    ensures Possible(y, e) && PartyOf(y, e.alice).epoch < |y.net.sent| && y' == Step(y, e)
    ensures y'.bob.epoch == 2 && y'.bob.state.nr == MAX_SKIP + 1 && |y'.bob.state.skipped| == MAX_SKIP
    ensures Lossless(y'.net, y'.bob) && y'.net.keys == y.net.keys + [e.next] && y'.net.sent == y.net.sent + [[]]
    ensures y'.net.read == y.net.read + {Id(1, MAX_SKIP)}
  {
    var net, p := y.net, y.bob;
    assert IsSent(net, 1, MAX_SKIP) && Id(1, MAX_SKIP) in net.wire;
    y' := Step(y, e);
    DeliverIs(y, e);
    assert Openable(net, p, 1, MAX_SKIP);
    assert Lossless(net, p) by {
      assert forall id :: !Passed(net, p, id);
    }
    LosslessNextIff(net, p, 1, MAX_SKIP, e.next);
    FirstFill(net, p, e.next);
  }

  lemma FirstFill(net: Net, p: Party, next: DhKey)
    requires Shape(net) && PartyOk(net, p) && IsSent(net, 1, MAX_SKIP) && p == Party(InitBob(net.id, net.keys[0]), 0)
    ensures var s := After(net, p, 1, MAX_SKIP, next); s.nr == MAX_SKIP + 1 && |s.skipped| == MAX_SKIP
  {
    hide SkipTo, Iter;
    RatchetedCache(net, p, 1, next);
    SkipKeepsIff(DhRatchet(p.state, net.keys[1], next), MAX_SKIP, Base(net, 1));
  }

  /** The next skip finds the cache full. */
  lemma Overflow(y: System, e: Event) returns (y': System)
    requires Inv(y) && e.Deliver? && e == Deliver(false, 1, MAX_SKIP + 2, [], e.next, true) && IsNew(y.net, e.next)
    requires y.bob.epoch == 2 && y.bob.state.nr == MAX_SKIP + 1 && |y.bob.state.skipped| == MAX_SKIP
             && Lossless(y.net, y.bob) && Id(1, 0) !in y.net.read
    requires IsSent(y.net, 1, MAX_SKIP + 2) && y.net.sent[1][MAX_SKIP + 2].aad == []
    ensures Possible(y, e) && PartyOf(y, e.alice).epoch < |y.net.sent| && y' == Step(y, e)
    ensures Lost(y'.net, y'.bob, Id(1, 0))
  {
    hide After, SkipTo, Iter, Root, Base, Lossless, PartyOk, Shape, WireOk, Step, Result, Openable;
    IsPossible(y, e);
    y' := Step(y, e);
    DeliverIs(y, e);
    OverflowDrops(y.net, y.bob, e.next);
  }

  lemma OverflowDrops(net: Net, p: Party, next: DhKey)
    requires Shape(net) && PartyOk(net, p) && p.epoch == 2 && Lossless(net, p) && Id(1, 0) !in net.read
    requires p.state.nr == MAX_SKIP + 1 && |p.state.skipped| == MAX_SKIP && IsSent(net, 1, MAX_SKIP + 2)
    ensures Openable(net, p, 1, MAX_SKIP + 2)
    ensures var s := After(net, p, 1, MAX_SKIP + 2, next);
            s.nr == MAX_SKIP + 3 && Slot(net.keys[1], 0) !in s.skipped
  {
    NothingAhead(net, p);
    assert p.state.dhr == net.keys[1] && Slot(p.state.dhr, MAX_SKIP + 2) !in p.state.skipped;
    ZeroIsFirst(net, p);
    hide SkipTo, Iter, Lossless, CacheOk, OpenedOk;
    OneSkip(p.state, Slot(net.keys[1], 0));
  }

  /** Everything in the cache is of the one chain, and its message 0 is there. */
  lemma ZeroIsFirst(net: Net, p: Party)
    requires Shape(net) && PartyOk(net, p) && p.epoch == 2 && p.state.nr > 0 && Lossless(net, p)
    requires IsSent(net, 1, 0) && Id(1, 0) !in net.read
    ensures Slot(net.keys[1], 0) in p.state.skipped
    ensures forall x | x in p.state.skipped :: x.dh == net.keys[1]
  {
    assert Passed(net, p, Id(1, 0));
    assert !Lost(net, p, Id(1, 0));
    forall x | x in p.state.skipped
      ensures x.dh == net.keys[1]
    {
      var k := FiledSomewhere(net, p, x);
    }
  }

  /** Passing over one message with a full cache drops the slot with the smallest key and number. */
  lemma OneSkip(s: State, x: Slot)
    requires |s.skipped| >= MAX_SKIP && x in s.skipped && Slot(s.dhr, s.nr) != x
    requires forall y | y in s.skipped && y != x :: x.dh < y.dh || (x.dh == y.dh && x.n < y.n)
    ensures x !in SkipTo(s, s.nr + 1).skipped
    ensures forall y | y in s.skipped && y != x :: y in SkipTo(s, s.nr + 1).skipped
  {
    var f := First(s.skipped.Keys);
    assert f in s.skipped.Keys && x in s.skipped.Keys;
    assert f == x;
    assert SkipTo(s, s.nr + 1) == SkipOne(s);
  }
}
