/** What holds of two Double Ratchet parties in every run. */
module RatchetTheorems {
  import opened Common
  import opened Ratchet
  import opened RatchetDelivery
  import opened RatchetInvariants
  import opened RatchetOnce

  /** The first `n` deliveries without a rollback need none. */
  ghost predicate CarefulRun(ys: seq<System>, es: seq<Event>, n: nat) {
    IsRun(ys, es) && n < |ys| && forall i | 0 <= i < n :: Careful(ys[i], es[i])
  }

  lemma {:induction false} RunKeeps(ys: seq<System>, es: seq<Event>, n: nat)
    requires CarefulRun(ys, es, n)
    ensures Inv(ys[n])
  {
    if n == 0 {
      var id: nat, b: DhKey, a: DhKey :| b != a && LOW_ORDER !in {a, b} && ys[0] == Start(id, b, a);
      StartOk(id, b, a);
    } else {
      RunKeeps(ys, es, n - 1);
      hide Inv, Careful, Result;
      StepKeeps(ys[n - 1], es[n - 1]);
    }
  }

  lemma StartOk(id: nat, b: DhKey, a: DhKey)
    requires b != a && LOW_ORDER !in {a, b}
    ensures Inv(Start(id, b, a))
  {
    var y := Start(id, b, a);
    assert Root(id, y.net.keys, 0) == Agreed(id);
    assert Root(id, y.net.keys, 1) == RootOf(Agreed(id), {a, b});
    assert Base(y.net, 1) == ChainOf(Agreed(id), {a, b});
    assert KeysOk(y.net, y.alice) && KeysOk(y.net, y.bob);
  }

  // ----- Nothing lost ------------------------------------------------------

  /** The message was passed over, is unread, and its key is gone. */
  ghost predicate Lost(net: Net, p: Party, id: Id) {
    Passed(net, p, id) && id !in net.read && Slot(net.keys[id.k], id.n) !in p.state.skipped
  }

  ghost predicate Lossless(net: Net, p: Party) {
    forall id :: !Lost(net, p, id)
  }

  /** How many messages of the chain that ends a ratchet step passes over. */
  function Gap(net: Net, p: Party, k: nat): nat
    requires k < |net.sent|
  {
    if p.epoch >= 2 then Max(p.state.nr, Previous(net, k)) - p.state.nr else 0
  }

  /** The cache has room for the keys that the delivery passes over. */
  predicate Room(net: Net, p: Party, k: nat, n: nat)
    requires IsSent(net, k, n)
  {
    || Slot(net.keys[k], n) in p.state.skipped
    || (k + 1 == p.epoch && Fits(p.state, n))
    || (k == p.epoch + 1 && |p.state.skipped| + Gap(net, p, k) + n <= MAX_SKIP)
  }

  lemma LosslessFiled(net: Net, p: Party, k: nat, n: nat, next: DhKey)
    requires Shape(net) && PartyOk(net, p) && IsSent(net, k, n) && Lossless(net, p)
    requires Slot(net.keys[k], n) in p.state.skipped
    ensures Lossless(Read(net, k, n), p.(state := After(net, p, k, n, next)))
  {
    hide SkipTo, Skip, Iter, Root, Base, KeysOk, CacheOk, OpenedOk;
    var net', p' := Read(net, k, n), p.(state := After(net, p, k, n, next));
    forall id
      ensures !Lost(net', p', id)
    {
      assert !Lost(net, p, id);
      if Passed(net', p', id) && id.k != k {
        assert net.keys[id.k] != net.keys[k];
      }
    }
  }

  /** A slot that the skip drops belongs to a message that is then lost. */
  lemma CurrentLoses(net: Net, p: Party, k: nat, n: nat, next: DhKey, x: Slot) returns (id: Id)
    requires Shape(net) && PartyOk(net, p) && IsSent(net, k, n) && Incoming(p, k)
    requires Slot(net.keys[k], n) !in p.state.skipped && k + 1 == p.epoch && p.state.nr <= n
    requires OldOrNew(p.state.skipped, p.state.dhr, p.state.nr, n, x) && x !in SkipTo(p.state, n).skipped
    ensures Lost(Read(net, k, n), p.(state := After(net, p, k, n, next)), id)
  {
    hide SkipTo, Skip, Iter, Root, Base, MessageKey, CacheOk;
    if x in p.state.skipped {
      var i := FiledSomewhere(net, p, x);
      id := Id(i, x.n);
    } else {
      id := Id(k, x.n);
      NotReadAhead(net, p, id);
    }
  }

  lemma LosslessCurrentIff(net: Net, p: Party, k: nat, n: nat, next: DhKey)
    requires Shape(net) && PartyOk(net, p) && IsSent(net, k, n) && Incoming(p, k) && Lossless(net, p)
    requires Slot(net.keys[k], n) !in p.state.skipped && k + 1 == p.epoch && p.state.nr <= n
    ensures Lossless(Read(net, k, n), p.(state := After(net, p, k, n, next))) <==> Fits(p.state, n)
  {
    var s := p.state;
    NothingAhead(net, p);
    SkipKeepsIff(s, n, Base(net, k));
    hide SkipTo, Iter, Root, Base, Shape, Fresh, CacheOk, OpenedOk, Fits;
    if Fits(s, n) {
      forall id
        ensures !Lost(Read(net, k, n), p.(state := After(net, p, k, n, next)), id)
      {
        CurrentKeepsOne(net, p, k, n, next, id);
      }
    } else {
      var x :| OldOrNew(s.skipped, s.dhr, s.nr, Max(s.nr, n), x) && x !in SkipTo(s, n).skipped;
      var id := CurrentLoses(net, p, k, n, next, x);
    }
  }

  lemma CurrentKeepsOne(net: Net, p: Party, k: nat, n: nat, next: DhKey, id: Id)
    requires KeysOk(net, p) && IsSent(net, k, n) && k + 1 == p.epoch && p.state.nr <= n && !Lost(net, p, id)
    requires Slot(net.keys[k], n) !in p.state.skipped
    requires AllFiled(p.state.skipped, p.state.dhr, p.state.nr, n, SkipTo(p.state, n).skipped)
    ensures !Lost(Read(net, k, n), p.(state := After(net, p, k, n, next)), id)
  {
    hide SkipTo, Iter, Root, Base;
    if IsSent(net, id.k, id.n) {
      assert OldOrNew(p.state.skipped, p.state.dhr, p.state.nr, n, Slot(net.keys[id.k], id.n)) <==>
             Slot(net.keys[id.k], id.n) in p.state.skipped || (net.keys[id.k] == p.state.dhr && p.state.nr <= id.n < n);
    }
  }

  /**
   The slots that a ratchet step should leave in the cache: those before, the rest of the chain
   that ended, the start of the new one.
   */
  predicate Wanted(net: Net, p: Party, k: nat, n: nat, x: Slot)
    requires p.epoch < |net.keys| && p.epoch < |net.sent| && k < |net.keys|
  {
    || x in p.state.skipped
    || (p.epoch >= 2 && x.dh == net.keys[p.epoch - 1] && p.state.nr <= x.n < |net.sent[p.epoch - 1]|)
    || (x.dh == net.keys[k] && x.n < n)
  }

  /** A wanted slot that is missing belongs to a message that is then lost. */
  lemma NextLoses(net: Net, p: Party, k: nat, n: nat, next: DhKey, x: Slot) returns (id: Id)
    requires Shape(net) && PartyOk(net, p) && IsSent(net, k, n) && k == p.epoch + 1
    requires Wanted(net, p, k, n, x) && x !in After(net, p, k, n, next).skipped && After(net, p, k, n, next).nr == n + 1
    ensures Lost(Extended(Read(net, k, n), next), Party(After(net, p, k, n, next), p.epoch + 2), id)
  {
    hide After, Iter, Root, Base, MessageKey, CacheOk;
    var net', p' := Extended(Read(net, k, n), next), Party(After(net, p, k, n, next), p.epoch + 2);
    if x in p.state.skipped {
      var i := FiledSomewhere(net, p, x);
      id := Id(i, x.n);
      PassedStill(net, net', p, p', id);
    } else {
      id := Id(if x.dh == net.keys[k] && x.n < n then k else p.epoch - 1, x.n);
      NextPassed(net, p, p'.state, id.k, x.n, n, next);
      NotReadAhead(net, p, id);
    }
  }

  /** When no wanted slot is missing, no message is lost. */
  lemma NextKeepsOne(net: Net, p: Party, k: nat, n: nat, next: DhKey, id: Id)
    requires KeysOk(net, p) && IsSent(net, k, n) && k == p.epoch + 1 && !Lost(net, p, id)
    requires AllWanted(net, p, k, n, After(net, p, k, n, next).skipped)
    requires After(net, p, k, n, next).nr == n + 1
    ensures !Lost(Extended(Read(net, k, n), next), Party(After(net, p, k, n, next), p.epoch + 2), id)
  {
    hide After, Iter, Root, Base;
    if IsSent(net, id.k, id.n) {
      var x := Slot(net.keys[id.k], id.n);
      assert Wanted(net, p, k, n, x) ==> x in After(net, p, k, n, next).skipped;
    }
  }

  /** Every slot was there or is one of those messages. */
  ghost predicate OnlyFiled(m: Cache, dh: DhKey, lo: nat, hi: nat, m': Cache) {
    forall x | x in m' :: OldOrNew(m, dh, lo, hi, x)
  }

  ghost predicate NoneOf(m: Cache, dh: DhKey) {
    forall x | x in m :: x.dh != dh
  }

  lemma SkipFilesOnly(s: State, until: nat, base: Key)
    requires s.ckr == Iter(base, s.nr) && Fresh(s)
    ensures OnlyFiled(s.skipped, s.dhr, s.nr, Max(s.nr, until), SkipTo(s, until).skipped)
  {
    hide Origin, SkipTo;
    SkipFiles(s, until, base);
    forall x | x in SkipTo(s, until).skipped
      ensures OldOrNew(s.skipped, s.dhr, s.nr, Max(s.nr, until), x)
    {
      OriginOf(s, SkipTo(s, until).skipped, Max(s.nr, until), base, x);
    }
  }

  lemma NoneAhead(net: Net, p: Party, k: nat)
    requires Shape(net) && PartyOk(net, p) && k == p.epoch + 1 < |net.keys|
    ensures Fresh(p.state) && NoneOf(p.state.skipped, net.keys[k])
  {
    hide PartyOk, Shape, Fresh;
    NothingAhead(net, p);
  }

  /** The skip to the end of the chain that ends. */
  lemma FirstSkip(net: Net, p: Party, k: nat)
    requires Shape(net) && PartyOk(net, p) && k == p.epoch + 1 < |net.keys| && p.epoch >= 2
    ensures var s, pn := p.state, Previous(net, k);
            var m, m1 := s.skipped, Skip(s, pn).skipped;
            && s.nr <= pn == |net.sent[p.epoch - 1]| && s.dhr == net.keys[p.epoch - 1] != net.keys[k]
            && (|m| + pn - s.nr <= MAX_SKIP <==> AllFiled(m, s.dhr, s.nr, pn, m1))
            && (|m| + pn - s.nr <= MAX_SKIP ==> |m1| == |m| + pn - s.nr)
            && OnlyFiled(m, s.dhr, s.nr, pn, m1) && NoneOf(m, net.keys[k])
  {
    hide Root, Base, Iter, CacheOk, OpenedOk, Fresh, SkipTo, NoneOf, AllFiled, OnlyFiled;
    var s, j, pn := p.state, p.epoch, Previous(net, k);
    NoneAhead(net, p, k);
    assert net.keys[j - 1] != net.keys[k];
    hide Shape;
    SkipKeepsIff(s, pn, Base(net, j - 1));
    SkipFilesOnly(s, pn, Base(net, j - 1));
  }

  /** The skip to the message itself, on the new chain. */
  lemma SecondSkip(net: Net, p: Party, k: nat, n: nat, next: DhKey)
    requires Shape(net) && PartyOk(net, p) && IsSent(net, k, n) && k == p.epoch + 1
    requires Slot(net.keys[k], n) !in p.state.skipped
    ensures After(net, p, k, n, next).nr == n + 1
    ensures var m1, m2 := Skip(p.state, Previous(net, k)).skipped, After(net, p, k, n, next).skipped;
            && (p.epoch < 2 ==> m1 == p.state.skipped)
            && (|m1| + n <= MAX_SKIP <==> AllFiled(m1, net.keys[k], 0, n, m2))
            && OnlyFiled(m1, net.keys[k], 0, n, m2)
  {
    hide Origin;
    RatchetedCache(net, p, k, next);
    hide CacheOk, OpenedOk, Fresh, SkipTo, Skip, Iter, Base, KeysOk, Shape, AllFiled, OnlyFiled;
    var s1 := DhRatchet(Skip(p.state, Previous(net, k)), net.keys[k], next);
    SkipKeepsIff(s1, n, Base(net, k));
    SkipFilesOnly(s1, n, Base(net, k));
  }

  /** All the slots of two skips. */
  ghost predicate BothFiled(m: Cache, dh: DhKey, lo: nat, hi: nat, dh': DhKey, n: nat, m': Cache) {
    forall x | OldOrNew(m, dh, lo, hi, x) || (x.dh == dh' && x.n < n) :: x in m'
  }

  /** Two skips of different chains, one after the other, keep all the slots exactly when they fit together. */
  lemma TwoSkips(m: Cache, m1: Cache, m2: Cache, dh: DhKey, lo: nat, hi: nat, dh': DhKey, n: nat)
    requires lo <= hi && dh != dh' && NoneOf(m, dh')
    requires |m| + hi - lo <= MAX_SKIP <==> AllFiled(m, dh, lo, hi, m1)
    requires |m| + hi - lo <= MAX_SKIP ==> |m1| == |m| + hi - lo
    requires OnlyFiled(m, dh, lo, hi, m1)
    requires |m1| + n <= MAX_SKIP <==> AllFiled(m1, dh', 0, n, m2)
    requires OnlyFiled(m1, dh', 0, n, m2)
    ensures |m| + (hi - lo) + n <= MAX_SKIP <==> BothFiled(m, dh, lo, hi, dh', n, m2)
  {
    if |m| + (hi - lo) + n <= MAX_SKIP {
      forall x | OldOrNew(m, dh, lo, hi, x) || (x.dh == dh' && x.n < n)
        ensures x in m2
      {
        assert OldOrNew(m1, dh', 0, n, x);
      }
    } else if |m| + hi - lo <= MAX_SKIP {
      var x :| OldOrNew(m1, dh', 0, n, x) && x !in m2;
    } else {
      var x :| OldOrNew(m, dh, lo, hi, x) && x !in m1;
      assert x !in m2;
    }
  }

  ghost predicate AllWanted(net: Net, p: Party, k: nat, n: nat, m: Cache)
    requires p.epoch < |net.keys| && p.epoch < |net.sent| && k < |net.keys|
  {
    forall x | Wanted(net, p, k, n, x) :: x in m
  }

  lemma WantedIsFiled(net: Net, p: Party, k: nat, n: nat, m: Cache)
    requires p.epoch < |net.keys| && p.epoch < |net.sent| && k < |net.keys|
    ensures p.epoch >= 2 ==>
              (AllWanted(net, p, k, n, m) <==>
               BothFiled(
                 p.state.skipped, net.keys[p.epoch - 1], p.state.nr, |net.sent[p.epoch - 1]|, net.keys[k], n, m))
    ensures p.epoch < 2 ==> (AllWanted(net, p, k, n, m) <==> AllFiled(p.state.skipped, net.keys[k], 0, n, m))
  {
    var s := p.state;
    if p.epoch >= 2 {
      assert forall x :: Wanted(net, p, k, n, x) <==>
        OldOrNew(s.skipped, net.keys[p.epoch - 1], s.nr, |net.sent[p.epoch - 1]|, x)
          || (x.dh == net.keys[k] && x.n < n);
    } else {
      assert forall x :: Wanted(net, p, k, n, x) <==> OldOrNew(s.skipped, net.keys[k], 0, n, x);
    }
  }

  /** The wanted slots are all there exactly when the cache has room. */
  lemma WantedIff(net: Net, p: Party, k: nat, n: nat, next: DhKey)
    requires Shape(net) && PartyOk(net, p) && IsSent(net, k, n) && k == p.epoch + 1
    requires Slot(net.keys[k], n) !in p.state.skipped
    ensures After(net, p, k, n, next).nr == n + 1
    ensures |p.state.skipped| + Gap(net, p, k) + n <= MAX_SKIP
            <==> AllWanted(net, p, k, n, After(net, p, k, n, next).skipped)
  {
    hide After, Skip, CacheOk, OpenedOk, Root, Base, Iter, AllFiled, OnlyFiled, NoneOf, BothFiled, AllWanted;
    SecondSkip(net, p, k, n, next);
    var s, pn, m2 := p.state, Previous(net, k), After(net, p, k, n, next).skipped;
    WantedIsFiled(net, p, k, n, m2);
    if p.epoch >= 2 {
      FirstSkip(net, p, k);
      TwoSkips(s.skipped, Skip(s, pn).skipped, m2, s.dhr, s.nr, pn, net.keys[k], n);
    }
  }

  lemma LosslessNextIff(net: Net, p: Party, k: nat, n: nat, next: DhKey)
    requires Shape(net) && PartyOk(net, p) && IsSent(net, k, n) && Lossless(net, p) && k == p.epoch + 1
    requires Slot(net.keys[k], n) !in p.state.skipped
    ensures Lossless(Extended(Read(net, k, n), next), Party(After(net, p, k, n, next), p.epoch + 2)) <==>
            |p.state.skipped| + Gap(net, p, k) + n <= MAX_SKIP
  {
    hide After, CacheOk, OpenedOk, Shape, Root, Base, Iter;
    WantedIff(net, p, k, n, next);
    if |p.state.skipped| + Gap(net, p, k) + n <= MAX_SKIP {
      var net', p' := Extended(Read(net, k, n), next), Party(After(net, p, k, n, next), p.epoch + 2);
      forall id
        ensures !Lost(net', p', id)
      {
        NextKeepsOne(net, p, k, n, next, id);
      }
    } else {
      var x :| Wanted(net, p, k, n, x) && x !in After(net, p, k, n, next).skipped;
      var id := NextLoses(net, p, k, n, next, x);
    }
  }

  /** Reading an openable message loses none of the others exactly when the cache has room for those it passes over. */
  lemma LosslessIff(net: Net, p: Party, k: nat, n: nat, next: DhKey)
    requires Shape(net) && PartyOk(net, p) && IsSent(net, k, n) && Incoming(p, k) && Openable(net, p, k, n)
             && Lossless(net, p)
    ensures var (net', p') := Delivered(net, p, k, n, net.sent[k][n].aad, next);
            Lossless(net', p') <==> Room(net, p, k, n)
  {
    hide After, PartyOk, Shape, Lossless;
    if Slot(net.keys[k], n) in p.state.skipped {
      FiledIsOld(net, p, k, n);
      LosslessFiled(net, p, k, n, next);
    } else if k + 1 == p.epoch {
      LosslessCurrentIff(net, p, k, n, next);
    } else {
      LosslessNextIff(net, p, k, n, next);
    }
  }

  // ----- Runs without loss -------------------------------------------------

  /** What the party has passed over is not affected by sends on present chains. */
  lemma LosslessKeeps(net: Net, net': Net, q: Party, q': Party)
    requires KeysOk(net, q) && Lossless(net, q)
    requires q'.epoch == q.epoch && q'.state.nr == q.state.nr && q'.state.skipped == q.state.skipped
    requires |net.sent| <= |net'.sent| && |net.keys| <= |net'.keys| && net.keys <= net'.keys
    requires forall i | 0 <= i < |net.sent| && i + 1 < q.epoch && Incoming(q, i) :: net'.sent[i] == net.sent[i]
    requires forall id: Id | Incoming(q, id.k) :: id in net.read <==> id in net'.read
    ensures Lossless(net', q')
  {
    hide Root, Base, Iter;
    forall id
      ensures !Lost(net', q', id)
    {
      assert !Lost(net, q, id);
    }
  }

  /** The delivery decrypts only where the cache has room. */
  ghost predicate Roomy(y: System, e: Event)
    requires Possible(y, e)
  {
    e.Deliver? && Opens(y, e) ==> IsSent(y.net, e.k, e.n) && Room(y.net, PartyOf(y, e.alice), e.k, e.n)
  }

  lemma StepLossless(y: System, e: Event)
    requires Inv(y) && Possible(y, e) && Careful(y, e) && Roomy(y, e)
    requires Lossless(y.net, y.alice) && Lossless(y.net, y.bob)
    ensures PartyOf(y, e.alice).epoch < |y.net.sent|
    ensures Lossless(Step(y, e).net, Step(y, e).alice) && Lossless(Step(y, e).net, Step(y, e).bob)
  {
    hide PartyOk, Shape, WireOk, Sending, Delivered, Lossless, Result, Room, Openable, After;
    var p, q := PartyOf(y, e.alice), PartyOf(y, !e.alice);
    EpochsAdjoin(y.net, p, q);
    match e
    case Send(_, aad, body) =>
      SendLossless(y.net, p, q, aad, body);
    case Deliver(_, k, n, aad, next, _) =>
      ResultIs(y, e);
      DeliverIs(y, e);
      DeliverLossless(y.net, p, q, k, n, aad, next);
    case Inject(_, _, _, _, _) =>
      InjectIs(y, e);
  }

  lemma SendLossless(net: Net, p: Party, q: Party, aad: Bytes, body: Bytes)
    requires Shape(net) && PartyOk(net, p) && PartyOk(net, q) && (p.epoch == q.epoch + 1 || q.epoch == p.epoch + 1)
    requires Lossless(net, p) && Lossless(net, q)
    ensures var (net', p') := Sending(net, p, aad, body); Lossless(net', p') && Lossless(net', q)
  {
    hide CacheOk, OpenedOk, Shape, Lossless, Root, Base, Iter;
    var (net', p') := Sending(net, p, aad, body);
    LosslessKeeps(net, net', p, p');
    LosslessKeeps(net, net', q, q);
  }

  lemma DeliverLossless(net: Net, p: Party, q: Party, k: nat, n: nat, aad: Bytes, next: DhKey)
    requires Shape(net) && PartyOk(net, p) && PartyOk(net, q) && (p.epoch == q.epoch + 1 || q.epoch == p.epoch + 1)
    requires Lossless(net, p) && Lossless(net, q) && IsSent(net, k, n) && Incoming(p, k)
    requires aad == net.sent[k][n].aad && Openable(net, p, k, n) ==> Room(net, p, k, n)
    ensures var (net', p') := Delivered(net, p, k, n, aad, next); Lossless(net', p') && Lossless(net', q)
  {
    hide CacheOk, OpenedOk, Shape, Lossless, Root, Base, Iter, After, Openable, Room;
    if aad == net.sent[k][n].aad && Openable(net, p, k, n) {
      LosslessIff(net, p, k, n, next);
    }
    LosslessKeeps(net, Delivered(net, p, k, n, aad, next).0, q, q);
  }

  lemma RunStep(ys: seq<System>, es: seq<Event>, i: nat)
    requires IsRun(ys, es) && i < |es|
    ensures |ys| == |es| + 1 && Possible(ys[i], es[i]) && PartyOf(ys[i], es[i].alice).epoch < |ys[i].net.sent|
    ensures ys[i + 1] == Step(ys[i], es[i])
  {
    hide Step, Possible;
  }

  lemma StartLossless(ys: seq<System>, es: seq<Event>)
    requires IsRun(ys, es)
    ensures |ys| > 0 && Lossless(ys[0].net, ys[0].alice) && Lossless(ys[0].net, ys[0].bob)
  {
    hide Step, Possible;
  }

  /** In a careful run whose deliveries find room in the cache, no message is ever lost. */
  lemma {:induction false} NothingIsLost(ys: seq<System>, es: seq<Event>, n: nat)
    requires CarefulRun(ys, es, n) && forall i | 0 <= i < n :: Roomy(ys[i], es[i])
    ensures Lossless(ys[n].net, ys[n].alice) && Lossless(ys[n].net, ys[n].bob)
  {
    if n > 0 {
      NothingIsLost(ys, es, n - 1);
      hide Inv, Lossless, Roomy, Step, Careful, IsRun, Possible;
      RunKeeps(ys, es, n - 1);
      RunStep(ys, es, n - 1);
      StepLossless(ys[n - 1], es[n - 1]);
    } else {
      StartLossless(ys, es);
    }
  }

  /** The message is not further ahead than a party is willing to skip. */
  predicate WithinLimit(net: Net, p: Party, k: nat, n: nat)
    requires IsSent(net, k, n)
  {
    && (k + 1 == p.epoch ==> n <= p.state.nr + MAX_SKIP)
    && (k == p.epoch + 1 ==> n <= MAX_SKIP && (p.epoch >= 2 ==> Previous(net, k) <= p.state.nr + MAX_SKIP))
  }

  /**
   Then every message that was sent to a party, however late it is delivered, decrypts now if it is
   unread and within the limit.
   */
  lemma EveryUnreadMessageOpens(ys: seq<System>, es: seq<Event>, i: nat, alice: bool, k: nat, n: nat)
    requires CarefulRun(ys, es, i) && forall j | 0 <= j < i :: Roomy(ys[j], es[j])
    requires IsSent(ys[i].net, k, n) && Incoming(PartyOf(ys[i], alice), k)
    ensures Openable(ys[i].net, PartyOf(ys[i], alice), k, n) <==>
            Id(k, n) !in ys[i].net.read && WithinLimit(ys[i].net, PartyOf(ys[i], alice), k, n)
  {
    RunKeeps(ys, es, i);
    NothingIsLost(ys, es, i);
    hide CarefulRun, Roomy;
    InvParty(ys[i], alice);
    hide Inv;
    UnreadOpens(ys[i].net, PartyOf(ys[i], alice), k, n);
  }

  lemma UnreadOpens(net: Net, p: Party, k: nat, n: nat)
    requires Shape(net) && PartyOk(net, p) && Lossless(net, p) && IsSent(net, k, n) && Incoming(p, k)
    ensures Openable(net, p, k, n) <==> Id(k, n) !in net.read && WithinLimit(net, p, k, n)
  {
    if Id(k, n) in net.read {
      OpensOnce(net, p, k, n);
    } else {
      hide CacheOk, OpenedOk, Root, Base, Iter;
      assert !Lost(net, p, Id(k, n));
      if Slot(net.keys[k], n) in p.state.skipped {
        Filing(net, p, k, n);
      }
    }
  }

  // ----- Decrypting without a rollback -------------------------------------

  /**
   A second copy of a read message of the present chain changes nothing when it is tried, but
   uses up the next message's key when it is decrypted outright: that message, which would have opened, does not.
   */
  lemma DuplicateCostsTheNext(net: Net, p: Party, k: nat, n: nat, aad: Bytes, aad': Bytes, next: DhKey, next': DhKey)
    requires Shape(net) && PartyOk(net, p) && k + 1 == p.epoch && IsSent(net, k, n) && Id(k, n) in net.read
    requires IsSent(net, k, p.state.nr)
    ensures TryDecrypt(p.state, MessageFor(net, k, n), aad, next) == (p.state, None)
    ensures var s' := Decrypt(p.state, MessageFor(net, k, n), aad, next).0;
            && Openable(net, p, k, p.state.nr)
            && TryDecrypt(s', MessageFor(net, k, p.state.nr), aad', next').1 == None
  {
    assert Passed(net, p, Id(k, n));
    NothingAhead(net, p);
    OpensOnce(net, p, k, n);
    hide CacheOk, OpenedOk, Shape;
    var s' := DuplicateState(net, p, k, n, aad, next);
    AfterDuplicate(net, p, k, aad', next');
  }

  /** What the duplicate leaves: the head of the chain one further on. */
  lemma DuplicateState(net: Net, p: Party, k: nat, n: nat, aad: Bytes, next: DhKey) returns (s': State)
    requires KeysOk(net, p) && k + 1 == p.epoch && IsSent(net, k, n) && n < p.state.nr
    requires Slot(net.keys[k], n) !in p.state.skipped
    ensures s' == p.state.(ckr := Iter(Base(net, k), p.state.nr + 1), nr := p.state.nr + 1)
    ensures Decrypt(p.state, MessageFor(net, k, n), aad, next) == (s', None)
    ensures TryDecrypt(p.state, MessageFor(net, k, n), aad, next) == (p.state, None)
  {
    hide Iter, Base, Root;
    var s, base := p.state, Base(net, k);
    IterNext(base, s.nr);
    if MessageOf(Iter(base, s.nr)) == MessageKey(net, k, n) {
      IterDistinct(net, k, s.nr, n);
      assert false;
    }
    s' := s.(ckr := Iter(base, s.nr + 1), nr := s.nr + 1);
  }

  /** The message whose key was used up does not open. */
  lemma AfterDuplicate(net: Net, p: Party, k: nat, aad: Bytes, next: DhKey)
    requires KeysOk(net, p) && k + 1 == p.epoch && IsSent(net, k, p.state.nr)
    requires Slot(net.keys[k], p.state.nr) !in p.state.skipped
    ensures var s' := p.state.(ckr := Iter(Base(net, k), p.state.nr + 1), nr := p.state.nr + 1);
            TryDecrypt(s', MessageFor(net, k, p.state.nr), aad, next).1.None?
  {
    hide Iter, Base, Root;
    var s, base := p.state, Base(net, k);
    if MessageOf(Iter(base, s.nr + 1)) == MessageKey(net, k, s.nr) {
      IterDistinct(net, k, s.nr + 1, s.nr);
      assert false;
    }
  }
}
