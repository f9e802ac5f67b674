/**
 No message key is used twice. This holds of a single ratchet whatever messages it is given and
 whether or not failures are rolled back, so it holds in every run.
 */
module RatchetOnce {
  import opened Common
  import opened Ratchet
  import opened RatchetDelivery

  // ----- Where a key comes from --------------------------------------------

  /** The first key of the chain. */
  function BaseOf(chain: Key): Key {
    if chain.NextOf? then BaseOf(chain.chain) else chain
  }

  /** How far down the chain the key is. */
  function Index(chain: Key): nat {
    if chain.NextOf? then 1 + Index(chain.chain) else 0
  }

  /** How many key agreements went into a root key. */
  function Depth(root: Key): nat {
    if root.RootOf? then 1 + Depth(root.root) else 0
  }

  /**
   The key is behind the head of the receive chain, or of a chain that is over: the ratchet cannot
   derive it again.
   */
  predicate Spent(s: State, key: Key) {
    && key.MessageOf?
    && var base := BaseOf(key.chain);
       || (base == BaseOf(s.ckr) && Index(key.chain) < Index(s.ckr))
       || (base.ChainOf? && Depth(base.root) + 2 < Depth(s.rk))
       || (base == Zero && s.haveCkr)
  }

  /** The receive chain was derived in the last ratchet step; what is filed is spent, each key once. */
  ghost predicate Orderly(s: State) {
    && (if s.haveCkr then BaseOf(s.ckr).ChainOf? && Depth(BaseOf(s.ckr).root) + 2 == Depth(s.rk)
        else BaseOf(s.ckr) == Zero)
    && (forall x | x in s.skipped :: Spent(s, s.skipped[x]))
    && (forall x, y | x in s.skipped && y in s.skipped && s.skipped[x] == s.skipped[y] :: x == y)
  }

  /** The keys used so far are spent, and not filed. */
  ghost predicate Used(s: State, used: set<Key>) {
    forall key | key in used :: Spent(s, key) && forall x | x in s.skipped :: s.skipped[x] != key
  }

  /** The head of the receive chain is not spent. */
  lemma HeadIsNew(s: State, key: Key)
    requires Orderly(s) && Spent(s, key)
    ensures key != MessageOf(s.ckr)
  {
  }

  /** Nothing that was spent comes back when the head moves on. */
  lemma HeadMoves(s: State, s': State, used: set<Key>)
    requires Orderly(s) && Used(s, used)
    requires s' == s.(ckr := NextOf(s.ckr), nr := s'.nr, skipped := s'.skipped)
    requires forall x | x in s'.skipped :: x in s.skipped && s'.skipped[x] == s.skipped[x]
    ensures Orderly(s') && Used(s', used + {MessageOf(s.ckr)})
  {
    forall key | Spent(s, key)
      ensures Spent(s', key)
    {
    }
    forall x | x in s'.skipped
      ensures s'.skipped[x] != MessageOf(s.ckr)
    {
      HeadIsNew(s, s.skipped[x]);
    }
  }

  lemma SkipOneOrderly(s: State, used: set<Key>)
    requires Orderly(s) && Used(s, used)
    ensures Orderly(SkipOne(s)) && Used(SkipOne(s), used)
  {
    var s', slot, head := SkipOne(s), Slot(s.dhr, s.nr), MessageOf(s.ckr);
    assert forall x | x in s'.skipped ::
      (x in s.skipped && s'.skipped[x] == s.skipped[x]) || (x == slot && s'.skipped[x] == head);
    forall key | Spent(s, key)
      ensures Spent(s', key) && key != head
    {
      HeadIsNew(s, key);
    }
    assert Spent(s', head);
  }

  lemma {:induction false} SkipOrderly(s: State, until: nat, used: set<Key>)
    requires Orderly(s) && Used(s, used)
    ensures Orderly(SkipTo(s, until)) && Used(SkipTo(s, until), used)
    decreases until - s.nr
  {
    hide Orderly, Used;
    if s.nr < until {
      SkipOneOrderly(s, used);
      SkipOrderly(SkipOne(s), until, used);
    }
  }

  lemma RatchetOrderly(s: State, dh: DhKey, next: DhKey, used: set<Key>)
    requires Orderly(s) && Used(s, used)
    ensures Orderly(DhRatchet(s, dh, next)) && Used(DhRatchet(s, dh, next), used)
  {
    var s' := DhRatchet(s, dh, next);
    assert Depth(s'.rk) == Depth(s.rk) + 2;
    forall key | Spent(s, key)
      ensures Spent(s', key)
    {
    }
  }

  lemma HalfOrderly(s: State, dh: DhKey, used: set<Key>)
    requires Orderly(s) && Used(s, used)
    ensures Orderly(HalfRatchet(s, dh)) && Used(HalfRatchet(s, dh), used)
  {
    assert forall key :: Spent(HalfRatchet(s, dh), key) <==> Spent(s, key);
  }

  lemma UseNextOrderly(s: State, m: Message, aad: Bytes, used: set<Key>)
    requires Orderly(s) && Used(s, used)
    ensures var (s', body) := UseNext(s, m, aad);
            && Orderly(s')
            && Used(s', if body.Some? then used + {m.ciphertext.key} else used)
            && (body.Some? ==> m.ciphertext.key !in used)
  {
    SkipOrderly(s, m.header.n, used);
    var s1 := Skip(s, m.header.n);
    var s2 := s1.(ckr := NextOf(s1.ckr), nr := s1.nr + 1);
    HeadMoves(s1, s2, used);
    if MessageOf(s1.ckr) in used {
      HeadIsNew(s1, MessageOf(s1.ckr));
      assert false;
    }
  }

  /** One decryption: a body comes from a key that was not used before, and that key is used from then on. */
  lemma DecryptOrderly(s: State, m: Message, aad: Bytes, next: DhKey, used: set<Key>)
    requires Orderly(s) && Used(s, used)
    ensures var (s', body) := Decrypt(s, m, aad, next);
            && Orderly(s')
            && Used(s', if body.Some? then used + {m.ciphertext.key} else used)
            && (body.Some? ==> m.ciphertext.key !in used)
  {
    var slot := Slot(m.header.dh, m.header.n);
    if slot in s.skipped {
      FiledOrderly(s, slot, used);
    } else if s.haveDhr && m.header.dh == s.dhr {
      UseNextOrderly(s, m, aad, used);
    } else if !SkipRefused(s, m.header.pn) {
      hide Orderly, Used, UseNext;
      SkipOrderly(s, m.header.pn, used);
      HalfOrderly(Skip(s, m.header.pn), m.header.dh, used);
      RatchetOrderly(Skip(s, m.header.pn), m.header.dh, next, used);
      UseNextOrderly(DhRatchet(Skip(s, m.header.pn), m.header.dh, next), m, aad, used);
    }
  }

  lemma FiledOrderly(s: State, slot: Slot, used: set<Key>)
    requires Orderly(s) && Used(s, used) && slot in s.skipped
    ensures s.skipped[slot] !in used
    ensures var s' := s.(skipped := s.skipped - {slot}); Orderly(s') && Used(s', used + {s.skipped[slot]})
  {
    var s' := s.(skipped := s.skipped - {slot});
    forall key | Spent(s, key)
      ensures Spent(s', key)
    {
    }
  }

  // ----- Runs --------------------------------------------------------------

  /** The keys that opened a message for the party, posted or made up. */
  ghost function UsedKeys(net: Net, p: Party, alice: bool): set<Key>
    requires Faithful(net)
  {
    (set id | id in net.read && Incoming(p, id.k) :: net.wire[id].ciphertext.key)
    + (set x | x in net.alien && x.alice == alice :: x.key)
  }

  /** Every message on the wire was sealed over its own header, with the data and the body that were sent. */
  ghost predicate Faithful(net: Net) {
    && |net.keys| == |net.sent|
    && (forall id | id in net.wire ::
          && id.k < |net.sent| && id.n < |net.sent[id.k]|
          && var m, sent := net.wire[id], net.sent[id.k][id.n];
             m.ciphertext.Sealed? && m.ciphertext == Sealed(m.ciphertext.key, m.header, sent.aad, sent.body))
    && (forall id | id in net.read :: id in net.wire)
  }

  /** The event decrypts a message. */
  ghost predicate Opens(y: System, e: Event)
    requires Possible(y, e)
  {
    !e.Send? && Result(y, e).1.Some?
  }

  /** What comes out is what was sealed. */
  lemma OpensItsBody(s: State, m: Message, aad: Bytes, next: DhKey)
    ensures var body := Decrypt(s, m, aad, next).1;
            body.Some? ==> m.ciphertext.Sealed? && m.ciphertext.body == body.value && m.ciphertext.aad == aad
  {
  }

  lemma GivenBody(y: System, e: Event)
    requires Possible(y, e) && Opens(y, e)
    ensures var c := Given(y, e).ciphertext; c.Sealed? && Result(y, e).1 == Some(c.body) && c.aad == e.aad
  {
    hide Decrypt;
    OpensItsBody(PartyOf(y, e.alice).state, Given(y, e), e.aad, e.next);
  }

  /** Alice's epochs are odd and Bob's even, and both are among the chains. */
  ghost predicate Sides(y: System) {
    && y.alice.epoch % 2 == 1 && y.bob.epoch % 2 == 0
    && y.alice.epoch < |y.net.sent| && y.bob.epoch < |y.net.sent|
  }

  /** What an event adds to the keys a party has used. */
  ghost function Adding(y: System, e: Event, alice: bool): set<Key>
    requires Possible(y, e)
  {
    if e.alice == alice && Opens(y, e) && Given(y, e).ciphertext.Sealed? then {Given(y, e).ciphertext.key} else {}
  }

  lemma SendFaithful(net: Net, p: Party, aad: Bytes, body: Bytes)
    requires Faithful(net) && p.epoch < |net.sent|
    ensures var net' := Sending(net, p, aad, body).0;
            && Faithful(net') && net'.read == net.read && net'.alien == net.alien && |net'.sent| == |net.sent|
            && forall id | id in net.wire :: id in net'.wire && net'.wire[id] == net.wire[id]
  {
    assert Id(p.epoch, |net.sent[p.epoch]|) !in net.wire;
  }

  lemma SameUsedKeys(net: Net, net': Net, p: Party, p': Party, alice: bool)
    requires Faithful(net) && Faithful(net') && net'.read == net.read && p'.epoch == p.epoch
    requires forall x: Alien | x.alice == alice :: x in net'.alien <==> x in net.alien
    requires forall id | id in net.wire :: id in net'.wire && net'.wire[id] == net.wire[id]
    ensures UsedKeys(net', p', alice) == UsedKeys(net, p, alice)
  {
  }

  lemma OpenedFaithful(net: Net, p: Party, s: State, k: nat, n: nat, next: DhKey)
    requires Faithful(net) && Posted(net, k, n)
    ensures var (net', p') := Opened(net, p, s, k, n, next);
            && Faithful(net') && net'.wire == net.wire && net'.read == net.read + {Id(k, n)} && net'.alien == net.alien
            && |net'.sent| >= |net.sent| && p'.epoch % 2 == p.epoch % 2
            && (p.epoch < |net.sent| ==> p'.epoch < |net'.sent|)
  {
  }

  lemma ReadMore(net: Net, net': Net, p: Party, p': Party, alice: bool, id: Id)
    requires Faithful(net) && Faithful(net') && id in net.wire && net'.wire == net.wire && net'.alien == net.alien
    requires net'.read == net.read + {id} && p'.epoch % 2 == p.epoch % 2
    ensures UsedKeys(net', p', alice) ==
            UsedKeys(net, p, alice) + if Incoming(p, id.k) then {net.wire[id].ciphertext.key} else {}
  {
    hide Faithful;
    assert forall k: nat :: Incoming(p', k) <==> Incoming(p, k);
  }

  lemma SendUsed(y: System, e: Event, alice: bool)
    requires Faithful(y.net) && Sides(y) && e.Send?
    ensures var y' := Step(y, e);
            && Faithful(y'.net) && Sides(y')
            && UsedKeys(y'.net, PartyOf(y', alice), alice) == UsedKeys(y.net, PartyOf(y, alice), alice)
  {
    var p := PartyOf(y, e.alice);
    SendFaithful(y.net, p, e.aad, e.body);
    hide Faithful;
    var y' := Step(y, e);
    SameUsedKeys(y.net, y'.net, PartyOf(y, alice), PartyOf(y', alice), alice);
  }

  lemma DeliverUsed(y: System, e: Event, alice: bool)
    requires Faithful(y.net) && Sides(y) && Possible(y, e) && e.Deliver?
    ensures var y' := Step(y, e);
            && Faithful(y'.net) && Sides(y')
            && UsedKeys(y'.net, PartyOf(y', alice), alice) ==
               UsedKeys(y.net, PartyOf(y, alice), alice) + Adding(y, e, alice)
  {
    hide Result, Opened;
    var p, y' := PartyOf(y, e.alice), Step(y, e);
    var (s, body) := Result(y, e);
    if body.None? {
      hide Faithful;
      SameUsedKeys(y.net, y'.net, PartyOf(y, alice), PartyOf(y', alice), alice);
    } else {
      assert y.net.wire[Id(e.k, e.n)].ciphertext.Sealed?;
      OpenedFaithful(y.net, p, s, e.k, e.n, e.next);
      hide Faithful;
      ReadMore(y.net, y'.net, PartyOf(y, alice), PartyOf(y', alice), alice, Id(e.k, e.n));
    }
  }

  lemma InjectUsed(y: System, e: Event, alice: bool)
    requires Faithful(y.net) && Sides(y) && Possible(y, e) && e.Inject?
    ensures var y' := Step(y, e);
            && Faithful(y'.net) && Sides(y')
            && UsedKeys(y'.net, PartyOf(y', alice), alice) ==
               UsedKeys(y.net, PartyOf(y, alice), alice) + Adding(y, e, alice)
  {
    hide Result;
    var y' := Step(y, e);
    assert Faithful(y'.net);
    hide Faithful;
    assert forall k: nat :: Incoming(PartyOf(y', alice), k) <==> Incoming(PartyOf(y, alice), k);
  }

  /** A step adds to the used keys exactly the key it opened a message with. */
  lemma StepUsed(y: System, e: Event, alice: bool)
    requires Faithful(y.net) && Sides(y) && Possible(y, e)
    ensures PartyOf(y, e.alice).epoch < |y.net.sent|
    ensures var y' := Step(y, e);
            && Faithful(y'.net) && Sides(y')
            && UsedKeys(y'.net, PartyOf(y', alice), alice) ==
               UsedKeys(y.net, PartyOf(y, alice), alice) + Adding(y, e, alice)
  {
    hide Faithful, Result, Step, UsedKeys;
    match e
    case Send(_, _, _) => SendUsed(y, e, alice);
    case Deliver(_, _, _, _, _, _) => DeliverUsed(y, e, alice);
    case Inject(_, _, _, _, _) => InjectUsed(y, e, alice);
  }

  // ----- The invariant -----------------------------------------------------

  ghost predicate Once(y: System) {
    && Faithful(y.net) && Sides(y)
    && Orderly(y.alice.state) && Used(y.alice.state, UsedKeys(y.net, y.alice, true))
    && Orderly(y.bob.state) && Used(y.bob.state, UsedKeys(y.net, y.bob, false))
  }

  /** The sending side has no part in it. */
  lemma SendOrderly(s: State, cks: Key, ns: nat, used: set<Key>)
    requires Orderly(s) && Used(s, used)
    ensures Orderly(s.(cks := cks, ns := ns)) && Used(s.(cks := cks, ns := ns), used)
  {
    var s' := s.(cks := cks, ns := ns);
    assert forall key :: Spent(s', key) <==> Spent(s, key);
  }

  /** The state an event leaves its party in, and what that party has then used. */
  lemma ActorOrderly(y: System, e: Event)
    requires Sides(y) && Possible(y, e)
    requires var p := PartyOf(y, e.alice);
             Faithful(y.net) && Orderly(p.state) && Used(p.state, UsedKeys(y.net, p, e.alice))
    ensures var p, s' := PartyOf(y, e.alice), PartyOf(Step(y, e), e.alice).state;
            && Orderly(s') && Used(s', UsedKeys(y.net, p, e.alice) + Adding(y, e, e.alice))
            && (Opens(y, e) ==>
                  Given(y, e).ciphertext.Sealed? && Given(y, e).ciphertext.key !in UsedKeys(y.net, p, e.alice))
  {
    hide Orderly, Used, Decrypt, Faithful, UsedKeys;
    var p := PartyOf(y, e.alice);
    var used := UsedKeys(y.net, p, e.alice);
    if e.Send? {
      var s' := PartyOf(Step(y, e), e.alice).state;
      assert s' == p.state.(cks := s'.cks, ns := s'.ns);
      SendOrderly(p.state, s'.cks, s'.ns, used);
      assert used + {} == used;
    } else {
      DecryptOrderly(p.state, Given(y, e), e.aad, e.next, used);
      if Opens(y, e) {
        GivenBody(y, e);
      }
      assert used + {} == used;
    }
  }

  lemma StepOnce(y: System, e: Event)
    requires Once(y) && Possible(y, e)
    ensures PartyOf(y, e.alice).epoch < |y.net.sent| && Once(Step(y, e))
  {
    hide Orderly, Used, Faithful, UsedKeys, Result;
    ActorOrderly(y, e);
    StepUsed(y, e, true);
    StepUsed(y, e, false);
    OtherUnmoved(y, e);
    assert Adding(y, e, !e.alice) == {};
    var q := PartyOf(y, !e.alice);
    assert UsedKeys(y.net, q, !e.alice) + {} == UsedKeys(y.net, q, !e.alice);
  }

  lemma OtherUnmoved(y: System, e: Event)
    requires Possible(y, e) && PartyOf(y, e.alice).epoch < |y.net.sent|
    ensures PartyOf(Step(y, e), !e.alice) == PartyOf(y, !e.alice)
  {
    hide Result, Opened, Sending;
  }

  lemma {:induction false} RunOnce(ys: seq<System>, es: seq<Event>, n: nat)
    requires IsRun(ys, es) && n < |ys|
    ensures Once(ys[n])
  {
    if n == 0 {
      var id: nat, b: DhKey, a: DhKey :| b != a && LOW_ORDER !in {a, b} && ys[0] == Start(id, b, a);
    } else {
      RunOnce(ys, es, n - 1);
      hide Once, Step;
      StepOnce(ys[n - 1], es[n - 1]);
    }
  }

  // ----- Theorems ----------------------------------------------------------

  /** The message was given with a ciphertext that its sender put on the wire as message `id`. */
  predicate Genuine(y: System, e: Event, id: Id)
    requires Possible(y, e) && !e.Send?
  {
    Posted(y.net, id.k, id.n) && Given(y, e).ciphertext == y.net.wire[id].ciphertext
  }

  /**
   In every run, whatever the network makes up and whether or not failures are rolled back: a
   genuine ciphertext that decrypts gives the body that was sent, with the data it was sent with.
   */
  lemma OpensToWhatWasSent(ys: seq<System>, es: seq<Event>, i: nat, id: Id)
    requires IsRun(ys, es) && i < |es| && Opens(ys[i], es[i]) && Genuine(ys[i], es[i], id)
    ensures var sent := ys[i].net.sent[id.k][id.n]; Result(ys[i], es[i]).1 == Some(sent.body) && es[i].aad == sent.aad
  {
    RunOnce(ys, es, i);
    hide Result;
    GivenBody(ys[i], es[i]);
  }

  /** The key that opened a message stays used. */
  lemma {:induction false} UsedThroughout(ys: seq<System>, es: seq<Event>, i: nat, j: nat, alice: bool, key: Key)
    requires IsRun(ys, es) && i <= j < |ys|
    requires Faithful(ys[i].net) && key in UsedKeys(ys[i].net, PartyOf(ys[i], alice), alice)
    ensures Faithful(ys[j].net) && key in UsedKeys(ys[j].net, PartyOf(ys[j], alice), alice)
  {
    hide Faithful, UsedKeys, Step, Sides, Adding;
    if i < j {
      UsedThroughout(ys, es, i, j - 1, alice, key);
      RunFaithful(ys, es, j - 1);
      StepUsed(ys[j - 1], es[j - 1], alice);
    }
  }

  lemma RunFaithful(ys: seq<System>, es: seq<Event>, n: nat)
    requires IsRun(ys, es) && n < |ys|
    ensures Faithful(ys[n].net) && Sides(ys[n])
  {
    hide Step;
    RunOnce(ys, es, n);
  }

  /** In every such run no key opens two messages for a party, posted or made up. */
  lemma NoKeyTwice(ys: seq<System>, es: seq<Event>, i: nat, j: nat)
    requires IsRun(ys, es) && i < j < |es| && es[i].alice == es[j].alice
    requires Opens(ys[i], es[i]) && Opens(ys[j], es[j])
    ensures var c, d := Given(ys[i], es[i]).ciphertext, Given(ys[j], es[j]).ciphertext;
            c.Sealed? && d.Sealed? && c.key != d.key
  {
    RunOnce(ys, es, i);
    RunOnce(ys, es, i + 1);
    RunOnce(ys, es, j);
    hide Orderly, Used, Faithful, UsedKeys, Step, Result;
    ActorOrderly(ys[i], es[i]);
    ActorOrderly(ys[j], es[j]);
    StepUsed(ys[i], es[i], es[i].alice);
    UsedThroughout(ys, es, i + 1, j, es[i].alice, Given(ys[i], es[i]).ciphertext.key);
  }

  /** So a message that was posted decrypts at most once, however often it is delivered, replayed or altered. */
  lemma AtMostOnce(ys: seq<System>, es: seq<Event>, i: nat, j: nat, id: Id)
    requires IsRun(ys, es) && i < j < |es| && es[i].alice == es[j].alice
    requires Opens(ys[i], es[i]) && Genuine(ys[i], es[i], id) && !es[j].Send? && Genuine(ys[j], es[j], id)
    ensures !Opens(ys[j], es[j])
  {
    WireStays(ys, es, i, j, id);
    if Opens(ys[j], es[j]) {
      NoKeyTwice(ys, es, i, j);
      assert false;
    }
  }

  lemma {:induction false} WireStays(ys: seq<System>, es: seq<Event>, i: nat, j: nat, id: Id)
    requires IsRun(ys, es) && i <= j < |ys| && id in ys[i].net.wire
    ensures id in ys[j].net.wire && ys[j].net.wire[id] == ys[i].net.wire[id]
  {
    hide Step, Faithful, Sides;
    if i < j {
      WireStays(ys, es, i, j - 1, id);
      RunFaithful(ys, es, j - 1);
      WireStep(ys[j - 1], es[j - 1], id);
    }
  }

  lemma WireStep(y: System, e: Event, id: Id)
    requires Faithful(y.net) && Possible(y, e) && PartyOf(y, e.alice).epoch < |y.net.sent| && id in y.net.wire
    ensures var net' := Step(y, e).net; id in net'.wire && net'.wire[id] == y.net.wire[id]
  {
    hide Result;
    if e.Send? {
      SendFaithful(y.net, PartyOf(y, e.alice), e.aad, e.body);
    }
  }
}
