/**
 Two Double Ratchet parties over a network that reorders, repeats and drops: which messages
 open, that each opens at most once, and when none is lost.
 */
module RatchetDelivery {
  import opened Common
  import opened Ratchet

  datatype Sent = Sent(aad: Bytes, body: Bytes)

  datatype Alien = Alien(alice: bool, key: Key)

  /** The n-th message of chain k. */
  datatype Id = Id(k: nat, n: nat)

  /**
   What both parties' states derive from. `keys` are the ratchet keys in the order they came
   up: Bob's first, Alice's first, Bob's second, and so on; `sent[k]` is what was sent under
   `keys[k]`, `wire` the messages themselves, `read` what has been decrypted, and `alien` the keys
   that opened messages of another origin.
   */
  datatype Net = Net(id: nat, keys: seq<DhKey>, sent: seq<seq<Sent>>, wire: map<Id, Message>, read: set<Id>,
    alien: set<Alien>)

  /** `epoch` is the index of the party's own ratchet key. */
  datatype Party = Party(state: State, epoch: nat)

  datatype System = System(net: Net, alice: Party, bob: Party)

  function Start(id: nat, bobKey: DhKey, aliceKey: DhKey): System {
    System(
      Net(id, [bobKey, aliceKey], [[], []], map[], {}, {}),
      Party(InitAlice(id, aliceKey, bobKey), 1),
      Party(InitBob(id, bobKey), 0))
  }

  // ----- Derived keys ------------------------------------------------------

  function Root(id: nat, keys: seq<DhKey>, k: nat): Key
    requires k < |keys|
  {
    if k == 0 then Agreed(id) else RootOf(Root(id, keys, k - 1), {keys[k], keys[k - 1]})
  }

  /** The first chain key of the chain that is sent under `keys[k]`. */
  function Base(net: Net, k: nat): Key
    requires 0 < k < |net.keys|
  {
    ChainOf(Root(net.id, net.keys, k - 1), {net.keys[k], net.keys[k - 1]})
  }

  function Iter(chain: Key, n: nat): Key {
    if n == 0 then chain else NextOf(Iter(chain, n - 1))
  }

  function MessageKey(net: Net, k: nat, n: nat): Key
    requires 0 < k < |net.keys|
  {
    MessageOf(Iter(Base(net, k), n))
  }

  /** The length of the chain its sender used before chain `k`. */
  function Previous(net: Net, k: nat): nat
    requires k < |net.sent|
  {
    if k >= 3 then |net.sent[k - 2]| else 0
  }

  predicate IsSent(net: Net, k: nat, n: nat) {
    0 < k < |net.keys| && k < |net.sent| && n < |net.sent[k]|
  }

  function MessageFor(net: Net, k: nat, n: nat): Message
    requires IsSent(net, k, n)
  {
    var header := Header(net.keys[k], Previous(net, k), n);
    Message(header, Sealed(MessageKey(net, k, n), header, net.sent[k][n].aad, net.sent[k][n].body))
  }

  // ----- Runs --------------------------------------------------------------

  /**
   A message is given to `decrypt`, or, when `tried`, to `try_decrypt`: one that was posted, or any
   message at all that the network makes up.
   */
  datatype Event =
    | Send(alice: bool, aad: Bytes, body: Bytes)
    | Deliver(alice: bool, k: nat, n: nat, aad: Bytes, next: DhKey, tried: bool)
    | Inject(alice: bool, message: Message, aad: Bytes, next: DhKey, tried: bool)

  function PartyOf(y: System, alice: bool): Party {
    if alice then y.alice else y.bob
  }

  function SetParty(y: System, alice: bool, p: Party): System {
    if alice then y.(alice := p) else y.(bob := p)
  }

  /** Chain `k` is sent by the other party. */
  predicate Incoming(p: Party, k: nat) {
    k % 2 != p.epoch % 2
  }

  predicate IsNew(net: Net, next: DhKey) {
    next !in net.keys && next != LOW_ORDER
  }

  predicate Posted(net: Net, k: nat, n: nat) {
    k < |net.sent| && n < |net.sent[k]| && Id(k, n) in net.wire
  }

  /**
   Any message that was sent to the party may arrive, at any time, with any associated data; new
   ratchet keys are new.
   */
  predicate Possible(y: System, e: Event) {
    match e
    case Send(_, _, _) => true
    case Deliver(_, k, n, _, next, _) => Posted(y.net, k, n) && Incoming(PartyOf(y, e.alice), k) && IsNew(y.net, next)
    case Inject(_, _, _, next, _) => IsNew(y.net, next)
  }

  /** The message an event gives to a party. */
  function Given(y: System, e: Event): Message
    requires Possible(y, e) && !e.Send?
  {
    if e.Deliver? then y.net.wire[Id(e.k, e.n)] else e.message
  }

  function Sending(net: Net, p: Party, aad: Bytes, body: Bytes): (Net, Party)
    requires p.epoch < |net.sent|
  {
    var (s, m) := Encrypt(p.state, aad, body);
    if m.None? then (net, p)
    else
      var chain := net.sent[p.epoch];
      var net' := net.(sent := net.sent[p.epoch := chain + [Sent(aad, body)]],
        wire := net.wire[Id(p.epoch, |chain|) := m.value]);
      (net', p.(state := s))
  }

  ghost function Result(y: System, e: Event): (State, Option<Bytes>)
    requires Possible(y, e) && !e.Send?
  {
    var s, m := PartyOf(y, e.alice).state, Given(y, e);
    if e.tried then TryDecrypt(s, m, e.aad, e.next) else Decrypt(s, m, e.aad, e.next)
  }

  /** A message that opens is read; one of a chain not seen before brings up the receiver's next ratchet key. */
  function Opened(net: Net, p: Party, s: State, k: nat, n: nat, next: DhKey): (Net, Party) {
    var net1 := net.(read := net.read + {Id(k, n)});
    if k == p.epoch + 1
    then (net1.(keys := net.keys + [next], sent := net.sent + [[]]), Party(s, p.epoch + 2))
    else (net1, p.(state := s))
  }

  ghost function Step(y: System, e: Event): System
    requires Possible(y, e) && PartyOf(y, e.alice).epoch < |y.net.sent|
  {
    var p := PartyOf(y, e.alice);
    var r := match e
      case Send(_, aad, body) => Sending(y.net, p, aad, body)
      case Deliver(_, k, n, _, next, _) =>
        var (s, body) := Result(y, e);
        if body.None? then (y.net, p.(state := s)) else Opened(y.net, p, s, k, n, next)
      case Inject(alice, m, _, _, _) =>
        var (s, body) := Result(y, e);
        var alien := if body.Some? && m.ciphertext.Sealed? then {Alien(alice, m.ciphertext.key)} else {};
        (y.net.(alien := y.net.alien + alien), p.(state := s));
    SetParty(y, e.alice, r.1).(net := r.0)
  }

  ghost predicate IsRun(ys: seq<System>, es: seq<Event>) {
    && |ys| == |es| + 1
    && (exists id: nat, b: DhKey, a: DhKey :: b != a && LOW_ORDER !in {a, b} && ys[0] == Start(id, b, a))
    && forall i | 0 <= i < |es| ::
         && Possible(ys[i], es[i])
         && PartyOf(ys[i], es[i].alice).epoch < |ys[i].net.sent|
         && ys[i + 1] == Step(ys[i], es[i])
  }

  // ----- The invariant -----------------------------------------------------

  ghost predicate Shape(net: Net) {
    && |net.sent| == |net.keys|
    && (forall i, j | 0 <= i < j < |net.keys| :: net.keys[i] != net.keys[j])
    && LOW_ORDER !in net.keys
  }

  /** The party's keys are the ones its epoch derives. */
  ghost predicate KeysOk(net: Net, p: Party) {
    var s, j := p.state, p.epoch;
    && j < |net.keys| == |net.sent| <= j + 2
    && s.dhs == net.keys[j]
    && s.rk == Root(net.id, net.keys, j)
    && s.haveDhr == s.haveCks == (j >= 1)
    && s.haveCkr == (j >= 2)
    && (j >= 1 ==> s.dhr == net.keys[j - 1] && s.cks == Iter(Base(net, j), s.ns) && s.ns == |net.sent[j]|)
    && (j >= 2 ==> s.ckr == Iter(Base(net, j - 1), s.nr) && s.nr <= |net.sent[j - 1]|)
    && (j == 0 ==> s.ns == 0)
    && (j < 2 ==> s.nr == 0)
    && s.pn == Previous(net, j)
  }

  /** The receive chain has gone past the message. */
  ghost predicate Passed(net: Net, p: Party, id: Id) {
    && IsSent(net, id.k, id.n) && id.k < p.epoch && Incoming(p, id.k)
    && (id.k + 1 == p.epoch ==> id.n < p.state.nr)
  }

  /** The slot holds the key of a message that was passed over and is not opened. */
  ghost predicate Files(net: Net, p: Party, x: Slot, k: nat)
    requires x in p.state.skipped
  {
    && Passed(net, p, Id(k, x.n)) && Id(k, x.n) !in net.read
    && net.keys[k] == x.dh && p.state.skipped[x] == MessageKey(net, k, x.n)
  }

  ghost predicate CacheOk(net: Net, p: Party) {
    && |p.state.skipped| <= MAX_SKIP
    && forall x | x in p.state.skipped :: exists k: nat :: Files(net, p, x, k)
  }

  ghost predicate OpenedOk(net: Net, p: Party) {
    forall id | id in net.read && Incoming(p, id.k) :: Passed(net, p, id)
  }

  ghost predicate PartyOk(net: Net, p: Party) {
    KeysOk(net, p) && CacheOk(net, p) && OpenedOk(net, p)
  }

  /** The messages on the wire are those their chains and numbers stand for. */
  ghost predicate WireOk(net: Net) {
    && (forall id :: id in net.wire <==> IsSent(net, id.k, id.n))
    && (forall id | id in net.wire :: net.wire[id] == MessageFor(net, id.k, id.n))
  }

  ghost predicate Inv(y: System) {
    && Shape(y.net) && WireOk(y.net)
    && PartyOk(y.net, y.alice) && PartyOk(y.net, y.bob)
    && y.alice.epoch % 2 == 1 && y.bob.epoch % 2 == 0
    && |y.net.keys| == 1 + if y.alice.epoch < y.bob.epoch then y.bob.epoch else y.alice.epoch
  }

  // ----- Keys are told apart -----------------------------------------------

  lemma {:induction false} IterSameBase(a: Key, b: Key, n: nat)
    requires Iter(a, n) == Iter(b, n)
    ensures a == b
  {
    if n > 0 {
      IterSameBase(a, b, n - 1);
    }
  }

  lemma {:induction false} IterDistinct(net: Net, k: nat, m: nat, n: nat)
    requires 0 < k < |net.keys| && Iter(Base(net, k), m) == Iter(Base(net, k), n)
    ensures m == n
  {
    if m > 0 && n > 0 {
      IterDistinct(net, k, m - 1, n - 1);
    }
  }

  lemma {:induction false} RootPrefix(id: nat, keys: seq<DhKey>, more: seq<DhKey>, k: nat)
    requires k < |keys| && keys <= more
    ensures Root(id, more, k) == Root(id, keys, k)
  {
    if k > 0 {
      RootPrefix(id, keys, more, k - 1);
    }
  }

  // ----- Skipping ----------------------------------------------------------

  function Max(a: nat, b: nat): nat {
    if a < b then b else a
  }

  /** A slot that was there, or one of the messages from `lo` up to `hi`. */
  predicate OldOrNew(m: Cache, dh: DhKey, lo: nat, hi: nat, x: Slot) {
    x in m || (x.dh == dh && lo <= x.n < hi)
  }

  ghost predicate AllFiled(m: Cache, dh: DhKey, lo: nat, hi: nat, m': Cache) {
    forall x | OldOrNew(m, dh, lo, hi, x) :: x in m'
  }

  predicate Fits(s: State, until: nat) {
    |s.skipped| + Max(s.nr, until) - s.nr <= MAX_SKIP
  }

  ghost predicate Fresh(s: State) {
    |s.skipped| <= MAX_SKIP && forall n | n >= s.nr :: Slot(s.dhr, n) !in s.skipped
  }

  /** Every slot was there, or is of a message from the head of the chain up to `hi` and holds its key. */
  ghost predicate Origin(s: State, m: Cache, hi: nat, base: Key) {
    forall x | x in m ::
      if x in s.skipped then m[x] == s.skipped[x]
      else x.dh == s.dhr && s.nr <= x.n < hi && m[x] == MessageOf(Iter(base, x.n))
  }

  lemma OriginOf(s: State, m: Cache, hi: nat, base: Key, x: Slot)
    requires Origin(s, m, hi, base) && x in m
    ensures if x in s.skipped then m[x] == s.skipped[x]
            else x.dh == s.dhr && s.nr <= x.n < hi && m[x] == MessageOf(Iter(base, x.n))
  {
  }

  /** Walking the chain from `base` moves only the head of the chain and the cache, and files the right keys. */
  lemma {:induction false} SkipFiles(s: State, until: nat, base: Key)
    requires s.ckr == Iter(base, s.nr) && Fresh(s)
    ensures var r, nr := SkipTo(s, until), Max(s.nr, until);
            && r == s.(ckr := Iter(base, nr), nr := nr, skipped := r.skipped)
            && Fresh(r)
            && Origin(s, r.skipped, nr, base)
    decreases until - s.nr
  {
    if s.nr < until {
      SkipOneFiles(s, base);
      SkipFiles(SkipOne(s), until, base);
    }
  }

  lemma SkipOneFiles(s: State, base: Key)
    requires s.ckr == Iter(base, s.nr) && Fresh(s)
    ensures var r := SkipOne(s);
            && r.ckr == Iter(base, r.nr) && Fresh(r)
            && Slot(s.dhr, s.nr) in r.skipped && r.skipped[Slot(s.dhr, s.nr)] == MessageOf(s.ckr)
            && (forall x | x in r.skipped && x != Slot(s.dhr, s.nr) :: x in s.skipped && r.skipped[x] == s.skipped[x])
            && (|s.skipped| < MAX_SKIP ==>
                  |r.skipped| == |s.skipped| + 1 && forall x | x in s.skipped :: x in r.skipped)
  {
    hide Trimmed, Filed;
    TrimmedFacts(s.skipped);
    FiledFacts(Trimmed(s.skipped), Slot(s.dhr, s.nr), MessageOf(s.ckr));
  }

  /** A full cache drops a slot that was there. */
  lemma SkipOneDrops(s: State) returns (x: Slot)
    requires Fresh(s) && |s.skipped| == MAX_SKIP
    ensures x in s.skipped && x !in SkipOne(s).skipped
  {
    hide Trimmed, Filed;
    TrimmedFacts(s.skipped);
    FiledFacts(Trimmed(s.skipped), Slot(s.dhr, s.nr), MessageOf(s.ckr));
    x :| x in s.skipped && x !in Trimmed(s.skipped);
  }

  lemma TrimmedFacts(m: Cache)
    requires |m| <= MAX_SKIP
    ensures var t := Trimmed(m);
            && |t| < MAX_SKIP
            && (forall x | x in t :: x in m && t[x] == m[x])
            && (|m| < MAX_SKIP ==> t == m)
            && (|m| == MAX_SKIP ==> exists x :: x in m && x !in t)
  {
    if |m| == MAX_SKIP {
      var first := First(m.Keys);
      assert Trimmed(m).Keys == m.Keys - {first};
      assert first in m && first !in Trimmed(m);
    }
  }

  lemma FiledFacts(m: Cache, slot: Slot, key: Key)
    requires slot !in m
    ensures var r := Filed(m, slot, key);
            && |r| == |m| + 1
            && slot in r && r[slot] == key
            && forall x | x != slot :: (x in r <==> x in m) && (x in r ==> r[x] == m[x])
  {
    var r := Filed(m, slot, key);
    assert r.Keys == m.Keys + {slot};
    assert |r| == |r.Keys| && |m| == |m.Keys|;
  }

  /** All slots are kept and filed exactly when they fit. */
  lemma {:induction false} SkipKeepsIff(s: State, until: nat, base: Key)
    requires s.ckr == Iter(base, s.nr) && Fresh(s)
    ensures Fits(s, until) <==> AllFiled(s.skipped, s.dhr, s.nr, Max(s.nr, until), SkipTo(s, until).skipped)
    ensures Fits(s, until) ==> |SkipTo(s, until).skipped| == |s.skipped| + Max(s.nr, until) - s.nr
    decreases until - s.nr
  {
    hide SkipOne;
    if s.nr < until {
      var s1, r := SkipOne(s), SkipTo(s, until);
      assert s1.dhr == s.dhr && s1.nr == s.nr + 1 by {
        assert s1 == SkipOne(s);
        SkipOneShape(s);
      }
      SkipOneFiles(s, base);
      SkipKeepsIff(s1, until, base);
      SkipFiles(s1, until, base);
      if |s.skipped| == MAX_SKIP {
        var x := SkipOneDrops(s);
        assert x !in r.skipped;
      } else {
        assert forall x :: OldOrNew(s.skipped, s.dhr, s.nr, until, x) <==> OldOrNew(s1.skipped, s.dhr, s1.nr, until, x);
      }
    }
  }

  lemma SkipOneShape(s: State)
    ensures SkipOne(s).dhr == s.dhr && SkipOne(s).nr == s.nr + 1
  {
  }

  /** Whatever is in the cache, walking the chain only moves its head and the cache. */
  lemma {:induction false} SkipWalks(s: State, until: nat, base: Key)
    requires s.ckr == Iter(base, s.nr)
    ensures var r, nr := SkipTo(s, until), Max(s.nr, until);
            r == s.(ckr := Iter(base, nr), nr := nr, skipped := r.skipped)
    decreases until - s.nr
  {
    hide Trimmed, Filed;
    if s.nr < until {
      SkipWalks(SkipOne(s), until, base);
    }
  }

  // ----- Which messages open -----------------------------------------------

  /** A key filed earlier, the present chain within the limit, or the next chain when neither skip exceeds the limit. */
  predicate Openable(net: Net, p: Party, k: nat, n: nat)
    requires IsSent(net, k, n)
  {
    var s := p.state;
    || Slot(net.keys[k], n) in s.skipped
    || (k + 1 == p.epoch && s.nr <= n <= s.nr + MAX_SKIP)
    || (k == p.epoch + 1 && n <= MAX_SKIP && (p.epoch >= 2 ==> Previous(net, k) <= s.nr + MAX_SKIP))
  }

  lemma Filing(net: Net, p: Party, k: nat, n: nat)
    requires Shape(net) && PartyOk(net, p) && k < |net.keys| && Slot(net.keys[k], n) in p.state.skipped
    ensures Files(net, p, Slot(net.keys[k], n), k)
  {
    hide KeysOk, OpenedOk;
    var x := Slot(net.keys[k], n);
    var i: nat :| Files(net, p, x, i);
    assert net.keys[i] == net.keys[k];
  }

  /** Nothing of the present or the next chain is filed beyond the head of the receive chain. */
  lemma NothingAhead(net: Net, p: Party)
    requires Shape(net) && PartyOk(net, p)
    ensures Fresh(p.state)
    ensures forall x | x in p.state.skipped :: p.epoch + 1 < |net.keys| ==> x.dh != net.keys[p.epoch + 1]
  {
    forall x | x in p.state.skipped
      ensures x.dh == p.state.dhr ==> x.n < p.state.nr
      ensures p.epoch + 1 < |net.keys| ==> x.dh != net.keys[p.epoch + 1]
    {
      var i: nat :| Files(net, p, x, i);
    }
  }

  /** What the receiver's state becomes when the message opens. */
  ghost function After(net: Net, p: Party, k: nat, n: nat, next: DhKey): State
    requires IsSent(net, k, n)
  {
    var s, slot := p.state, Slot(net.keys[k], n);
    if slot in s.skipped then s.(skipped := s.skipped - {slot})
    else
      var s1 := if k == p.epoch + 1 then DhRatchet(Skip(s, Previous(net, k)), net.keys[k], next) else s;
      s1.(ckr := Iter(Base(net, k), n + 1), nr := n + 1, skipped := SkipTo(s1, n).skipped)
  }

  /** The answer of a delivery: the body and the state after, or nothing and no change. */
  ghost predicate Answers(net: Net, p: Party, k: nat, n: nat, aad: Bytes, next: DhKey)
    requires IsSent(net, k, n)
  {
    var sent := net.sent[k][n];
    TryDecrypt(p.state, MessageFor(net, k, n), aad, next) ==
    if aad == sent.aad && Openable(net, p, k, n) then (After(net, p, k, n, next), Some(sent.body)) else (p.state, None)
  }

  lemma AnswersFiled(net: Net, p: Party, k: nat, n: nat, aad: Bytes, next: DhKey)
    requires Shape(net) && PartyOk(net, p) && IsSent(net, k, n) && Slot(net.keys[k], n) in p.state.skipped
    ensures Answers(net, p, k, n, aad, next)
  {
    hide KeysOk, CacheOk, OpenedOk, Skip, SkipTo;
    Filing(net, p, k, n);
  }

  lemma AnswersCurrent(net: Net, p: Party, k: nat, n: nat, aad: Bytes, next: DhKey)
    requires Shape(net) && KeysOk(net, p) && IsSent(net, k, n) && Slot(net.keys[k], n) !in p.state.skipped
    requires k + 1 == p.epoch
    ensures Answers(net, p, k, n, aad, next)
  {
    hide SkipTo, Base, Iter;
    var s, base := p.state, Base(net, k);
    SkipWalks(s, n, base);
    if n < s.nr && MessageOf(Iter(base, s.nr)) == MessageKey(net, k, n) {
      IterDistinct(net, k, s.nr, n);
      assert false;
    }
    IterNext(base, n);
  }

  lemma IterNext(chain: Key, n: nat)
    ensures Iter(chain, n + 1) == NextOf(Iter(chain, n))
  {
  }

  lemma AnswersNext(net: Net, p: Party, k: nat, n: nat, aad: Bytes, next: DhKey)
    requires Shape(net) && KeysOk(net, p) && IsSent(net, k, n) && Slot(net.keys[k], n) !in p.state.skipped
    requires k == p.epoch + 1
    ensures Answers(net, p, k, n, aad, next)
  {
    hide SkipTo, Iter;
    var s, base := p.state, Base(net, k);
    if s.haveCkr {
      SkipWalks(s, Previous(net, k), Base(net, p.epoch - 1));
    }
    var s1 := DhRatchet(Skip(s, Previous(net, k)), net.keys[k], next);
    assert {net.keys[k], net.keys[p.epoch]} == {net.keys[p.epoch], net.keys[k]};
    IterNone(base);
    assert s1.ckr == base;
    SkipWalks(s1, n, base);
    IterNext(base, n);
    assert s.haveDhr ==> s.dhr != net.keys[k];
  }

  lemma IterNone(chain: Key)
    ensures Iter(chain, 0) == chain
  {
  }

  lemma AnswersOld(net: Net, p: Party, k: nat, n: nat, aad: Bytes, next: DhKey)
    requires Shape(net) && KeysOk(net, p) && IsSent(net, k, n) && Slot(net.keys[k], n) !in p.state.skipped
    requires k + 1 < p.epoch
    ensures Answers(net, p, k, n, aad, next)
  {
    hide SkipTo, Iter;
    var s, j := p.state, p.epoch;
    SkipWalks(s, Previous(net, k), Base(net, j - 1));
    var s1 := DhRatchet(Skip(s, Previous(net, k)), net.keys[k], next);
    IterNone(s1.ckr);
    SkipWalks(s1, n, s1.ckr);
    assert net.keys[j] !in {net.keys[k], net.keys[k - 1]};
    assert s1.ckr != Base(net, k);
    if MessageOf(Iter(s1.ckr, n)) == MessageKey(net, k, n) {
      IterSameBase(s1.ckr, Base(net, k), n);
      assert false;
    }
    assert s.dhr != net.keys[k];
  }

  /**
   A message that was sent opens, to the body that was sent, exactly when its associated data
   arrived unchanged and it is openable; every other delivery leaves the receiver as it was.
   */
  lemma OpensIff(net: Net, p: Party, k: nat, n: nat, aad: Bytes, next: DhKey)
    requires Shape(net) && PartyOk(net, p) && IsSent(net, k, n) && Incoming(p, k)
    ensures Answers(net, p, k, n, aad, next)
  {
    if Slot(net.keys[k], n) in p.state.skipped {
      AnswersFiled(net, p, k, n, aad, next);
    } else if k + 1 == p.epoch {
      AnswersCurrent(net, p, k, n, aad, next);
    } else if k < p.epoch {
      AnswersOld(net, p, k, n, aad, next);
    } else {
      AnswersNext(net, p, k, n, aad, next);
    }
  }

  /** A message that was opened does not open again. */
  lemma OpensOnce(net: Net, p: Party, k: nat, n: nat)
    requires Shape(net) && PartyOk(net, p) && IsSent(net, k, n) && Incoming(p, k) && Id(k, n) in net.read
    ensures !Openable(net, p, k, n)
  {
    assert Passed(net, p, Id(k, n));
    if Slot(net.keys[k], n) in p.state.skipped {
      Filing(net, p, k, n);
      assert false;
    }
  }

  // ----- With and without a rollback ---------------------------------------

  /**
   The deliveries for which it makes no difference whether a failure is rolled back: the message
   opens, its key is filed, or a skip is refused before anything has changed.
   */
  predicate Harmless(net: Net, p: Party, k: nat, n: nat, aad: Bytes) {
    var s := p.state;
    && IsSent(net, k, n)
    && ((aad == net.sent[k][n].aad && Openable(net, p, k, n))
        || Slot(net.keys[k], n) in s.skipped
        || (k + 1 == p.epoch && n > s.nr + MAX_SKIP)
        || (k + 1 != p.epoch && p.epoch >= 2 && Previous(net, k) > s.nr + MAX_SKIP))
  }

  /** A failed attempt on another chain than the present one leaves the receiver with a new ratchet key. */
  lemma DivertedState(net: Net, p: Party, m: Message, aad: Bytes, next: DhKey)
    requires Shape(net) && KeysOk(net, p) && Slot(m.header.dh, m.header.n) !in p.state.skipped
    requires !(p.state.haveDhr && m.header.dh == p.state.dhr) && !SkipRefused(p.state, m.header.pn)
    requires m.header.dh != LOW_ORDER
    ensures var s, s' := p.state, Decrypt(p.state, m, aad, next).0;
            && s'.dhs == next && s'.dhr == m.header.dh && s'.haveDhr && s'.haveCkr
            && s'.ckr == Iter(ChainOf(s.rk, {s.dhs, m.header.dh}), s'.nr)
  {
    hide SkipTo, Iter;
    var s := p.state;
    if s.haveCkr {
      SkipWalks(s, m.header.pn, Base(net, p.epoch - 1));
    }
    var s1 := DhRatchet(Skip(s, m.header.pn), m.header.dh, next);
    IterNone(s1.ckr);
    SkipWalks(s1, m.header.n, s1.ckr);
    IterNext(s1.ckr, Max(0, m.header.n));
  }

  /** On the present chain a failure costs the key at the head, unless the skip to the message is refused. */
  lemma HarmlessOnPresent(net: Net, p: Party, k: nat, n: nat, aad: Bytes, next: DhKey)
    requires KeysOk(net, p) && IsSent(net, k, n) && k + 1 == p.epoch && Slot(net.keys[k], n) !in p.state.skipped
    ensures Decrypt(p.state, MessageFor(net, k, n), aad, next).0 == p.state <==> n > p.state.nr + MAX_SKIP
  {
    hide SkipTo, Iter, MessageKey;
    SkipWalks(p.state, n, Base(net, k));
  }

  /** On another chain it costs the ratchet key, unless the skip to the end of the present chain is refused. */
  lemma HarmlessElsewhere(net: Net, p: Party, k: nat, n: nat, aad: Bytes, next: DhKey)
    requires Shape(net) && KeysOk(net, p) && IsSent(net, k, n) && k + 1 != p.epoch && next !in net.keys
    requires Slot(net.keys[k], n) !in p.state.skipped
    ensures Decrypt(p.state, MessageFor(net, k, n), aad, next).0 == p.state <==>
            p.epoch >= 2 && Previous(net, k) > p.state.nr + MAX_SKIP
  {
    hide SkipTo, Iter, Root, Base, MessageKey;
    var s, m := p.state, MessageFor(net, k, n);
    assert !(s.haveDhr && net.keys[k] == s.dhr) && net.keys[k] != LOW_ORDER && s.dhs in net.keys;
    hide Shape;
    if !SkipRefused(s, Previous(net, k)) {
      DivertedState(net, p, m, aad, next);
      hide Decrypt;
      assert Decrypt(s, m, aad, next).0.dhs != s.dhs;
    }
  }

  /** `decrypt` does what `try_decrypt` does exactly on the harmless deliveries. */
  lemma HarmlessIff(net: Net, p: Party, k: nat, n: nat, aad: Bytes, next: DhKey)
    requires Shape(net) && PartyOk(net, p) && IsSent(net, k, n) && Incoming(p, k) && next !in net.keys
    ensures var m := MessageFor(net, k, n);
            Decrypt(p.state, m, aad, next) == TryDecrypt(p.state, m, aad, next) <==> Harmless(net, p, k, n, aad)
  {
    hide After;
    OpensIff(net, p, k, n, aad, next);
    var s, m := p.state, MessageFor(net, k, n);
    if Slot(net.keys[k], n) in s.skipped {
      hide Shape, PartyOk, SkipTo;
      FailsFiled(s, m, aad, next);
    } else {
      NoThrow(net, s, k, n);
      if k + 1 == p.epoch {
        HarmlessOnPresent(net, p, k, n, aad, next);
      } else {
        HarmlessElsewhere(net, p, k, n, aad, next);
      }
      hide Shape, PartyOk, Decrypt, Throws, MessageFor;
    }
  }

  lemma FailsFiled(s: State, m: Message, aad: Bytes, next: DhKey)
    requires Slot(m.header.dh, m.header.n) in s.skipped
    ensures Decrypt(s, m, aad, next) == TryDecrypt(s, m, aad, next)
  {
    hide UseNext;
  }

  lemma NoThrow(net: Net, s: State, k: nat, n: nat)
    requires Shape(net) && IsSent(net, k, n)
    ensures !Throws(s, MessageFor(net, k, n))
  {
    hide MessageKey;
  }

  /**
   A message of an old chain that is not filed, decrypted outright, diverts the receiver to the
   old ratchet key: from then on no message of any chain opens unless its key is filed.
   */
  lemma OldDuplicateDiverts(
    net: Net, p: Party, k: nat, n: nat, aad: Bytes, next: DhKey, k': nat, n': nat, aad': Bytes, next': DhKey)
    requires Shape(net) && PartyOk(net, p) && IsSent(net, k, n) && Incoming(p, k) && next !in net.keys
    requires k + 1 < p.epoch && !Harmless(net, p, k, n, aad) && IsSent(net, k', n')
    ensures var s' := Decrypt(p.state, MessageFor(net, k, n), aad, next).0;
            && s'.dhr == net.keys[k] != p.state.dhr
            && (Slot(net.keys[k'], n') !in s'.skipped ==> TryDecrypt(s', MessageFor(net, k', n'), aad', next').1.None?)
  {
    hide CacheOk, OpenedOk, SkipTo, Iter;
    var s, m, m' := p.state, MessageFor(net, k, n), MessageFor(net, k', n');
    assert p.state.dhr != net.keys[k];
    DivertedState(net, p, m, aad, next);
    var s' := Decrypt(s, m, aad, next).0;
    if Slot(net.keys[k'], n') !in s'.skipped {
      var junk := ChainOf(s.rk, {s.dhs, net.keys[k]});
      if net.keys[k'] == s'.dhr {
        assert net.keys[p.epoch] !in {net.keys[k], net.keys[k - 1]};
        NotItsChain(net, k', n', junk, Max(s'.nr, n'));
        SkipWalks(s', n', junk);
      } else if !SkipRefused(s', m'.header.pn) {
        SkipWalks(s', m'.header.pn, junk);
        var s1 := DhRatchet(Skip(s', m'.header.pn), net.keys[k'], next');
        assert next in {next, net.keys[k']} && next !in {net.keys[k'], net.keys[k' - 1]};
        IterNone(s1.ckr);
        SkipWalks(s1, n', s1.ckr);
        NotItsChain(net, k', n', s1.ckr, n');
      }
    }
  }

  /** Keys of another chain are not the message's. */
  lemma NotItsChain(net: Net, k: nat, n: nat, base: Key, i: nat)
    requires 0 < k < |net.keys| && base.ChainOf? && base != Base(net, k)
    ensures MessageOf(Iter(base, i)) != MessageKey(net, k, n)
  {
    if Iter(base, i) == Iter(Base(net, k), n) {
      IterSame(base, Base(net, k), i, n);
      assert false;
    }
  }

  lemma {:induction false} IterSame(a: Key, b: Key, i: nat, j: nat)
    requires a.ChainOf? && b.ChainOf? && Iter(a, i) == Iter(b, j)
    ensures a == b && i == j
  {
    if i > 0 && j > 0 {
      IterSame(a, b, i - 1, j - 1);
    }
  }

  /**
   A header key of low order, in a message that starts a ratchet step: the exception leaves the
   receiver half way, in `decrypt` and `try_decrypt` alike. Its counters are those of the new step,
   while its root and send chain are still the old ones.
   */
  lemma LowOrderHalfway(s: State, m: Message, aad: Bytes, next: DhKey)
    requires m.header.dh == LOW_ORDER && Slot(LOW_ORDER, m.header.n) !in s.skipped
    requires !(s.haveDhr && s.dhr == LOW_ORDER) && !(s.haveCkr && m.header.pn > s.nr + MAX_SKIP)
    ensures var (s', body) := Decrypt(s, m, aad, next);
            && TryDecrypt(s, m, aad, next) == (s', body) && body.None?
            && s'.haveDhr && s'.dhr == LOW_ORDER && s'.nr == 0 && s'.ns == 0 && s'.pn == s.ns
            && s'.rk == s.rk && s'.cks == s.cks && s'.haveCks == s.haveCks && s'.dhs == s.dhs
  {
    SkipLeaves(s, m.header.pn);
    hide SkipTo;
  }

  lemma {:induction false} SkipLeaves(s: State, until: nat)
    ensures var s' := SkipTo(s, until);
            s' == s.(ckr := s'.ckr, nr := s'.nr, skipped := s'.skipped)
    decreases until - s.nr
  {
    if s.nr < until {
      SkipLeaves(SkipOne(s), until);
    }
  }
}
