/** Every send and every delivery keeps what ties the two Double Ratchet parties together. */
module RatchetInvariants {
  import opened Common
  import opened Ratchet
  import opened RatchetDelivery

  // ----- A delivery that opens ---------------------------------------------

  function Read(net: Net, k: nat, n: nat): Net {
    net.(read := net.read + {Id(k, n)})
  }

  lemma SameBase(net: Net, net': Net, k: nat)
    requires net.id == net'.id && net.keys <= net'.keys && 0 < k < |net.keys|
    ensures Base(net', k) == Base(net, k) && forall n: nat :: MessageKey(net', k, n) == MessageKey(net, k, n)
  {
    RootPrefix(net.id, net.keys, net'.keys, k - 1);
  }

  /** A slot stays good when its message stays passed over and unread. */
  lemma FilesStill(net: Net, net': Net, p: Party, p': Party, x: Slot, i: nat)
    requires x in p.state.skipped && Files(net, p, x, i)
    requires net.id == net'.id && net.keys <= net'.keys
    requires x in p'.state.skipped && p'.state.skipped[x] == p.state.skipped[x]
    requires Passed(net', p', Id(i, x.n)) && Id(i, x.n) !in net'.read
    ensures Files(net', p', x, i)
  {
    hide Passed;
    PassedIsSent(net, p, Id(i, x.n));
    SameBase(net, net', i);
  }

  lemma PassedIsSent(net: Net, p: Party, id: Id)
    requires Passed(net, p, id)
    ensures IsSent(net, id.k, id.n)
  {
  }

  /** Reading and filing leave the keys alone. */
  lemma KeysOfRead(net: Net, p: Party, read: set<Id>, cache: Cache)
    requires KeysOk(net, p)
    ensures KeysOk(net.(read := read), p.(state := p.state.(skipped := cache)))
  {
    var net', j := net.(read := read), p.epoch;
    if j >= 1 { SameBase(net, net', j); }
    if j >= 2 { SameBase(net, net', j - 1); }
  }

  lemma SmallerCache(m: Cache, slot: Slot)
    ensures |m - {slot}| <= |m|
  {
    assert (m - {slot}).Keys == m.Keys - {slot};
    assert |m - {slot}| == |(m - {slot}).Keys| && |m| == |m.Keys|;
  }

  lemma FiledCache(net: Net, p: Party, k: nat, n: nat, next: DhKey)
    requires CacheOk(net, p) && IsSent(net, k, n) && Slot(net.keys[k], n) in p.state.skipped
    ensures CacheOk(Read(net, k, n), p.(state := After(net, p, k, n, next)))
  {
    hide SkipTo, Skip, Iter, Base, Root, MessageKey;
    var net', p' := Read(net, k, n), p.(state := After(net, p, k, n, next));
    SmallerCache(p.state.skipped, Slot(net.keys[k], n));
    forall x | x in p'.state.skipped
      ensures exists i: nat :: Files(net', p', x, i)
    {
      var i: nat :| Files(net, p, x, i);
      FilesStill(net, net', p, p', x, i);
    }
  }

  lemma ReadFiled(net: Net, p: Party, k: nat, n: nat, next: DhKey)
    requires Shape(net) && PartyOk(net, p) && IsSent(net, k, n) && Incoming(p, k)
    requires Slot(net.keys[k], n) in p.state.skipped
    ensures PartyOk(Read(net, k, n), p.(state := After(net, p, k, n, next)))
  {
    hide SkipTo, Skip, Iter, Base, Root, KeysOk, CacheOk, Shape;
    var net', p' := Read(net, k, n), p.(state := After(net, p, k, n, next));
    Filing(net, p, k, n);
    FiledCache(net, p, k, n, next);
    KeysOfRead(net, p, net'.read, p'.state.skipped);
    assert Passed(net, p, Id(k, n));
    forall id | id in net'.read && Incoming(p', id.k)
      ensures Passed(net', p', id)
    {
      assert Passed(net, p, id);
    }
  }

  lemma CurrentKeys(net: Net, p: Party, k: nat, n: nat, next: DhKey)
    requires PartyOk(net, p) && IsSent(net, k, n) && Slot(net.keys[k], n) !in p.state.skipped && k + 1 == p.epoch
    ensures KeysOk(Read(net, k, n), p.(state := After(net, p, k, n, next)))
  {
    hide SkipTo, Iter, CacheOk, OpenedOk;
    var net' := Read(net, k, n);
    KeysOfRead(net, p, net'.read, p.state.skipped);
    SameBase(net, net', k);
  }

  /** A slot of the cache is good. */
  lemma FiledSomewhere(net: Net, p: Party, x: Slot) returns (i: nat)
    requires CacheOk(net, p) && x in p.state.skipped
    ensures Files(net, p, x, i)
  {
    i :| Files(net, p, x, i);
  }

  /** What was passed over stays so when the head of the chain moves on or a ratchet step is taken. */
  lemma PassedStill(net: Net, net': Net, p: Party, p': Party, id: Id)
    requires Passed(net, p, id) && IsSent(net', id.k, id.n)
    requires (p'.epoch == p.epoch && p'.state.nr >= p.state.nr) || p'.epoch == p.epoch + 2
    ensures Passed(net', p', id)
  {
  }

  /** A slot filed before, once another message is read. */
  lemma OldSlot(net: Net, net': Net, p: Party, p': Party, x: Slot, read: Id) returns (i: nat)
    requires CacheOk(net, p) && x in p.state.skipped && !Passed(net, p, read)
    requires x in p'.state.skipped && p'.state.skipped[x] == p.state.skipped[x]
    requires net.id == net'.id && net.keys <= net'.keys && net.sent <= net'.sent && net'.read == net.read + {read}
    requires (p'.epoch == p.epoch && p'.state.nr >= p.state.nr) || p'.epoch == p.epoch + 2
    ensures Files(net', p', x, i)
  {
    i := FiledSomewhere(net, p, x);
    hide CacheOk, MessageKey;
    PassedStill(net, net', p, p', Id(i, x.n));
    FilesStill(net, net', p, p', x, i);
  }

  /** A slot filed by this very delivery. */
  lemma NewSlot(net: Net, net': Net, p: Party, p': Party, x: Slot, k: nat, read: Id)
    requires OpenedOk(net, p) && Incoming(p, k) && !Passed(net, p, Id(k, x.n)) && Id(k, x.n) != read
    requires net.id == net'.id && net.keys <= net'.keys && net'.read == net.read + {read}
    requires 0 < k < |net.keys| && Passed(net', p', Id(k, x.n))
    requires x in p'.state.skipped && x.dh == net.keys[k] && p'.state.skipped[x] == MessageKey(net, k, x.n)
    ensures Files(net', p', x, k)
  {
    NotReadAhead(net, p, Id(k, x.n));
    SameBase(net, net', k);
  }

  /** The slots between the old and the new head of a chain hold keys of messages not read. */
  lemma CurrentFiles(net: Net, p: Party, k: nat, n: nat, next: DhKey, x: Slot) returns (i: nat)
    requires Shape(net) && PartyOk(net, p) && IsSent(net, k, n) && Incoming(p, k)
    requires Slot(net.keys[k], n) !in p.state.skipped && k + 1 == p.epoch && p.state.nr <= n
    requires x in After(net, p, k, n, next).skipped
    ensures Files(Read(net, k, n), p.(state := After(net, p, k, n, next)), x, i)
  {
    NothingAhead(net, p);
    SkipFiles(p.state, n, Base(net, k));
    OriginOf(p.state, SkipTo(p.state, n).skipped, n, Base(net, k), x);
    hide SkipTo, Skip, Iter, Base, Root, Shape, CacheOk, OpenedOk, Fresh, Files, Origin;
    var net', p' := Read(net, k, n), p.(state := After(net, p, k, n, next));
    if x in p.state.skipped {
      i := OldSlot(net, net', p, p', x, Id(k, n));
    } else {
      i := k;
      NewSlot(net, net', p, p', x, k, Id(k, n));
    }
  }

  lemma CurrentCache(net: Net, p: Party, k: nat, n: nat, next: DhKey)
    requires Shape(net) && PartyOk(net, p) && IsSent(net, k, n) && Incoming(p, k)
    requires Slot(net.keys[k], n) !in p.state.skipped && k + 1 == p.epoch && p.state.nr <= n
    ensures CacheOk(Read(net, k, n), p.(state := After(net, p, k, n, next)))
  {
    NothingAhead(net, p);
    SkipFiles(p.state, n, Base(net, k));
    hide SkipTo, Skip, Iter, Base, Root, Shape, Files, PartyOk, Origin;
    var net', p' := Read(net, k, n), p.(state := After(net, p, k, n, next));
    forall x | x in p'.state.skipped
      ensures exists i: nat :: Files(net', p', x, i)
    {
      var i := CurrentFiles(net, p, k, n, next, x);
    }
  }

  lemma ReadCurrent(net: Net, p: Party, k: nat, n: nat, next: DhKey)
    requires Shape(net) && PartyOk(net, p) && IsSent(net, k, n) && Incoming(p, k)
    requires Slot(net.keys[k], n) !in p.state.skipped && k + 1 == p.epoch && p.state.nr <= n
    ensures PartyOk(Read(net, k, n), p.(state := After(net, p, k, n, next)))
  {
    hide KeysOk, CacheOk, Shape;
    CurrentKeys(net, p, k, n, next);
    CurrentCache(net, p, k, n, next);
    var net', p' := Read(net, k, n), p.(state := After(net, p, k, n, next));
    forall id | id in net'.read && Incoming(p', id.k)
      ensures Passed(net', p', id)
    {
      assert id != Id(k, n) ==> Passed(net, p, id);
    }
  }

  /** The network once the receiver has brought up its next ratchet key. */
  function Extended(net: Net, next: DhKey): Net {
    net.(keys := net.keys + [next], sent := net.sent + [[]])
  }

  lemma ExtendedShape(net: Net, next: DhKey)
    requires Shape(net) && IsNew(net, next)
    ensures Shape(Extended(net, next))
  {
  }

  /** The keys after a ratchet step are those of two epochs later. */
  lemma NextKeys(net: Net, p: Party, k: nat, n: nat, next: DhKey)
    requires Shape(net) && PartyOk(net, p) && IsSent(net, k, n) && next !in net.keys && k == p.epoch + 1
    requires Slot(net.keys[k], n) !in p.state.skipped
    ensures KeysOk(Extended(Read(net, k, n), next), Party(After(net, p, k, n, next), p.epoch + 2))
  {
    hide SkipTo, Iter, CacheOk, OpenedOk;
    var s, j := p.state, p.epoch;
    var net', s' := Extended(Read(net, k, n), next), After(net, p, k, n, next);
    if s.haveCkr {
      SkipWalks(s, Previous(net, k), Base(net, j - 1));
    }
    SameBase(net, net', k);
    RootPrefix(net.id, net.keys, net'.keys, j);
    assert {net.keys[k], net.keys[j]} == {net.keys[j], net.keys[k]};
    assert net'.keys[j + 2] == next && net'.keys[k] == net.keys[k];
    IterNone(Base(net', j + 2));
  }

  lemma ReadNext(net: Net, p: Party, k: nat, n: nat, next: DhKey)
    requires Shape(net) && PartyOk(net, p) && IsSent(net, k, n) && next !in net.keys && k == p.epoch + 1
    requires Slot(net.keys[k], n) !in p.state.skipped
    ensures PartyOk(Extended(Read(net, k, n), next), Party(After(net, p, k, n, next), p.epoch + 2))
  {
    NextKeys(net, p, k, n, next);
    var net', p' := Extended(Read(net, k, n), next), Party(After(net, p, k, n, next), p.epoch + 2);
    NextCache(net, p, k, n, next);
    forall id | id in net'.read && Incoming(p', id.k)
      ensures Passed(net', p', id)
    {
      assert id != Id(k, n) ==> Passed(net, p, id);
    }
  }

  /** The cache after the first of the two skips of a ratchet step, and that nothing of the new chain is in it. */
  lemma RatchetedCache(net: Net, p: Party, k: nat, next: DhKey)
    requires Shape(net) && PartyOk(net, p) && k == p.epoch + 1 && k < |net.keys|
    ensures var s, pn := p.state, Previous(net, k);
            var s1 := DhRatchet(Skip(s, pn), net.keys[k], next);
            && Fresh(s1) && s1.skipped == Skip(s, pn).skipped && s1.nr == 0 && s1.dhr == net.keys[k]
            && s1.ckr == Iter(Base(net, k), 0)
            && (p.epoch < 2 ==> s1.skipped == s.skipped)
            && (p.epoch >= 2 ==> Origin(s, s1.skipped, Max(s.nr, pn), Base(net, p.epoch - 1)))
  {
    assert |net.sent| == |net.keys|;
    hide SkipTo, Iter, Origin, Fresh, PartyOk, Shape, DhRatchet, Skip, Root, Base;
    RatchetedChain(net, p, k, next);
    SkippedOrigin(net, p, k);
    var s, j, pn := p.state, p.epoch, Previous(net, k);
    var s1 := DhRatchet(Skip(s, pn), net.keys[k], next);
    forall x | x in s1.skipped
      ensures x.dh != net.keys[k]
    {
      if j >= 2 {
        OriginOf(s, s1.skipped, Max(s.nr, pn), Base(net, j - 1), x);
      }
    }
  }

  lemma RatchetedChain(net: Net, p: Party, k: nat, next: DhKey)
    requires PartyOk(net, p) && k == p.epoch + 1 && k < |net.keys|
    ensures var s, pn := p.state, Previous(net, k);
            var s1 := DhRatchet(Skip(s, pn), net.keys[k], next);
            s1.skipped == Skip(s, pn).skipped && s1.nr == 0 && s1.dhr == net.keys[k] && s1.ckr == Iter(Base(net, k), 0)
  {
    hide SkipTo, Iter, CacheOk, OpenedOk;
    var s, j := p.state, p.epoch;
    if s.haveCkr {
      SkipWalks(s, Previous(net, k), Base(net, j - 1));
    }
    assert {net.keys[k], net.keys[j]} == {net.keys[j], net.keys[k]};
    IterNone(Base(net, k));
  }

  /** What the first skip of a ratchet step leaves in the cache. */
  lemma SkippedOrigin(net: Net, p: Party, k: nat)
    requires Shape(net) && PartyOk(net, p) && k == p.epoch + 1 && k < |net.keys|
    ensures var s, pn := p.state, Previous(net, k);
            var m := Skip(s, pn).skipped;
            && |m| <= MAX_SKIP
            && (p.epoch < 2 ==> m == s.skipped)
            && (p.epoch >= 2 ==> Origin(s, m, Max(s.nr, pn), Base(net, p.epoch - 1)) && s.dhr != net.keys[k])
            && forall x | x in s.skipped :: x.dh != net.keys[k]
  {
    NothingAhead(net, p);
    hide SkipTo, Iter, Origin, Fresh, CacheOk, OpenedOk, Root, Base;
    var s := p.state;
    FreshSize(s);
    if s.haveCkr {
      assert s.dhr == net.keys[p.epoch - 1];
      hide Shape;
      SkipFiles(s, Previous(net, k), Base(net, p.epoch - 1));
      FreshSize(SkipTo(s, Previous(net, k)));
    }
  }

  lemma FreshSize(s: State)
    requires Fresh(s)
    ensures |s.skipped| <= MAX_SKIP
  {
  }

  lemma NotReadAhead(net: Net, p: Party, id: Id)
    requires OpenedOk(net, p) && Incoming(p, id.k) && !Passed(net, p, id)
    ensures id !in net.read
  {
  }

  /**
   Where the slots of the cache after a ratchet step come from: the cache before, the chain that
   ended, the new chain.
   */
  lemma NextSlot(net: Net, p: Party, k: nat, n: nat, next: DhKey, x: Slot)
    requires Shape(net) && PartyOk(net, p) && IsSent(net, k, n) && k == p.epoch + 1
    requires Slot(net.keys[k], n) !in p.state.skipped && x in After(net, p, k, n, next).skipped
    ensures var s, j, key := p.state, p.epoch, After(net, p, k, n, next).skipped[x];
            || (x in s.skipped && key == s.skipped[x])
            || (j >= 2 && x.dh == net.keys[j - 1] && s.nr <= x.n < |net.sent[j - 1]|
                && key == MessageKey(net, j - 1, x.n))
            || (x.dh == net.keys[k] && x.n < n && key == MessageKey(net, k, x.n))
    ensures After(net, p, k, n, next).nr == n + 1
  {
    hide SkipTo, Skip, Iter, Root, Base, Shape, CacheOk, OpenedOk, Fresh, Origin;
    RatchetedCache(net, p, k, next);
    var s, j := p.state, p.epoch;
    var s1 := DhRatchet(Skip(s, Previous(net, k)), net.keys[k], next);
    SkipFiles(s1, n, Base(net, k));
    OriginOf(s1, SkipTo(s1, n).skipped, n, Base(net, k), x);
    if x in s1.skipped && j >= 2 {
      OriginOf(s, s1.skipped, Max(s.nr, Previous(net, k)), Base(net, j - 1), x);
    }
  }

  /** The messages that a ratchet step passes over. */
  lemma NextPassed(net: Net, p: Party, s': State, i: nat, m: nat, n: nat, next: DhKey)
    requires KeysOk(net, p) && IsSent(net, i, m) && s'.nr == n + 1 && p.epoch + 1 < |net.keys|
    requires (i == p.epoch + 1 && m < n) || (i + 1 == p.epoch && p.state.nr <= m)
    ensures Incoming(p, i) && !Passed(net, p, Id(i, m))
    ensures Passed(Extended(Read(net, p.epoch + 1, n), next), Party(s', p.epoch + 2), Id(i, m))
  {
    hide Root, Base, Iter;
  }

  lemma NextFiles(net: Net, p: Party, k: nat, n: nat, next: DhKey, x: Slot) returns (i: nat)
    requires Shape(net) && PartyOk(net, p) && IsSent(net, k, n) && next !in net.keys && k == p.epoch + 1
    requires Slot(net.keys[k], n) !in p.state.skipped && x in After(net, p, k, n, next).skipped
    ensures Files(Extended(Read(net, k, n), next), Party(After(net, p, k, n, next), p.epoch + 2), x, i)
  {
    NextSlot(net, p, k, n, next, x);
    hide After, CacheOk, OpenedOk, Files, MessageKey, Root, Base, Shape;
    var s, j := p.state, p.epoch;
    var net', p' := Extended(Read(net, k, n), next), Party(After(net, p, k, n, next), j + 2);
    var key := p'.state.skipped[x];
    if x in s.skipped && key == s.skipped[x] {
      hide KeysOk;
      i := OldSlot(net, net', p, p', x, Id(k, n));
    } else {
      i := if x.dh == net.keys[k] && x.n < n && key == MessageKey(net, k, x.n) then k else j - 1;
      NextPassed(net, p, p'.state, i, x.n, n, next);
      hide Passed, KeysOk, Incoming;
      NewSlot(net, net', p, p', x, i, Id(k, n));
    }
  }

  lemma NextCache(net: Net, p: Party, k: nat, n: nat, next: DhKey)
    requires Shape(net) && PartyOk(net, p) && IsSent(net, k, n) && next !in net.keys && k == p.epoch + 1
    requires Slot(net.keys[k], n) !in p.state.skipped
    ensures CacheOk(Extended(Read(net, k, n), next), Party(After(net, p, k, n, next), p.epoch + 2))
  {
    RatchetedCache(net, p, k, next);
    SkipFiles(DhRatchet(Skip(p.state, Previous(net, k)), net.keys[k], next), n, Base(net, k));
    hide SkipTo, Skip, Iter, Root, Base, Shape, Files, PartyOk, Origin;
    var net', p' := Extended(Read(net, k, n), next), Party(After(net, p, k, n, next), p.epoch + 2);
    forall x | x in p'.state.skipped
      ensures exists i: nat :: Files(net', p', x, i)
    {
      var i := NextFiles(net, p, k, n, next, x);
    }
  }

  // ----- The party that does not act ---------------------------------------

  /** The network grows without touching what concerns `q`: its own chains and the messages it has read. */
  ghost predicate GrowsFor(net: Net, net': Net, q: Party) {
    && net.id == net'.id && net.keys <= net'.keys
    && |net.keys| == |net.sent| && |net'.keys| == |net'.sent| <= q.epoch + 2
    && (forall k | 0 <= k < |net.sent| :: net.sent[k] <= net'.sent[k])
    && (forall k | 0 <= k < |net.sent| && !Incoming(q, k) :: net.sent[k] == net'.sent[k])
    && (forall id: Id | Incoming(q, id.k) :: id in net.read <==> id in net'.read)
  }

  /** What the party has read and filed is unaffected by what it or the other sends. */
  lemma CacheKeeps(net: Net, net': Net, q: Party, q': Party)
    requires CacheOk(net, q) && OpenedOk(net, q)
    requires q'.epoch == q.epoch && q'.state.skipped == q.state.skipped && q'.state.nr == q.state.nr
    requires net.id == net'.id && net.keys <= net'.keys && |net.keys| == |net.sent| <= |net'.sent|
    requires forall k | 0 <= k < |net.sent| :: |net.sent[k]| <= |net'.sent[k]|
    requires forall id: Id | Incoming(q, id.k) :: id in net.read <==> id in net'.read
    ensures CacheOk(net', q') && OpenedOk(net', q')
  {
    hide Iter, Root, Base;
    forall x | x in q'.state.skipped
      ensures exists i: nat :: Files(net', q', x, i)
    {
      var i: nat :| Files(net, q, x, i);
      FilesStill(net, net', q, q', x, i);
    }
    forall id | id in net'.read && Incoming(q', id.k)
      ensures Passed(net', q', id)
    {
      assert Passed(net, q, id);
    }
  }

  lemma OtherKeeps(net: Net, net': Net, q: Party)
    requires PartyOk(net, q) && GrowsFor(net, net', q)
    ensures PartyOk(net', q)
  {
    hide Iter, CacheOk, OpenedOk;
    var j := q.epoch;
    RootPrefix(net.id, net.keys, net'.keys, j);
    if j >= 1 { SameBase(net, net', j); }
    if j >= 2 { SameBase(net, net', j - 1); }
    CacheKeeps(net, net', q, q);
  }

  // ----- Steps -------------------------------------------------------------

  lemma SendKeeps(net: Net, p: Party, aad: Bytes, body: Bytes)
    requires Shape(net) && PartyOk(net, p)
    ensures var (net', p') := Sending(net, p, aad, body); Shape(net') && PartyOk(net', p')
  {
    hide CacheOk, OpenedOk, Iter;
    if p.state.haveCks {
      var (net', p') := Sending(net, p, aad, body);
      var j := p.epoch;
      SameBase(net, net', j);
      if j >= 2 { SameBase(net, net', j - 1); }
      IterNext(Base(net, j), p.state.ns);
      CacheKeeps(net, net', p, p');
    }
  }

  /** What a delivery does, without reference to how a message is decrypted. */
  ghost function Delivered(net: Net, p: Party, k: nat, n: nat, aad: Bytes, next: DhKey): (Net, Party)
    requires IsSent(net, k, n)
  {
    if aad != net.sent[k][n].aad || !Openable(net, p, k, n) then (net, p)
    else if k == p.epoch + 1 then (Extended(Read(net, k, n), next), Party(After(net, p, k, n, next), p.epoch + 2))
    else (Read(net, k, n), p.(state := After(net, p, k, n, next)))
  }

  /** A made-up message that is sealed under no message key, and starts no ratchet step that throws. */
  predicate Inert(s: State, m: Message) {
    (m.ciphertext.Sealed? ==> !m.ciphertext.key.MessageOf?) && !Throws(s, m)
  }

  /** Every delivery without a rollback is one that needs none, and every made-up message is inert and only tried. */
  ghost predicate Careful(y: System, e: Event) {
    var p := PartyOf(y, e.alice);
    match e
    case Send(_, _, _) => true
    case Deliver(_, k, n, aad, _, tried) => tried || Harmless(y.net, p, k, n, aad)
    case Inject(_, m, _, _, tried) => tried && Inert(p.state, m)
  }

  /** An inert message leaves no trace. */
  lemma InertLeavesNoTrace(net: Net, p: Party, m: Message, aad: Bytes, next: DhKey)
    requires PartyOk(net, p) && Inert(p.state, m)
    ensures TryDecrypt(p.state, m, aad, next) == (p.state, None)
  {
    hide SkipTo, KeysOk, OpenedOk;
    var slot := Slot(m.header.dh, m.header.n);
    if slot in p.state.skipped {
      var i := FiledSomewhere(net, p, slot);
    }
  }

  lemma InvParty(y: System, alice: bool)
    requires Inv(y)
    ensures Shape(y.net) && PartyOk(y.net, PartyOf(y, alice))
  {
    hide Shape, PartyOk;
  }

  lemma InjectIs(y: System, e: Event)
    requires Inv(y) && Possible(y, e) && e.Inject? && Careful(y, e) && PartyOf(y, e.alice).epoch < |y.net.sent|
    ensures Result(y, e).1.None? && Step(y, e) == y
  {
    hide TryDecrypt, Inert, Inv, PartyOk;
    InvParty(y, e.alice);
    InertLeavesNoTrace(y.net, PartyOf(y, e.alice), e.message, e.aad, e.next);
    assert y.net.alien + {} == y.net.alien;
  }

  lemma ResultIs(y: System, e: Event)
    requires Inv(y) && Possible(y, e) && e.Deliver? && Careful(y, e)
    ensures IsSent(y.net, e.k, e.n)
    ensures var net, p, sent := y.net, PartyOf(y, e.alice), y.net.sent[e.k][e.n];
            Result(y, e) ==
            if e.aad == sent.aad && Openable(net, p, e.k, e.n) then (After(net, p, e.k, e.n, e.next), Some(sent.body))
            else (p.state, None)
  {
    hide TryDecrypt, Decrypt, PartyOk, Shape, After, Openable, Harmless;
    var p := PartyOf(y, e.alice);
    assert Id(e.k, e.n) in y.net.wire;
    OpensIff(y.net, p, e.k, e.n, e.aad, e.next);
    HarmlessIff(y.net, p, e.k, e.n, e.aad, e.next);
  }

  lemma DeliverIs(y: System, e: Event)
    requires Inv(y) && Possible(y, e) && e.Deliver? && Careful(y, e) && PartyOf(y, e.alice).epoch < |y.net.sent|
    ensures IsSent(y.net, e.k, e.n)
    ensures var r := Delivered(y.net, PartyOf(y, e.alice), e.k, e.n, e.aad, e.next);
            Step(y, e) == SetParty(y, e.alice, r.1).(net := r.0)
  {
    hide Inv, Result, After, Openable;
    ResultIs(y, e);
  }

  lemma DeliverKeeps(net: Net, p: Party, k: nat, n: nat, aad: Bytes, next: DhKey)
    requires Shape(net) && PartyOk(net, p) && IsSent(net, k, n) && Incoming(p, k) && IsNew(net, next)
    ensures var (net', p') := Delivered(net, p, k, n, aad, next); Shape(net') && PartyOk(net', p')
  {
    hide PartyOk, After;
    if aad == net.sent[k][n].aad && Openable(net, p, k, n) {
      if Slot(net.keys[k], n) in p.state.skipped {
        FiledIsOld(net, p, k, n);
        ReadFiled(net, p, k, n, next);
      } else if k + 1 == p.epoch {
        ReadCurrent(net, p, k, n, next);
      } else {
        ReadNext(net, p, k, n, next);
        ExtendedShape(Read(net, k, n), next);
      }
    }
  }

  lemma FiledIsOld(net: Net, p: Party, k: nat, n: nat)
    requires Shape(net) && PartyOk(net, p) && k < |net.keys| && Slot(net.keys[k], n) in p.state.skipped
    ensures k < p.epoch
  {
    Filing(net, p, k, n);
  }

  lemma StepKeeps(y: System, e: Event)
    requires Inv(y) && Possible(y, e) && Careful(y, e)
    ensures PartyOf(y, e.alice).epoch < |y.net.sent| && Inv(Step(y, e))
  {
    hide PartyOk, Shape, Sending, Delivered, WireOk, Result, Opened;
    var p, q := PartyOf(y, e.alice), PartyOf(y, !e.alice);
    EpochsAdjoin(y.net, p, q);
    match e
    case Send(_, aad, body) =>
      SendKeeps(y.net, p, aad, body);
      SendGrows(y.net, p, q, aad, body);
      SendWires(y.net, p, aad, body);
      OtherKeeps(y.net, Sending(y.net, p, aad, body).0, q);
    case Deliver(_, k, n, aad, next, _) =>
      DeliverIs(y, e);
      DeliverKeeps(y.net, p, k, n, aad, next);
      DeliverGrows(y.net, p, q, k, n, aad, next);
      DeliverWires(y.net, p, k, n, aad, next);
      OtherKeeps(y.net, Delivered(y.net, p, k, n, aad, next).0, q);
    case Inject(_, _, _, _, _) =>
      InjectIs(y, e);
  }

  /** What a party puts on the wire is the message its chain and number stand for. */
  lemma SendsItsMessage(net: Net, p: Party, aad: Bytes, body: Bytes)
    requires Shape(net) && PartyOk(net, p) && p.state.haveCks
    ensures var net' := Sending(net, p, aad, body).0;
            && IsSent(net', p.epoch, |net.sent[p.epoch]|)
            && Encrypt(p.state, aad, body).1 == Some(MessageFor(net', p.epoch, |net.sent[p.epoch]|))
  {
    hide CacheOk, OpenedOk, Iter;
    var net' := Sending(net, p, aad, body).0;
    SameBase(net, net', p.epoch);
  }

  /** Messages already sent stay what they are when the network grows. */
  lemma SameMessage(net: Net, net': Net, k: nat, n: nat)
    requires IsSent(net, k, n) && net.id == net'.id && net.keys <= net'.keys && |net.sent| <= |net'.sent|
    requires net.sent[k] <= net'.sent[k] && (k >= 3 ==> net'.sent[k - 2] == net.sent[k - 2])
    ensures IsSent(net', k, n) && MessageFor(net', k, n) == MessageFor(net, k, n)
  {
    hide Base;
    SameBase(net, net', k);
  }

  lemma SendWires(net: Net, p: Party, aad: Bytes, body: Bytes)
    requires Shape(net) && PartyOk(net, p) && WireOk(net)
    ensures WireOk(Sending(net, p, aad, body).0)
  {
    hide CacheOk, OpenedOk, Iter, Root, Base, MessageFor;
    if p.state.haveCks {
      var net' := Sending(net, p, aad, body).0;
      SendsItsMessage(net, p, aad, body);
      forall id | id in net.wire
        ensures id in net'.wire && net'.wire[id] == MessageFor(net, id.k, id.n)
        ensures IsSent(net', id.k, id.n) && MessageFor(net', id.k, id.n) == MessageFor(net, id.k, id.n)
      {
        assert IsSent(net, id.k, id.n);
        SameMessage(net, net', id.k, id.n);
      }
    }
  }

  lemma DeliverWires(net: Net, p: Party, k: nat, n: nat, aad: Bytes, next: DhKey)
    requires Shape(net) && WireOk(net) && IsSent(net, k, n)
    ensures WireOk(Delivered(net, p, k, n, aad, next).0)
  {
    hide After, Openable, Iter, Root, Base, MessageFor;
    var net' := Delivered(net, p, k, n, aad, next).0;
    forall id | id in net.wire
      ensures IsSent(net', id.k, id.n) && MessageFor(net', id.k, id.n) == MessageFor(net, id.k, id.n)
    {
      assert IsSent(net, id.k, id.n);
      SameMessage(net, net', id.k, id.n);
    }
  }

  lemma SendGrows(net: Net, p: Party, q: Party, aad: Bytes, body: Bytes)
    requires PartyOk(net, p) && PartyOk(net, q) && (p.epoch == q.epoch + 1 || q.epoch == p.epoch + 1)
    ensures var (net', p') := Sending(net, p, aad, body);
            GrowsFor(net, net', q) && |net'.keys| == |net.keys| && p'.epoch == p.epoch
  {
    hide Iter, Base, Root, CacheOk, OpenedOk;
  }

  lemma DeliverGrows(net: Net, p: Party, q: Party, k: nat, n: nat, aad: Bytes, next: DhKey)
    requires Shape(net) && PartyOk(net, p) && PartyOk(net, q) && (p.epoch == q.epoch + 1 || q.epoch == p.epoch + 1)
    requires |net.keys| == 1 + Max(p.epoch, q.epoch) && IsSent(net, k, n) && Incoming(p, k)
    ensures var (net', p') := Delivered(net, p, k, n, aad, next);
            && GrowsFor(net, net', q)
            && |net'.keys| == 1 + Max(p'.epoch, q.epoch) && p'.epoch % 2 == p.epoch % 2
  {
    hide After, Openable, Iter, Base, Root, CacheOk, OpenedOk;
  }

  /** Neither party is more than one ratchet step ahead. */
  lemma EpochsAdjoin(net: Net, p: Party, q: Party)
    requires PartyOk(net, p) && PartyOk(net, q) && p.epoch % 2 != q.epoch % 2
    requires |net.keys| == 1 + Max(p.epoch, q.epoch)
    ensures (p.epoch == q.epoch + 1 || q.epoch == p.epoch + 1) && p.epoch < |net.sent|
  {
  }
}
