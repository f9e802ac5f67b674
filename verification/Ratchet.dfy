/**
 The Double Ratchet with symbolic keys: deriving a key wraps a term, so keys are equal exactly
 when they were derived alike, and a ciphertext opens under the key and header it was sealed with.
 */
module Ratchet {
  import opened Common

  /** A Diffie-Hellman key pair is known by its public key. */
  type DhKey = nat

  datatype Key =
    | Zero
    | Agreed(id: nat)
    | RootOf(root: Key, dh: set<DhKey>)
    | ChainOf(root: Key, dh: set<DhKey>)
    | NextOf(chain: Key)
    | MessageOf(chain: Key)

  datatype Header = Header(dh: DhKey, pn: nat, n: nat)

  datatype Ciphertext = Sealed(key: Key, header: Header, aad: Bytes, body: Bytes) | Junk

  datatype Message = Message(header: Header, ciphertext: Ciphertext)

  function Open(key: Key, header: Header, aad: Bytes, c: Ciphertext): Option<Bytes> {
    if c.Sealed? && c.key == key && c.header == header && c.aad == aad then Some(c.body) else None
  }

  /** A skipped message key is filed under the sender's key and the message number. */
  datatype Slot = Slot(dh: DhKey, n: nat)

  type Cache = map<Slot, Key>

  datatype State = State(
    dhs: DhKey,
    dhr: DhKey, haveDhr: bool,
    rk: Key,
    cks: Key, haveCks: bool,
    ckr: Key, haveCkr: bool,
    ns: nat, nr: nat, pn: nat,
    skipped: Cache)

  const MAX_SKIP := 1000

  /** Stands for the points that agree on no secret with any key. */
  const LOW_ORDER: DhKey := 0

  function InitAlice(id: nat, own: DhKey, peer: DhKey): State {
    var root, chain := RootOf(Agreed(id), {own, peer}), ChainOf(Agreed(id), {own, peer});
    State(own, peer, true, root, chain, true, Zero, false, 0, 0, 0, map[])
  }

  function InitBob(id: nat, own: DhKey): State {
    State(own, 0, false, Agreed(id), Zero, false, Zero, false, 0, 0, 0, map[])
  }

  /** Sending needs a send chain. */
  function Encrypt(s: State, aad: Bytes, body: Bytes): (State, Option<Message>) {
    if !s.haveCks then (s, None)
    else
      var header := Header(s.dhs, s.pn, s.ns);
      (s.(cks := NextOf(s.cks), ns := s.ns + 1), Some(Message(header, Sealed(MessageOf(s.cks), header, aad, body))))
  }

  // ----- Skipped keys ------------------------------------------------------

  /** The order of the cache. */
  predicate Before(a: Slot, b: Slot) {
    a.dh < b.dh || (a.dh == b.dh && a.n < b.n)
  }

  ghost predicate IsFirst(slots: set<Slot>, x: Slot) {
    x in slots && forall y | y in slots && y != x :: Before(x, y)
  }

  lemma {:induction false} FirstExists(slots: set<Slot>) returns (x: Slot)
    requires slots != {}
    ensures IsFirst(slots, x)
    decreases |slots|
  {
    x :| x in slots;
    if slots != {x} {
      var y := FirstExists(slots - {x});
      FirstOfMore(slots - {x}, y, x);
      assert slots - {x} + {x} == slots;
      if Before(y, x) { x := y; }
    }
  }

  /** The first of some slots and one more. */
  lemma FirstOfMore(slots: set<Slot>, x: Slot, y: Slot)
    requires IsFirst(slots, x) && y !in slots
    ensures IsFirst(slots + {y}, if Before(y, x) then y else x)
  {
    forall z | z in slots && Before(y, x)
      ensures Before(y, z)
    {
      assert z == x || Before(x, z);
    }
  }

  ghost function First(slots: set<Slot>): (x: Slot)
    requires slots != {}
    ensures IsFirst(slots, x)
  {
    assert exists y :: IsFirst(slots, y) by {
      var y := FirstExists(slots);
    }
    var x :| IsFirst(slots, x);
    x
  }

  /** A full cache makes room by dropping its first entry. */
  ghost function Trimmed(m: Cache): Cache {
    if |m| < MAX_SKIP then m else m - {First(m.Keys)}
  }

  function Filed(m: Cache, slot: Slot, key: Key): Cache {
    if slot in m then m else m[slot := key]
  }

  ghost function SkipOne(s: State): State {
    s.(ckr := NextOf(s.ckr), skipped := Filed(Trimmed(s.skipped), Slot(s.dhr, s.nr), MessageOf(s.ckr)), nr := s.nr + 1)
  }

  ghost function SkipTo(s: State, until: nat): State
    decreases until - s.nr
  {
    if s.nr >= until then s else SkipTo(SkipOne(s), until)
  }

  predicate SkipRefused(s: State, until: nat) {
    s.haveCkr && until > s.nr + MAX_SKIP
  }

  ghost function Skip(s: State, until: nat): State {
    if s.haveCkr then SkipTo(s, until) else s
  }

  // ----- Receiving ---------------------------------------------------------

  function DhRatchet(s: State, dh: DhKey, next: DhKey): State {
    var root := RootOf(s.rk, {s.dhs, dh});
    s.(pn := s.ns, ns := 0, nr := 0, dhr := dh, haveDhr := true,
       ckr := ChainOf(s.rk, {s.dhs, dh}), haveCkr := true,
       dhs := next,
       rk := RootOf(root, {next, dh}), cks := ChainOf(root, {next, dh}), haveCks := true)
  }

  /** The last step: the key at the head of the receive chain is used up whether or not it opens the message. */
  ghost function UseNext(s: State, m: Message, aad: Bytes): (State, Option<Bytes>) {
    if SkipRefused(s, m.header.n) then (s, None)
    else
      var s1 := Skip(s, m.header.n);
      (s1.(ckr := NextOf(s1.ckr), nr := s1.nr + 1), Open(MessageOf(s1.ckr), m.header, aad, m.ciphertext))
  }

  /** Where a ratchet step stops when the agreement throws. */
  function HalfRatchet(s: State, dh: DhKey): State {
    s.(pn := s.ns, ns := 0, nr := 0, dhr := dh, haveDhr := true)
  }

  /** The message starts a ratchet step to a point of low order. */
  predicate Throws(s: State, m: Message) {
    && Slot(m.header.dh, m.header.n) !in s.skipped
    && !(s.haveDhr && m.header.dh == s.dhr)
    && !SkipRefused(s, m.header.pn)
    && m.header.dh == LOW_ORDER
  }

  ghost function Decrypt(s: State, m: Message, aad: Bytes, next: DhKey): (State, Option<Bytes>) {
    var slot := Slot(m.header.dh, m.header.n);
    if slot in s.skipped then
      var body := Open(s.skipped[slot], m.header, aad, m.ciphertext);
      (if body.Some? then s.(skipped := s.skipped - {slot}) else s, body)
    else if s.haveDhr && m.header.dh == s.dhr then UseNext(s, m, aad)
    else if SkipRefused(s, m.header.pn) then (s, None)
    else if m.header.dh == LOW_ORDER then (HalfRatchet(Skip(s, m.header.pn), m.header.dh), None)
    else UseNext(DhRatchet(Skip(s, m.header.pn), m.header.dh, next), m, aad)
  }

  /** As `Decrypt`, but a failure leaves no trace; an exception passes by the rollback. */
  ghost function TryDecrypt(s: State, m: Message, aad: Bytes, next: DhKey): (State, Option<Bytes>) {
    var r := Decrypt(s, m, aad, next);
    if r.1.Some? || Throws(s, m) then r else (s, None)
  }

  // ----- The object --------------------------------------------------------

  class DoubleRatchet {
    var s: State

    constructor Alice(id: nat, own: DhKey, peer: DhKey)
      ensures s == InitAlice(id, own, peer)
    {
      s := InitAlice(id, own, peer);
    }

    constructor Bob(id: nat, own: DhKey)
      ensures s == InitBob(id, own)
    {
      s := InitBob(id, own);
    }

    method FirstSlot() returns (x: Slot)
      requires s.skipped != map[]
      ensures x == First(s.skipped.Keys)
    {
      var todo := s.skipped.Keys;
      ghost var first := First(todo);
      x :| x in todo;
      todo := todo - {x};
      while todo != {}
        invariant todo <= s.skipped.Keys && x in s.skipped && x !in todo
        invariant IsFirst(s.skipped.Keys - todo, x)
      {
        var y :| y in todo;
        FirstOfMore(s.skipped.Keys - todo, x, y);
        assert s.skipped.Keys - todo + {y} == s.skipped.Keys - (todo - {y});
        todo := todo - {y};
        if Before(y, x) { x := y; }
      }
      assert s.skipped.Keys - todo == s.skipped.Keys;
      assert x != first ==> Before(x, first) && Before(first, x);
    }

    /** Walk the receive chain, filing the keys of the messages passed over. */
    method SkipMessageKeys(until: nat) returns (ok: bool)
      modifies this
      ensures ok == !SkipRefused(old(s), until)
      ensures s == if ok then Skip(old(s), until) else old(s)
    {
      if !s.haveCkr { return true; }
      if until > s.nr + MAX_SKIP { return false; }
      while s.nr < until
        invariant SkipTo(old(s), until) == SkipTo(s, until)
        decreases until - s.nr
      {
        var mk := MessageOf(s.ckr);
        ghost var before := s;
        if |s.skipped| >= MAX_SKIP {
          var x := FirstSlot();
          s := s.(skipped := s.skipped - {x});
        }
        s := s.(ckr := NextOf(s.ckr), skipped := Filed(s.skipped, Slot(s.dhr, s.nr), mk), nr := s.nr + 1);
        assert s == SkipOne(before);
      }
      return true;
    }

    /** Everything a failed decryption did stays done. */
    method DecryptMessage(m: Message, aad: Bytes, next: DhKey) returns (body: Option<Bytes>, threw: bool)
      modifies this
      ensures (s, body) == Decrypt(old(s), m, aad, next)
      ensures threw == Throws(old(s), m)
    {
      hide Skip;
      body, threw := None, false;
      var slot := Slot(m.header.dh, m.header.n);
      if slot in s.skipped {
        body := Open(s.skipped[slot], m.header, aad, m.ciphertext);
        if body.Some? { s := s.(skipped := s.skipped - {slot}); }
        return;
      }
      if !s.haveDhr || m.header.dh != s.dhr {
        var ok := SkipMessageKeys(m.header.pn);
        if !ok { return; }
        if m.header.dh == LOW_ORDER {
          s := HalfRatchet(s, m.header.dh);
          threw := true;
          return;
        }
        s := DhRatchet(s, m.header.dh, next);
      }
      var ok := SkipMessageKeys(m.header.n);
      if !ok { return; }
      var mk := MessageOf(s.ckr);
      s := s.(ckr := NextOf(s.ckr), nr := s.nr + 1);
      body := Open(mk, m.header, aad, m.ciphertext);
    }

    /** Take a snapshot, decrypt, and put the snapshot back on failure, but not past an exception. */
    method TryDecryptMessage(m: Message, aad: Bytes, next: DhKey) returns (body: Option<Bytes>, threw: bool)
      modifies this
      ensures (s, body) == TryDecrypt(old(s), m, aad, next)
      ensures threw == Throws(old(s), m)
      ensures body.None? && !threw ==> s == old(s)
    {
      var snapshot := s;
      body, threw := DecryptMessage(m, aad, next);
      if body.None? && !threw { s := snapshot; }
    }

    method EncryptMessage(aad: Bytes, body: Bytes) returns (m: Option<Message>)
      modifies this
      ensures (s, m) == Encrypt(old(s), aad, body)
    {
      if !s.haveCks { return None; }
      var header := Header(s.dhs, s.pn, s.ns);
      m := Some(Message(header, Sealed(MessageOf(s.cks), header, aad, body)));
      s := s.(cks := NextOf(s.cks), ns := s.ns + 1);
    }
  }
}
