/**
 Ratchet sessions: the name-keyed session map, lookup of the live session of a peer, and
 the two-pass search that attributes a sealed envelope to a session.
 */
module Sessions {
  import opened Common

  /** Opaque Double Ratchet state. */
  type Ratchet = Bytes

  /** `rat` is absent until the session is keyed; the flags gate what goes on the wire. */
  datatype Session = Session(peerPub: Pub, rat: Option<Ratchet>, pqCt: Bytes, pqAcked: bool, sealOutbound: bool)

  type SessionMap = map<string, Session>

  /** The entry a lookup with `operator[]` creates. */
  const BLANK := Session(ZEROS, None, [], false, false)

  datatype Recipient = ToUser | ToChannel

  datatype Envelope = Envelope(
    senderPubkey: Bytes, recipient: Recipient, id: Bytes, timestamp: nat,
    ciphertext: Bytes, aad: Bytes, pqCt: Bytes)

  /**
   The ratchet and signature primitives. `tryDecrypt` rolls back when it fails, so it has no
   state to return then; `decrypt` advances the ratchet either way; `encrypt` fails while the
   ratchet has no send chain.
   */
  datatype Primitives = Primitives(
    tryDecrypt: (Ratchet, Bytes, Bytes) -> Option<(Ratchet, Bytes)>,
    decrypt: (Ratchet, Bytes, Bytes) -> (Ratchet, Option<Bytes>),
    headerMatches: (Ratchet, Bytes) -> bool,
    encrypt: Ratchet -> Option<Ratchet>,
    sealedBy: (Bytes, Pub, Bytes, nat) -> bool,
    fingerprint: Pub -> string)

  function Lookup(ss: SessionMap, name: string): Session {
    if name in ss then ss[name] else BLANK
  }

  predicate Live(ss: SessionMap, name: string) {
    name in ss && ss[name].rat.Some?
  }

  predicate LiveFor(ss: SessionMap, name: string, pub: Pub) {
    Live(ss, name) && ss[name].peerPub == pub
  }

  ghost predicate HasLive(ss: SessionMap, pub: Pub) {
    exists name :: LiveFor(ss, name, pub)
  }

  /** No two sessions with a ratchet belong to the same peer. */
  ghost predicate OneLivePerPeer(ss: SessionMap) {
    forall m, n :: Live(ss, m) && Live(ss, n) && ss[m].peerPub == ss[n].peerPub ==> m == n
  }

  /** `order` lists the names of the map, in whatever order it is iterated. */
  ghost predicate Enumerates(order: seq<string>, ss: SessionMap) {
    forall name :: name in order <==> name in ss
  }

  /** The first live session of `pub` in iteration order. */
  function FirstLive(ss: SessionMap, order: seq<string>, pub: Pub): (r: Option<string>)
    ensures r.Some? ==> r.value in order && LiveFor(ss, r.value, pub)
    ensures r.None? ==> forall name | name in order :: !LiveFor(ss, name, pub)
  {
    if order == [] then None
    else if LiveFor(ss, order[0], pub) then Some(order[0])
    else FirstLive(ss, order[1..], pub)
  }

  // ----- Sealed envelopes --------------------------------------------------

  ghost predicate Decrypts(ops: Primitives, s: Session, env: Envelope) {
    s.rat.Some? && ops.tryDecrypt(s.rat.value, env.ciphertext, env.aad).Some?
  }

  /** The session decrypts the envelope and the inner signature is its peer's. */
  ghost predicate Accepts(ops: Primitives, s: Session, env: Envelope) {
    Decrypts(ops, s, env)
      && ops.sealedBy(ops.tryDecrypt(s.rat.value, env.ciphertext, env.aad).value.1, s.peerPub, env.id, env.timestamp)
  }

  /** What the attempt leaves behind in a session. */
  ghost function Tried(ops: Primitives, s: Session, env: Envelope): Session {
    if !Decrypts(ops, s, env) then s
    else s.(rat := Some(ops.tryDecrypt(s.rat.value, env.ciphertext, env.aad).value.0),
            sealOutbound := s.sealOutbound || Accepts(ops, s, env))
  }

  predicate Eligible(ops: Primitives, s: Session, env: Envelope, matching: bool) {
    s.rat.Some? && ops.headerMatches(s.rat.value, env.ciphertext) == matching
  }

  /** One pass over the sessions whose header test answers `matching`, stopping at the first that accepts. */
  ghost function Scan(
    ops: Primitives, ss: SessionMap, order: seq<string>, env: Envelope, matching: bool)
    : (r: (SessionMap, Option<string>))
    requires forall name | name in order :: name in ss
    ensures r.0.Keys == ss.Keys && (r.1.Some? ==> r.1.value in ss)
  {
    if order == [] then (ss, None)
    else
      var name := order[0];
      if !Eligible(ops, ss[name], env, matching) then Scan(ops, ss, order[1..], env, matching)
      else
        var next := ss[name := Tried(ops, ss[name], env)];
        if Accepts(ops, ss[name], env) then (next, Some(name)) else Scan(ops, next, order[1..], env, matching)
  }

  /** Header-matched sessions first; the others only when none of those accepted. */
  ghost function TwoPass(
    ops: Primitives, ss: SessionMap, order: seq<string>, env: Envelope): (r: (SessionMap, Option<string>))
    requires forall name | name in order :: name in ss
    ensures r.0.Keys == ss.Keys && (r.1.Some? ==> r.1.value in ss)
  {
    var first := Scan(ops, ss, order, env, true);
    if first.1.Some? then first else Scan(ops, first.0, order, env, false)
  }

  /** Same entries, same peers, same acks and ciphertexts: only ratchets moved, and only the match was latched. */
  ghost predicate OnlyTried(ss: SessionMap, ss': SessionMap, hit: Option<string>) {
    && ss'.Keys == ss.Keys
    && forall name | name in ss ::
         && ss'[name].peerPub == ss[name].peerPub
         && ss'[name].pqCt == ss[name].pqCt
         && ss'[name].pqAcked == ss[name].pqAcked
         && (ss'[name].rat.Some? <==> ss[name].rat.Some?)
         && ss'[name].sealOutbound == (ss[name].sealOutbound || hit == Some(name))
  }

  lemma {:induction false} ScanKeeps(ops: Primitives, ss: SessionMap, order: seq<string>, env: Envelope, matching: bool)
    requires forall name | name in order :: name in ss
    ensures var (ss', hit) := Scan(ops, ss, order, env, matching);
            && OnlyTried(ss, ss', hit)
            && (hit.Some? ==> hit.value in order && Live(ss, hit.value))
  {
    if order != [] {
      var name := order[0];
      var next := if Eligible(ops, ss[name], env, matching) then ss[name := Tried(ops, ss[name], env)] else ss;
      if !(Eligible(ops, ss[name], env, matching) && Accepts(ops, ss[name], env)) {
        ScanKeeps(ops, next, order[1..], env, matching);
      }
    }
  }

  lemma TwoPassKeeps(ops: Primitives, ss: SessionMap, order: seq<string>, env: Envelope)
    requires forall name | name in order :: name in ss
    ensures var (ss', hit) := TwoPass(ops, ss, order, env);
            && OnlyTried(ss, ss', hit)
            && (hit.Some? ==> hit.value in order && Live(ss, hit.value))
  {
    ScanKeeps(ops, ss, order, env, true);
    ScanKeeps(ops, Scan(ops, ss, order, env, true).0, order, env, false);
  }

  /** A message key is used once: a session's ratchet that opened the envelope does not open it again. */
  ghost predicate NoReplay(ops: Primitives, ss: SessionMap, env: Envelope) {
    forall name | name in ss && Decrypts(ops, ss[name], env) :: !Decrypts(ops, Tried(ops, ss[name], env), env)
  }

  ghost predicate AtMostOneDecrypts(ops: Primitives, ss: SessionMap, env: Envelope) {
    forall m, n :: m in ss && n in ss && Decrypts(ops, ss[m], env) && Decrypts(ops, ss[n], env) ==> m == n
  }

  /** The reference: offer the envelope to every session. */
  ghost function TryAll(ops: Primitives, ss: SessionMap, env: Envelope): SessionMap {
    map name | name in ss :: Tried(ops, ss[name], env)
  }

  /** A pass is the reference restricted to its eligible sessions, when at most one session decrypts. */
  lemma {:induction false} ScanIsTryAll(
    ops: Primitives, ss: SessionMap, order: seq<string>, env: Envelope, matching: bool)
    requires NoReplay(ops, ss, env) && AtMostOneDecrypts(ops, ss, env)
    requires forall name | name in order :: name in ss
    ensures var (ss', hit) := Scan(ops, ss, order, env, matching);
            && ss'.Keys == ss.Keys
            && (forall name | name in ss ::
                  ss'[name] == if name in order && Eligible(ops, ss[name], env, matching)
                    then Tried(ops, ss[name], env) else ss[name])
            && (forall name :: hit == Some(name) <==>
                  name in order && Eligible(ops, ss[name], env, matching) && Accepts(ops, ss[name], env))
  {
    if order != [] {
      var name := order[0];
      var next := if Eligible(ops, ss[name], env, matching) then ss[name := Tried(ops, ss[name], env)] else ss;
      assert forall n | n in order :: n == name || n in order[1..];
      if Eligible(ops, ss[name], env, matching) && Decrypts(ops, ss[name], env) {
        assert !Decrypts(ops, next[name], env);
        assert forall n | n in ss && n != name :: !Decrypts(ops, ss[n], env);
      }
      if !(Eligible(ops, ss[name], env, matching) && Accepts(ops, ss[name], env)) {
        ScanIsTryAll(ops, next, order[1..], env, matching);
      }
    }
  }

  /**
   The two-pass search refines trying every session: it finds a match exactly when some live
   session accepts, the match is that session, and it leaves the map the reference leaves.
   */
  lemma TwoPassIsTryAll(ops: Primitives, ss: SessionMap, order: seq<string>, env: Envelope)
    requires NoReplay(ops, ss, env) && AtMostOneDecrypts(ops, ss, env) && Enumerates(order, ss)
    ensures var (ss', hit) := TwoPass(ops, ss, order, env);
            && ss' == TryAll(ops, ss, env)
            && (forall name :: hit == Some(name) <==> name in ss && Accepts(ops, ss[name], env))
            && (forall name | name in ss && !Decrypts(ops, ss[name], env) :: ss'[name] == ss[name])
  {
    ScanIsTryAll(ops, ss, order, env, true);
    var (mid, hit) := Scan(ops, ss, order, env, true);
    if hit.Some? {
      forall name | name in ss
        ensures mid[name] == Tried(ops, ss[name], env)
      {
      }
    } else {
      forall m, n | m in mid && n in mid && Decrypts(ops, mid[m], env) && Decrypts(ops, mid[n], env)
        ensures m == n
      {
      }
      ScanIsTryAll(ops, mid, order, env, false);
      var (ss', hit') := Scan(ops, mid, order, env, false);
      forall name | name in ss
        ensures ss'[name] == Tried(ops, ss[name], env)
      {
      }
    }
  }

  ghost predicate AtMostOneAccepts(ops: Primitives, ss: SessionMap, env: Envelope) {
    forall m, n :: m in ss && n in ss && Accepts(ops, ss[m], env) && Accepts(ops, ss[n], env) ==> m == n
  }

  /** A session is as it was, or it decrypted the envelope and moved on. */
  ghost predicate OnlyDecryptersMove(ops: Primitives, ss: SessionMap, ss': SessionMap, env: Envelope) {
    && ss'.Keys == ss.Keys
    && forall name | name in ss && ss'[name] != ss[name] ::
         Decrypts(ops, ss[name], env) && !Decrypts(ops, ss'[name], env)
  }

  lemma {:induction false} ScanFinds(ops: Primitives, ss: SessionMap, order: seq<string>, env: Envelope, matching: bool)
    requires NoReplay(ops, ss, env) && AtMostOneAccepts(ops, ss, env)
    requires forall name | name in order :: name in ss
    ensures var (ss', hit) := Scan(ops, ss, order, env, matching);
            && OnlyDecryptersMove(ops, ss, ss', env)
            && (forall name | name in ss && !Eligible(ops, ss[name], env, matching) :: ss'[name] == ss[name])
            && (forall name :: hit == Some(name) <==>
                  name in order && Eligible(ops, ss[name], env, matching) && Accepts(ops, ss[name], env))
    decreases |order|, 0
  {
    if order != [] {
      var name := order[0];
      var next := if Eligible(ops, ss[name], env, matching) then ss[name := Tried(ops, ss[name], env)] else ss;
      assert forall n | n in order :: n == name || n in order[1..];
      assert next[name] != ss[name] ==> Decrypts(ops, ss[name], env) && !Decrypts(ops, next[name], env);
      if !(Eligible(ops, ss[name], env, matching) && Accepts(ops, ss[name], env)) {
        if Eligible(ops, ss[name], env, matching) && Decrypts(ops, ss[name], env) {
          assert !Decrypts(ops, next[name], env);
        }
        ScanAgain(ops, ss, next, name, order[1..], env, matching);
      }
    }
  }

  /** The rest of the pass, once one session has been offered the envelope in vain. */
  lemma ScanAgain(
    ops: Primitives, ss: SessionMap, next: SessionMap, name: string, order: seq<string>, env: Envelope, matching: bool)
    requires NoReplay(ops, ss, env) && AtMostOneAccepts(ops, ss, env) && name in ss
    requires forall n | n in order :: n in ss
    requires next.Keys == ss.Keys && (forall n | n in ss && n != name :: next[n] == ss[n])
    requires next[name] == ss[name]
             || (Eligible(ops, ss[name], env, matching) && Decrypts(ops, ss[name], env)
                 && !Decrypts(ops, next[name], env))
    requires !(Eligible(ops, ss[name], env, matching) && Accepts(ops, ss[name], env))
    ensures var (ss', hit) := Scan(ops, next, order, env, matching);
            && OnlyDecryptersMove(ops, ss, ss', env)
            && (forall n | n in ss && !Eligible(ops, ss[n], env, matching) :: ss'[n] == ss[n])
            && (forall n :: hit == Some(n) <==>
                  n in order && Eligible(ops, ss[n], env, matching) && Accepts(ops, ss[n], env))
    decreases |order|, 1
  {
    assert AtMostOneAccepts(ops, next, env);
    ScanFinds(ops, next, order, env, matching);
  }

  /**
   Even when several sessions decrypt, as long as at most one accepts: the search finds a match
   exactly when some session accepts, it is that session, and no session that fails to decrypt
   is changed.
   */
  lemma TwoPassFindsTheAcceptor(ops: Primitives, ss: SessionMap, order: seq<string>, env: Envelope)
    requires NoReplay(ops, ss, env) && AtMostOneAccepts(ops, ss, env) && Enumerates(order, ss)
    ensures var (ss', hit) := TwoPass(ops, ss, order, env);
            && (forall name :: hit == Some(name) <==> name in ss && Accepts(ops, ss[name], env))
            && ss'.Keys == ss.Keys
            && (forall name | name in ss && !Decrypts(ops, ss[name], env) :: ss'[name] == ss[name])
  {
    ScanFinds(ops, ss, order, env, true);
    var (mid, hit) := Scan(ops, ss, order, env, true);
    if hit.Some? {
      assert Accepts(ops, ss[hit.value], env);
    } else {
      forall name | name in ss
        ensures Accepts(ops, mid[name], env) <==> Accepts(ops, ss[name], env)
      {
        if Accepts(ops, ss[name], env) {
          assert !Eligible(ops, ss[name], env, true);
        }
      }
      ScanFinds(ops, mid, order, env, false);
    }
  }

  // ----- The order of the passes -------------------------------------------

  lemma {:induction false} ScanLeaves(
    ops: Primitives, ss: SessionMap, order: seq<string>, env: Envelope, matching: bool, m: string)
    requires (forall name | name in order :: name in ss) && m in ss && !Eligible(ops, ss[m], env, matching)
    ensures var (ss', hit) := Scan(ops, ss, order, env, matching); ss'[m] == ss[m] && hit != Some(m)
  {
    if order != [] {
      var name := order[0];
      var next := if Eligible(ops, ss[name], env, matching) then ss[name := Tried(ops, ss[name], env)] else ss;
      if !(Eligible(ops, ss[name], env, matching) && Accepts(ops, ss[name], env)) {
        ScanLeaves(ops, next, order[1..], env, matching, m);
      }
    }
  }

  lemma {:induction false} ScanStops(
    ops: Primitives, ss: SessionMap, order: seq<string>, env: Envelope, matching: bool, n: string)
    requires (forall name | name in order :: name in ss) && n in order
    requires Eligible(ops, ss[n], env, matching) && Accepts(ops, ss[n], env)
    ensures Scan(ops, ss, order, env, matching).1.Some?
  {
    var name := order[0];
    if name != n {
      var next := if Eligible(ops, ss[name], env, matching) then ss[name := Tried(ops, ss[name], env)] else ss;
      if !(Eligible(ops, ss[name], env, matching) && Accepts(ops, ss[name], env)) {
        ScanStops(ops, next, order[1..], env, matching, n);
      }
    }
  }

  /** When a session whose receiving chain the header matches accepts, no other kind of session is even tried. */
  lemma MatchedFirst(ops: Primitives, ss: SessionMap, order: seq<string>, env: Envelope, n: string)
    requires Enumerates(order, ss) && n in ss
    requires Eligible(ops, ss[n], env, true) && Accepts(ops, ss[n], env)
    ensures var (ss', hit) := TwoPass(ops, ss, order, env);
            hit.Some? && forall m | m in ss && !Eligible(ops, ss[m], env, true) :: ss'[m] == ss[m] && hit != Some(m)
  {
    ScanStops(ops, ss, order, env, true, n);
    forall m | m in ss && !Eligible(ops, ss[m], env, true)
      ensures var (ss', hit) := TwoPass(ops, ss, order, env); ss'[m] == ss[m] && hit != Some(m)
    {
      ScanLeaves(ops, ss, order, env, true, m);
    }
  }
}
