/** What holds in every reachable state of the worker, and what it says about whole runs. */
module ChatInvariants {
  import opened Common
  import opened Sessions
  import opened ChatWorker

  // ----- What the journal says about a session -----------------------------

  /** Whether the session has a ratchet. */
  ghost predicate KeyedIn(j: Journal, name: string) {
    j != [] && (var e := j[|j| - 1]; (e.Keyed? && e.name == name) || KeyedIn(j[..|j| - 1], name))
  }

  /** Whether an inbound was decrypted under the current ratchet. */
  ghost predicate AckedIn(j: Journal, name: string) {
    j != [] &&
    var e := j[|j| - 1];
    if e.Keyed? && e.name == name then false
    else (e.Ack? && e.name == name) || AckedIn(j[..|j| - 1], name)
  }

  /** Whether the peer proved, since the current ratchet was keyed, that it can attribute a sealed envelope. */
  ghost predicate ProvenIn(j: Journal, name: string) {
    j != [] &&
    var e := j[|j| - 1];
    if e.Keyed? && e.name == name then false
    else ((e.Ack? || e.SealProof?) && e.name == name) || ProvenIn(j[..|j| - 1], name)
  }

  /** The KEM ciphertext the session still owes its peer. */
  ghost function CtDue(j: Journal, name: string): Bytes {
    if j == [] then []
    else
      var e := j[|j| - 1];
      if e.Keyed? && e.name == name then e.pqCt
      else if e.Ack? && e.name == name then []
      else CtDue(j[..|j| - 1], name)
  }

  /** The flags of every session are exactly what the history of its current ratchet says. */
  ghost predicate FlagsMatch(w: Worker) {
    forall name :: SessionMatches(w.journal, name, Lookup(w.sessions, name))
  }

  ghost predicate SessionMatches(j: Journal, name: string, s: Session) {
    && (s.rat.Some? <==> KeyedIn(j, name))
    && (s.pqAcked <==> AckedIn(j, name))
    && (s.sealOutbound <==> ProvenIn(j, name))
    && s.pqCt == CtDue(j, name)
    && (s.pqAcked ==> s.pqCt == [] && s.sealOutbound)
    && (s.rat.None? ==> !s.sealOutbound && s.pqCt == [])
  }

  /** Every envelope left with the sender hidden, and with the ciphertext, exactly as the history then required. */
  ghost predicate WireOk(j: Journal) {
    forall i | 0 <= i < |j| && j[i].Wire? ::
      && KeyedIn(j[..i], j[i].name)
      && (j[i].sealed <==> ProvenIn(j[..i], j[i].name))
      && j[i].pqCt == CtDue(j[..i], j[i].name)
  }

  /** Alice sessions own a KEM ciphertext exactly when the bundle had a KEM key; bob sessions never do. */
  ghost predicate CtOk(j: Journal) {
    forall i | 0 <= i < |j| && j[i].Keyed? :: j[i].pqCt != [] <==> j[i].alice && j[i].hasPq
  }

  ghost predicate PinsMatch(env: Env, w: Worker) {
    forall pub :: pub in w.pins <==> pub in env.stored || Admit(pub, true) in w.journal
  }

  /**
   An alice session without a KEM key is of a peer not pinned before, neither by an earlier session
   nor in this one.
   */
  ghost predicate PinOk(env: Env, j: Journal) {
    forall k | 0 <= k < |j| && j[k].Keyed? && j[k].alice && !j[k].hasPq ::
      j[k].pub !in env.stored && Admit(j[k].pub, true) !in j[..k]
  }

  ghost function Fetches(j: Journal): seq<string> {
    if j == [] then []
    else Fetches(j[..|j| - 1]) + if j[|j| - 1].Fetch? then [j[|j| - 1].username] else []
  }

  ghost function Targets(j: Journal): seq<string> {
    if j == [] then []
    else Targets(j[..|j| - 1]) + if j[|j| - 1].Response? then [j[|j| - 1].target] else []
  }

  /** The FIFO holds the requests not yet answered, in order. */
  ghost predicate FetchOk(w: Worker) {
    Fetches(w.journal) == Targets(w.journal) + w.pendingFetch
  }

  ghost predicate Inv(env: Env, w: Worker) {
    && OneLivePerPeer(w.sessions)
    && FlagsMatch(w)
    && WireOk(w.journal)
    && CtOk(w.journal)
    && FetchOk(w)
    && PinsMatch(env, w)
    && PinOk(env, w.journal)
  }

  // ----- Each primitive update keeps the invariant -------------------------

  lemma WireAppend(j: Journal, e: Entry)
    requires WireOk(j)
    requires e.Wire? ==> KeyedIn(j, e.name) && (e.sealed <==> ProvenIn(j, e.name)) && e.pqCt == CtDue(j, e.name)
    ensures WireOk(j + [e])
  {
    forall i | 0 <= i <= |j|
      ensures (j + [e])[..i] == j[..i]
    {
    }
    assert j[..|j|] == j;
  }

  lemma PinAppend(env: Env, j: Journal, e: Entry)
    requires PinOk(env, j)
    requires e.Keyed? && e.alice && !e.hasPq ==> e.pub !in env.stored && Admit(e.pub, true) !in j
    ensures PinOk(env, j + [e])
  {
    forall k | 0 <= k <= |j|
      ensures (j + [e])[..k] == j[..k]
    {
    }
    assert j[..|j|] == j;
  }

  /** A session may be moved to a peer that has no live session. */
  ghost predicate Placeable(ss: SessionMap, name: string, s: Session) {
    s.rat.Some? ==> LiveFor(ss, name, s.peerPub) || !HasLive(ss, s.peerPub)
  }

  lemma PlaceKeepsOneLive(ss: SessionMap, name: string, s: Session)
    requires OneLivePerPeer(ss) && Placeable(ss, name, s)
    ensures OneLivePerPeer(ss[name := s])
  {
    var ss' := ss[name := s];
    forall m, n | Live(ss', m) && Live(ss', n) && ss'[m].peerPub == ss'[n].peerPub
      ensures m == n
    {
      if m == name && n != name {
        assert LiveFor(ss, n, s.peerPub);
      } else if n == name && m != name {
        assert LiveFor(ss, m, s.peerPub);
      }
    }
  }

  /** Replacing a session without a trace, when its flags say the same. */
  lemma PutKeeps(env: Env, w: Worker, name: string, s: Session)
    requires Inv(env, w) && Placeable(w.sessions, name, s)
    requires var was := Lookup(w.sessions, name);
             (s.rat.Some? <==> was.rat.Some?) && s.pqAcked == was.pqAcked && s.sealOutbound == was.sealOutbound
               && s.pqCt == was.pqCt
    ensures Inv(env, Put(w, name, s))
  {
    PlaceKeepsOneLive(w.sessions, name, s);
    var w' := Put(w, name, s);
    forall n
      ensures SessionMatches(w'.journal, n, Lookup(w'.sessions, n))
    {
      assert SessionMatches(w.journal, n, Lookup(w.sessions, n));
    }
  }

  /** Replacing a session together with the entry that accounts for it. */
  lemma PutLogKeeps(env: Env, w: Worker, name: string, s: Session, e: Entry)
    requires Inv(env, w) && Placeable(w.sessions, name, s)
    requires (e.Keyed? || e.Ack? || e.SealProof? || e.Wire?) && e.name == name
    requires SessionMatches(w.journal + [e], name, s)
    requires e.Wire? ==>
               && Live(w.sessions, name)
               && e.sealed == w.sessions[name].sealOutbound && e.pqCt == w.sessions[name].pqCt
    requires e.Keyed? && e.alice && !e.hasPq ==> e.pub !in w.pins
    requires e.Keyed? ==> (e.pqCt != [] <==> e.alice && e.hasPq)
    ensures Inv(env, Log(Put(w, name, s), e))
  {
    PlaceKeepsOneLive(w.sessions, name, s);
    var w' := Log(Put(w, name, s), e);
    assert (w.journal + [e])[..|w.journal|] == w.journal;
    assert SessionMatches(w.journal, name, Lookup(w.sessions, name));
    forall n
      ensures SessionMatches(w'.journal, n, Lookup(w'.sessions, n))
    {
      assert SessionMatches(w.journal, n, Lookup(w.sessions, n));
    }
    WireAppend(w.journal, e);
    PinAppend(env, w.journal, e);
  }

  lemma AdmitKeeps(env: Env, w: Worker, pub: Pub, hasPq: bool)
    requires Inv(env, w)
    ensures Inv(env, Admitted(w, pub, hasPq))
  {
    var w', e := Admitted(w, pub, hasPq), Admit(pub, hasPq);
    assert (w.journal + [e])[..|w.journal|] == w.journal;
    forall n
      ensures SessionMatches(w'.journal, n, Lookup(w'.sessions, n))
    {
      assert SessionMatches(w.journal, n, Lookup(w.sessions, n));
    }
    WireAppend(w.journal, e);
    PinAppend(env, w.journal, e);
  }

  /** Requests and replies move through the FIFO in step with the journal. */
  lemma FifoKeeps(env: Env, w: Worker, fifo: seq<string>, e: Entry)
    requires Inv(env, w)
    requires || (e.Fetch? && fifo == w.pendingFetch + [e.username])
             || (e.Response? && w.pendingFetch == [e.target] + fifo)
             || (e.Query? && fifo == w.pendingFetch)
    ensures Inv(env, Log(w.(pendingFetch := fifo), e))
  {
    var w' := Log(w.(pendingFetch := fifo), e);
    assert (w.journal + [e])[..|w.journal|] == w.journal;
    forall n
      ensures SessionMatches(w'.journal, n, Lookup(w'.sessions, n))
    {
      assert SessionMatches(w.journal, n, Lookup(w.sessions, n));
    }
    WireAppend(w.journal, e);
    PinAppend(env, w.journal, e);
  }

  /** A sealed search moves ratchets only; its match is recorded. */
  lemma TriedKeeps(env: Env, w: Worker, ss: SessionMap, hit: Option<string>)
    requires Inv(env, w) && OnlyTried(w.sessions, ss, hit) && (hit.Some? ==> Live(w.sessions, hit.value))
    ensures hit.None? ==> Inv(env, w.(sessions := ss))
    ensures hit.Some? ==> Inv(env, Log(w.(sessions := ss), SealProof(hit.value)))
  {
    var j := if hit.Some? then w.journal + [SealProof(hit.value)] else w.journal;
    assert hit.Some? ==> j[..|w.journal|] == w.journal;
    forall n
      ensures SessionMatches(j, n, Lookup(ss, n))
    {
      assert SessionMatches(w.journal, n, Lookup(w.sessions, n));
    }
    forall m, n | Live(ss, m) && Live(ss, n) && ss[m].peerPub == ss[n].peerPub
      ensures m == n
    {
      assert Live(w.sessions, m) && Live(w.sessions, n);
    }
    if hit.Some? {
      WireAppend(w.journal, SealProof(hit.value));
      PinAppend(env, w.journal, SealProof(hit.value));
    }
  }

  // ----- Each handler keeps the invariant ----------------------------------

  lemma EmitKeeps(env: Env, w: Worker, name: string, to: Pub, rat: Ratchet, send: Option<PendingSend>)
    requires Inv(env, w) && Live(w.sessions, name)
    ensures Inv(env, Emit(w, name, to, rat, send))
  {
    var s := w.sessions[name];
    var e := Wire(name, to, s.sealOutbound, s.pqCt, send);
    assert SessionMatches(w.journal, name, Lookup(w.sessions, name));
    assert (w.journal + [e])[..|w.journal|] == w.journal;
    PutLogKeeps(env, w, name, s.(rat := Some(rat)), e);
  }

  lemma AckKeeps(env: Env, w: Worker, name: string)
    requires Inv(env, w) && Live(w.sessions, name)
    ensures Inv(env, AckSession(w, name))
  {
    var s := w.sessions[name];
    assert SessionMatches(w.journal, name, Lookup(w.sessions, name));
    assert (w.journal + [Ack(name)])[..|w.journal|] == w.journal;
    var s' := s.(pqAcked := true, pqCt := if s.pqAcked then s.pqCt else [], sealOutbound := true);
    PutLogKeeps(env, w, name, s', Ack(name));
  }

  lemma KeyAliceKeeps(env: Env, w: Worker, name: string, pub: Pub, hasPq: bool, keying: (Ratchet, Bytes))
    requires Inv(env, w) && !HasLive(w.sessions, pub) && Honest(hasPq, Some(keying))
    requires !hasPq ==> pub !in w.pins
    ensures Inv(env, KeyAlice(w, name, pub, hasPq, keying))
  {
    var e := Keyed(name, pub, true, hasPq, keying.1);
    assert (w.journal + [e])[..|w.journal|] == w.journal;
    PutLogKeeps(env, w, name, Session(pub, Some(keying.0), keying.1, false, false), e);
  }

  lemma DecryptedKeeps(env: Env, w: Worker, e: Envelope, name: string, consumed: bool)
    requires Inv(env, w) && Live(w.sessions, name)
    ensures Inv(env, Decrypted(env.ops, w, e, name, consumed))
  {
    hide Inv, AadFor, AckSession;
    if consumed {
      AckKeeps(env, w, name);
    } else {
      var s := w.sessions[name];
      var (rat, plaintext) := env.ops.decrypt(s.rat.value, e.ciphertext, e.aad);
      PutKeeps(env, w, name, s.(rat := Some(rat)));
      AckKeeps(env, Put(w, name, s.(rat := Some(rat))), name);
    }
  }

  lemma KeyBobKeeps(env: Env, w: Worker, name: string, sender: Pub, e: Envelope, rat: Ratchet)
    requires Inv(env, w) && !Live(w.sessions, name) && !HasLive(w.sessions, sender)
    ensures Inv(env, KeyBob(w, name, sender, e, rat))
  {
    var s, k := Lookup(w.sessions, name), Keyed(name, sender, false, e.pqCt != [], []);
    assert SessionMatches(w.journal, name, s);
    hide Inv;
    assert (w.journal + [k])[..|w.journal|] == w.journal;
    PutLogKeeps(env, w, name, s.(rat := Some(rat), peerPub := sender), k);
  }

  lemma DeliverKeeps(
    env: Env, w: Worker, e: Envelope, sender: Pub, consumed: bool, order: seq<string>, bob: BobKeying)
    requires Inv(env, w) && Enumerates(order, w.sessions)
    ensures Inv(env, Deliver(env.ops, w, e, sender, consumed, order, bob))
  {
    hide Inv, FirstLive, PeerTag, Decrypted, KeyBob;
    var found := FirstLive(w.sessions, order, sender);
    var name := if found.Some? then found.value else PeerTag(sender);
    var s := Lookup(w.sessions, name);
    if s.rat.Some? {
      DecryptedKeeps(env, w, e, name, consumed);
    } else if !bob.Ready? {
      PutKeeps(env, w, name, s);
    } else {
      KeyBobKeeps(env, w, name, sender, e, bob.ratchet);
      DecryptedKeeps(env, KeyBob(w, name, sender, e, bob.ratchet), e, name, consumed);
    }
  }

  lemma InboundKeeps(env: Env, w: Worker, e: Envelope, order: seq<string>, bob: BobKeying)
    requires Inv(env, w) && Enumerates(order, w.sessions)
    ensures Inv(env, Inbound(env.ops, w, e, order, bob))
  {
    if e.senderPubkey == [] {
      if e.recipient == ToUser {
        var (ss, hit) := TwoPass(env.ops, w.sessions, order, e);
        TwoPassKeeps(env.ops, w.sessions, order, e);
        TriedKeeps(env, w, ss, hit);
        if hit.Some? {
          DeliverKeeps(env, Log(w.(sessions := ss), SealProof(hit.value)), e, ss[hit.value].peerPub, true, order, bob);
        }
      }
    } else if |e.senderPubkey| == 32 && e.recipient != ToChannel {
      DeliverKeeps(env, w, e, e.senderPubkey, false, order, bob);
    }
  }

  lemma DrainItemKeeps(env: Env, w: Worker, p: Parked, now: nat, answer: DhtAnswer)
    requires Inv(env, w) && (answer.Found? ==> Honest(answer.hasPq, answer.keying))
    ensures Inv(env, DrainItem(env, w, p, now, answer))
  {
    hide Inv, HasLive, KeyAlice;
    var w' := DrainItem(env, w, p, now, answer);
    if !Released(p, now, answer) || answer.Missing? || Downgrade(w, p.peerPub, answer.hasPq) {
      FrameKeeps(env, w, w');
    } else {
      var w1 := Admitted(w, p.peerPub, answer.hasPq);
      AdmitKeeps(env, w, p.peerPub, answer.hasPq);
      if HasLive(w1.sessions, p.peerPub) || answer.keying.None? {
        FrameKeeps(env, w1, w');
      } else {
        KeyAliceKeeps(env, w1, p.send.peer, p.peerPub, answer.hasPq, answer.keying.value);
        FrameKeeps(env, KeyAlice(w1, p.send.peer, p.peerPub, answer.hasPq, answer.keying.value), w');
      }
    }
  }

  lemma {:induction false} DrainKeeps(env: Env, w: Worker, items: seq<Parked>, now: nat, answers: seq<DhtAnswer>)
    requires Inv(env, w) && |answers| == |items|
    requires forall i | 0 <= i < |answers| && answers[i].Found? :: Honest(answers[i].hasPq, answers[i].keying)
    ensures Inv(env, Drain(env, w, items, now, answers))
  {
    if items != [] {
      var n := |items| - 1;
      DrainKeeps(env, w, items[..n], now, answers[..n]);
      DrainItemKeeps(env, Drain(env, w, items[..n], now, answers[..n]), items[n], now, answers[n]);
    }
  }

  lemma FetchKeeps(env: Env, w: Worker, username: string)
    requires Inv(env, w)
    ensures Inv(env, SendFetch(w, username))
  {
    FifoKeeps(env, w, w.pendingFetch + [username], Fetch(username));
  }

  lemma NoSessionKeeps(env: Env, reach: Reach, w: Worker, s: PendingSend, order: seq<string>, now: nat)
    requires Inv(env, w) && !Live(w.sessions, s.peer)
    ensures Inv(env, NoSession(reach, w, s, order, now))
  {
    var w1 := Put(w, s.peer, Lookup(w.sessions, s.peer));
    PutKeeps(env, w, s.peer, Lookup(w.sessions, s.peer));
    FetchKeeps(env, w1, s.peer);
  }

  lemma {:induction false} DepositKeeps(env: Env, w: Worker, s: PendingSend, relays: seq<bool>)
    requires Inv(env, w) && Live(w.sessions, s.peer)
    ensures Inv(env, Deposit(env.ops, w, s, relays).0)
    decreases |relays|
  {
    hide Inv;
    if relays != [] {
      var to, rat := w.sessions[s.peer].peerPub, env.ops.encrypt(w.sessions[s.peer].rat.value);
      if rat.None? {
        DepositKeeps(env, w, s, relays[1..]);
      } else if relays[0] {
        EmitKeeps(env, w, s.peer, to, rat.value, Some(s));
      } else {
        EmitKeeps(env, w, s.peer, to, rat.value, None);
        DepositKeeps(env, Emit(w, s.peer, to, rat.value, None), s, relays[1..]);
      }
    }
  }

  lemma SendOneKeeps(env: Env, reach: Reach, w: Worker, s: PendingSend, route: Route)
    requires Inv(env, w) && Live(w.sessions, s.peer)
    ensures Inv(env, SendOne(env, reach, w, s, route).0)
  {
    hide Inv, Emit, Deposit;
    var rat := env.ops.encrypt(w.sessions[s.peer].rat.value);
    if rat.Some? {
      EmitKeeps(env, w, s.peer, w.sessions[s.peer].peerPub, rat.value, Some(s));
    }
    DepositKeeps(env, w, s, route.relays);
    var (w1, done) := Serverless(env, reach, w, s, route);
    var rat1 := env.ops.encrypt(w1.sessions[s.peer].rat.value);
    if !done && rat1.Some? {
      EmitKeeps(env, w1, s.peer, w1.sessions[s.peer].peerPub, rat1.value, Some(s));
    }
  }

  lemma {:induction false} SendPassKeeps(
    env: Env, reach: Reach, w: Worker, items: seq<PendingSend>, routes: seq<Route>, order: seq<string>, now: nat)
    requires Inv(env, w) && |routes| == |items|
    ensures Inv(env, SendPass(env, reach, w, items, routes, order, now).worker)
    decreases |items|
  {
    hide Inv, Rebind, NoSession, SendOne;
    if items != [] {
      var s := Rebind(env.ops, w.sessions, order, items[0]);
      if !Live(w.sessions, s.peer) {
        NoSessionKeeps(env, reach, w, s, order, now);
      } else {
        SendOneKeeps(env, reach, w, s, routes[0]);
        var (w1, ok) := SendOne(env, reach, w, s, routes[0]);
        if ok {
          SendPassKeeps(env, reach, w1, items[1..], routes[1..], order, now);
        }
      }
    }
  }

  /** The other fields do not matter. */
  lemma FrameKeeps(env: Env, w: Worker, w': Worker)
    requires Inv(env, w)
    requires w'.sessions == w.sessions && w'.journal == w.journal && w'.pendingFetch == w.pendingFetch
             && w'.pins == w.pins
    ensures Inv(env, w')
  {
  }

  lemma BundleKeeps(env: Env, w: Worker, target: string, pub: Pub, hasPq: bool, keying: Keying)
    requires Inv(env, w) && Honest(hasPq, keying)
    ensures Inv(env, BundleReply(w, target, pub, hasPq, keying))
  {
    hide Inv, HasLive, KeyAlice;
    if !Downgrade(w, pub, hasPq) {
      var w1, w' := Admitted(w, pub, hasPq), BundleReply(w, target, pub, hasPq, keying);
      AdmitKeeps(env, w, pub, hasPq);
      if HasLive(w1.sessions, pub) {
        FrameKeeps(env, w1, w');
      } else if keying.None? {
        PutKeeps(env, w1, target, Lookup(w1.sessions, target).(peerPub := pub));
      } else {
        KeyAliceKeeps(env, w1, target, pub, hasPq, keying.value);
        FrameKeeps(env, KeyAlice(w1, target, pub, hasPq, keying.value), w');
      }
    }
  }

  lemma KeyReplyKeeps(env: Env, w: Worker, reply: Reply)
    requires Inv(env, w) && (reply.Bundle? ==> Honest(reply.hasPq, reply.keying))
    ensures Inv(env, KeyReply(w, reply))
  {
    hide Inv, BundleReply;
    if w.pendingFetch != [] {
      var target := w.pendingFetch[0];
      var w1 := Log(w.(pendingFetch := w.pendingFetch[1..]), Response(target));
      FifoKeeps(env, w, w.pendingFetch[1..], Response(target));
      if target == "" {
      } else if reply.NotFound? {
        FrameKeeps(env, w1, KeyReply(w, reply));
      } else {
        BundleKeeps(env, w1, target, reply.pub, reply.hasPq, reply.keying);
      }
    }
  }

  lemma ChannelOneKeeps(env: Env, w: Worker, op: ChannelOp, kind: InviteKind)
    requires Inv(env, w)
    ensures Inv(env, ChannelOne(env.ops, w, op, kind).0)
  {
    hide Inv;
    var w' := ChannelOne(env.ops, w, op, kind).0;
    if op.peer.None? || kind != BySenderKey {
      FrameKeeps(env, w, w');
    } else if !Live(w.sessions, op.peer.value) {
      var peer := op.peer.value;
      var w1 := Put(w, peer, Lookup(w.sessions, peer));
      PutKeeps(env, w, peer, Lookup(w.sessions, peer));
      FetchKeeps(env, w1, peer);
      FrameKeeps(env, SendFetch(w1, peer), w');
    } else {
      var s := w.sessions[op.peer.value];
      var rat := env.ops.encrypt(s.rat.value);
      if rat.Some? {
        EmitKeeps(env, w, op.peer.value, s.peerPub, rat.value, None);
      }
    }
  }

  lemma {:induction false} ChannelPassKeeps(env: Env, w: Worker, items: seq<ChannelOp>, kinds: seq<InviteKind>)
    requires Inv(env, w) && |kinds| == |items|
    ensures Inv(env, ChannelPass(env.ops, w, items, kinds).worker)
    decreases |items|
  {
    hide Inv, ChannelOne;
    if items != [] {
      ChannelOneKeeps(env, w, items[0], kinds[0]);
      var (w1, end) := ChannelOne(env.ops, w, items[0], kinds[0]);
      if end == AllSent {
        ChannelPassKeeps(env, w1, items[1..], kinds[1..]);
      }
    }
  }

  lemma MediaKeeps(env: Env, w: Worker, pub: Pub, order: seq<string>)
    requires Inv(env, w)
    ensures Inv(env, MediaSignal(env.ops, w, pub, order))
  {
    var hit := FirstLabelled(w.sessions, order, pub);
    if hit.Some? && w.sessions[hit.value].rat.Some? {
      var rat := env.ops.encrypt(w.sessions[hit.value].rat.value);
      if rat.Some? {
        EmitKeeps(env, w, hit.value, pub, rat.value, None);
      }
    }
  }

  lemma StepKeeps(env: Env, w: Worker, e: Event)
    requires Inv(env, w) && Possible(w, e)
    ensures Inv(env, Step(env, w, e))
  {
    match e
    case OnEnvelope(envelope, order, bob) => InboundKeeps(env, w, envelope, order, bob);
    case OnDrain(now, answers) => DrainKeeps(env, w.(parking := []), w.parking, now, answers);
    case OnSendPass(reach, order, routes, now) =>
      SendPassKeeps(env, reach, w.(queue := []), w.queue, routes, order, now);
    case OnKeyReply(reply) => KeyReplyKeeps(env, w, reply);
    case OnUsernameReply(pub, username, found) => FetchKeeps(env, w, username);
    case OnMeshRequest(pub) => FifoKeeps(env, w, w.pendingFetch, Query(pub));
    case OnChannelOps(kinds) => ChannelPassKeeps(env, w.(channelOps := []), w.channelOps, kinds);
    case OnMedia(pub, order) => MediaKeeps(env, w, pub, order);
    case _ =>
  }

  /** The invariant holds in every state of every run. */
  lemma {:induction false} RunKeeps(env: Env, ws: seq<Worker>, es: seq<Event>, i: nat)
    requires IsRun(env, ws, es) && i < |ws|
    ensures Inv(env, ws[i])
  {
    if i > 0 {
      RunKeeps(env, ws, es, i - 1);
      StepKeeps(env, ws[i - 1], es[i - 1]);
    }
  }
}
