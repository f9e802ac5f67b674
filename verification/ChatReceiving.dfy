/**
 What an inbound envelope does, told from the envelope and the primitives: under which ratchet it
 is opened, which flags that latches, and that nothing else counts as a proof of receipt.
 */
module ChatReceiving {
  import opened Common
  import opened Sessions
  import opened ChatWorker
  import opened ChatInvariants
  import ChatSending
  import Digits

  // ----- Associated data ---------------------------------------------------

  /** Absent, or bound to the envelope's identity and time. */
  predicate AadAccepted(e: Envelope) {
    e.aad == [] || e.aad == AadFor(e.id, e.timestamp)
  }

  /** The same associated data is accepted for no other identity of that length, and for no other time. */
  lemma AadBinds(e: Envelope, f: Envelope)
    requires AadAccepted(e) && AadAccepted(f) && e.aad == f.aad != [] && |e.id| == |f.id|
    requires e.timestamp < 0x1_0000_0000_0000_0000 && f.timestamp < 0x1_0000_0000_0000_0000
    ensures e.id == f.id && e.timestamp == f.timestamp
  {
    var x, y := Digits.BeBytes(e.timestamp, 8), Digits.BeBytes(f.timestamp, 8);
    assert e.aad[..|e.id|] == e.id && f.aad[..|f.id|] == f.id;
    assert e.aad[|e.id|..] == x && f.aad[|f.id|..] == y;
    Digits.U64Range();
    Digits.BeRoundTrip(e.timestamp, 8);
    Digits.BeRoundTrip(f.timestamp, 8);
  }

  // ----- Envelopes that name their sender ----------------------------------

  predicate IsDirect(e: Envelope) {
    |e.senderPubkey| == 32 && e.recipient != ToChannel
  }

  /** The entry as the envelope meets it: as it is, or just keyed for the sender. */
  function Met(s: Session, sender: Pub, bob: BobKeying): Session {
    if s.rat.None? && bob.Ready? then s.(rat := Some(bob.ratchet), peerPub := sender) else s
  }

  /** The envelope passes the check and decrypts under the session. */
  predicate Opens(ops: Primitives, s: Session, e: Envelope) {
    s.rat.Some? && AadAccepted(e) && ops.decrypt(s.rat.value, e.ciphertext, e.aad).1.Some?
  }

  /** The ratchet moves if the envelope passes the check, and the flags are latched if it opens. */
  ghost predicate Received(ops: Primitives, s: Session, s': Session, e: Envelope) {
    && s'.rat == (if s.rat.Some? && AadAccepted(e) then Some(ops.decrypt(s.rat.value, e.ciphertext, e.aad).0)
        else s.rat)
    && s'.peerPub == s.peerPub
    && (s'.pqAcked <==> s.pqAcked || Opens(ops, s, e))
    && (s'.sealOutbound <==> s.sealOutbound || Opens(ops, s, e))
    && s'.pqCt == (if Opens(ops, s, e) && !s.pqAcked then [] else s.pqCt)
  }

  /** Of the sessions only the entry `name` may have changed, and of the rest of the worker only the journal. */
  ghost predicate OnlyAt(w: Worker, w': Worker, name: string) {
    && name in w'.sessions
    && w' == w.(sessions := w.sessions[name := w'.sessions[name]], journal := w'.journal)
  }

  lemma DecryptedIs(ops: Primitives, w: Worker, e: Envelope, name: string)
    requires Live(w.sessions, name)
    ensures var w' := Decrypted(ops, w, e, name, false);
            && OnlyAt(w, w', name)
            && Received(ops, w.sessions[name], w'.sessions[name], e)
            && w'.journal == w.journal + if Opens(ops, w.sessions[name], e) then [Ack(name)] else []
  {
    hide AadFor;
    assert w.sessions[name := w.sessions[name]] == w.sessions;
  }

  /**
   An envelope that names its sender meets one entry and changes no other: it is acknowledged if and
   only if it decrypts under the ratchet it meets there.
   */
  lemma DirectInbound(ops: Primitives, w: Worker, e: Envelope, order: seq<string>, bob: BobKeying)
    returns (name: string)
    requires Enumerates(order, w.sessions) && IsDirect(e)
    ensures HasLive(w.sessions, e.senderPubkey) ==> LiveFor(w.sessions, name, e.senderPubkey)
    ensures !HasLive(w.sessions, e.senderPubkey) ==> name == PeerTag(e.senderPubkey)
    ensures var w' := Inbound(ops, w, e, order, bob);
            var s := Lookup(w.sessions, name);
            var met := Met(s, e.senderPubkey, bob);
            && OnlyAt(w, w', name)
            && Received(ops, met, w'.sessions[name], e)
            && w'.journal == w.journal
                 + (if met != s then [Keyed(name, e.senderPubkey, false, e.pqCt != [], [])] else [])
                 + (if Opens(ops, met, e) then [Ack(name)] else [])
  {
    hide FirstLive, PeerTag, AadFor, Decrypted;
    var sender: Pub := e.senderPubkey;
    var found := FirstLive(w.sessions, order, sender);
    name := if found.Some? then found.value else PeerTag(sender);
    if HasLive(w.sessions, sender) {
      var n :| LiveFor(w.sessions, n, sender);
      assert n in order;
    }
    var s := Lookup(w.sessions, name);
    if s.rat.Some? {
      DecryptedIs(ops, w, e, name);
    } else if bob.Ready? {
      DecryptedIs(ops, KeyBob(w, name, sender, e, bob.ratchet), e, name);
    }
  }

  /** Two senders share an entry for first envelopes exactly when their keys start alike. */
  lemma PeerTagIff(p: Pub, q: Pub)
    ensures PeerTag(p) == PeerTag(q) <==> p[..8] == q[..8]
  {
    var a, b := PeerTag(p), PeerTag(q);
    assert forall i | 0 <= i < 8 :: a[5 + i] == p[i] as char && b[5 + i] == q[i] as char;
    if a == b {
      forall i | 0 <= i < 8
        ensures p[..8][i] == q[..8][i]
      {
        assert a[5 + i] == b[5 + i];
      }
    }
    if p[..8] == q[..8] {
      assert forall i | 0 <= i < 8 :: p[i] == p[..8][i] && q[i] == q[..8][i];
      assert a == b;
    }
  }

  /** An envelope goes to a session of the sender it names, or to one keyed for it there and then. */
  ghost predicate GoesToItsSender(ss: SessionMap, order: seq<string>, sender: Pub, bob: BobKeying) {
    var found := FirstLive(ss, order, sender);
    var name := if found.Some? then found.value else PeerTag(sender);
    Live(ss, name) || bob.Ready? ==> Met(Lookup(ss, name), sender, bob).peerPub == sender
  }

  /** It does unless the sender has no live session and the entry for its first envelope is another peer's. */
  lemma GoesToItsSenderIff(ss: SessionMap, order: seq<string>, sender: Pub, bob: BobKeying)
    requires Enumerates(order, ss)
    ensures GoesToItsSender(ss, order, sender, bob) <==> HasLive(ss, sender) || !Live(ss, PeerTag(sender))
  {
    hide PeerTag;
    var found := FirstLive(ss, order, sender);
    if found.None? {
      forall n
        ensures !LiveFor(ss, n, sender)
      {
        assert n in order <==> n in ss;
      }
    } else {
      assert LiveFor(ss, found.value, sender);
    }
  }

  /** An envelope from `sender` with an empty body. */
  function Letter(sender: Pub): Envelope {
    Envelope(sender, ToUser, [], 0, [], [], [])
  }

  /** Two senders whose keys start alike: the second one's first envelope moves the first one's ratchet. */
  lemma SharedTagRun(env: Env, p: Pub, q: Pub, rat: Ratchet) returns (ws: seq<Worker>, es: seq<Event>)
    requires p != q && p[..8] == q[..8]
    ensures IsRun(env, ws, es) && |es| == 2 && es[1] == OnEnvelope(Letter(q), [PeerTag(q)], Ready(rat))
    ensures LiveFor(ws[1].sessions, PeerTag(q), p) && LiveFor(ws[2].sessions, PeerTag(q), p)
    ensures ws[2].sessions[PeerTag(q)].rat == Some(env.ops.decrypt(ws[1].sessions[PeerTag(q)].rat.value, [], []).0)
    ensures !HasLive(ws[2].sessions, q)
  {
    hide PeerTag, Inbound;
    PeerTagIff(p, q);
    var tag := PeerTag(q);
    var w0 := Start(env);
    es := [OnEnvelope(Letter(p), [], Ready(rat)), OnEnvelope(Letter(q), [tag], Ready(rat))];
    var a := DirectInbound(env.ops, w0, Letter(p), [], Ready(rat));
    var w1 := Step(env, w0, es[0]);
    assert w1.sessions.Keys == {tag};
    var b := DirectInbound(env.ops, w1, Letter(q), [tag], Ready(rat));
    ws := [w0, w1, Step(env, w1, es[1])];
  }

  // ----- Sealed envelopes --------------------------------------------------

  /** The ratchet after `k` trials, each of which moves it if it opens the envelope and else leaves it alone. */
  function Offered(ops: Primitives, rat: Option<Ratchet>, e: Envelope, k: nat): Option<Ratchet> {
    if k == 0 || rat.None? then rat
    else
      var r := Offered(ops, rat, e, k - 1);
      if r.None? then None
      else
        var opening := ops.tryDecrypt(r.value, e.ciphertext, e.aad);
        if opening.None? then r else Some(opening.value.0)
  }

  /** After some trials; a flag may have been latched. */
  ghost predicate BecameBy(ops: Primitives, s: Session, s': Session, e: Envelope) {
    exists k: nat :: s' == s.(rat := Offered(ops, s.rat, e, k), sealOutbound := s'.sealOutbound)
  }

  /** The ratchet opens the envelope, finds the peer's signature in it, and is `after` then. */
  ghost predicate OpensSealed(ops: Primitives, rat: Option<Ratchet>, peer: Pub, e: Envelope, after: Option<Ratchet>) {
    && rat.Some?
    && var opening := ops.tryDecrypt(rat.value, e.ciphertext, e.aad);
       && opening.Some? && ops.sealedBy(opening.value.1, peer, e.id, e.timestamp) && after == Some(opening.value.0)
  }

  /** The session did so when its turn came. */
  ghost predicate AcceptedBy(ops: Primitives, s: Session, e: Envelope, after: Option<Ratchet>) {
    exists k: nat :: OpensSealed(ops, Offered(ops, s.rat, e, k), s.peerPub, e, after)
  }

  lemma BecameItself(ops: Primitives, s: Session, e: Envelope)
    ensures BecameBy(ops, s, s, e)
  {
    assert s.rat == Offered(ops, s.rat, e, 0);
  }

  lemma BecameNext(ops: Primitives, s: Session, t: Session, e: Envelope)
    requires BecameBy(ops, s, t, e)
    ensures BecameBy(ops, s, Tried(ops, t, e), e)
    ensures Accepts(ops, t, e) ==> AcceptedBy(ops, s, e, Tried(ops, t, e).rat)
  {
    var k: nat :| t == s.(rat := Offered(ops, s.rat, e, k), sealOutbound := t.sealOutbound);
    assert Tried(ops, t, e).rat == Offered(ops, s.rat, e, k + 1);
    if Accepts(ops, t, e) {
      assert OpensSealed(ops, Offered(ops, s.rat, e, k), s.peerPub, e, Tried(ops, t, e).rat);
    }
  }

  /** Every session of `ts` is what `ss` has there, after being offered the envelope some number of times. */
  ghost predicate AllBecame(ops: Primitives, ss: SessionMap, ts: SessionMap, e: Envelope) {
    ts.Keys == ss.Keys && forall n | n in ss :: BecameBy(ops, ss[n], ts[n], e)
  }

  lemma {:induction false} ScanProves(
    ops: Primitives, ss: SessionMap, ts: SessionMap, order: seq<string>, e: Envelope, matching: bool)
    requires AllBecame(ops, ss, ts, e) && forall name | name in order :: name in ts
    ensures var (ts', hit) := Scan(ops, ts, order, e, matching);
            AllBecame(ops, ss, ts', e) && (hit.Some? ==> AcceptedBy(ops, ss[hit.value], e, ts'[hit.value].rat))
    decreases |order|
  {
    hide BecameBy, AcceptedBy;
    if order != [] {
      var name := order[0];
      if Eligible(ops, ts[name], e, matching) {
        BecameNext(ops, ss[name], ts[name], e);
        if !Accepts(ops, ts[name], e) {
          ScanProves(ops, ss, ts[name := Tried(ops, ts[name], e)], order[1..], e, matching);
        }
      } else {
        ScanProves(ops, ss, ts, order[1..], e, matching);
      }
    }
  }

  lemma TwoPassProves(ops: Primitives, ss: SessionMap, order: seq<string>, e: Envelope)
    requires forall name | name in order :: name in ss
    ensures var (ss', hit) := TwoPass(ops, ss, order, e);
            AllBecame(ops, ss, ss', e) && (hit.Some? ==> AcceptedBy(ops, ss[hit.value], e, ss'[hit.value].rat))
  {
    hide BecameBy, AcceptedBy, Scan;
    forall n | n in ss
      ensures BecameBy(ops, ss[n], ss[n], e)
    {
      BecameItself(ops, ss[n], e);
    }
    ScanProves(ops, ss, ss, order, e, true);
    ScanProves(ops, ss, Scan(ops, ss, order, e, true).0, order, e, false);
  }

  lemma ConsumedIs(ops: Primitives, w: Worker, e: Envelope, name: string, order: seq<string>, bob: BobKeying)
    requires Live(w.sessions, name) && FirstLive(w.sessions, order, w.sessions[name].peerPub) == Some(name)
    ensures var w' := Deliver(ops, w, e, w.sessions[name].peerPub, true, order, bob);
            w' == if AadAccepted(e) then AckSession(w, name) else w
  {
    hide FirstLive, AadFor;
  }

  /** The session that accepted a sealed envelope is latched, and acknowledged if the envelope passes the check. */
  ghost predicate SealedAt(s: Session, s': Session, e: Envelope) {
    && s'.rat == s.rat && s'.peerPub == s.peerPub && s'.sealOutbound
    && (s'.pqAcked <==> s.pqAcked || AadAccepted(e))
    && s'.pqCt == if AadAccepted(e) && !s.pqAcked then [] else s.pqCt
  }

  /** A sealed envelope moves ratchets by offering itself, proves the session that accepts it, and acknowledges it. */
  lemma SealedInbound(env: Env, w: Worker, e: Envelope, order: seq<string>, bob: BobKeying)
    requires Inv(env, w) && Enumerates(order, w.sessions) && e.senderPubkey == [] && e.recipient == ToUser
    ensures var w' := Inbound(env.ops, w, e, order, bob);
            var hit := TwoPass(env.ops, w.sessions, order, e).1;
            var tried := w.(sessions := TwoPass(env.ops, w.sessions, order, e).0);
            && AllBecame(env.ops, w.sessions, tried.sessions, e)
            && (hit.None? ==> w' == tried)
            && (hit.Some? ==>
                  && hit.value in w.sessions
                      && AcceptedBy(env.ops, w.sessions[hit.value], e, tried.sessions[hit.value].rat)
                  && OnlyAt(tried, w', hit.value)
                  && SealedAt(tried.sessions[hit.value], w'.sessions[hit.value], e)
                  && w'.journal == w.journal + [SealProof(hit.value)] + if AadAccepted(e) then [Ack(hit.value)] else [])
  {
    hide TwoPass, Deliver, FirstLive, AadFor, AllBecame, AcceptedBy, Inv;
    var (ss, hit) := TwoPass(env.ops, w.sessions, order, e);
    TwoPassProves(env.ops, w.sessions, order, e);
    if hit.Some? {
      SealedLookup(env, w, e, order);
      ConsumedIs(env.ops, Log(w.(sessions := ss), SealProof(hit.value)), e, hit.value, order, bob);
      assert ss[hit.value := ss[hit.value]] == ss;
    }
  }

  lemma SealedLookup(env: Env, w: Worker, e: Envelope, order: seq<string>)
    requires Inv(env, w) && Enumerates(order, w.sessions) && TwoPass(env.ops, w.sessions, order, e).1.Some?
    ensures var (ss, hit) := TwoPass(env.ops, w.sessions, order, e);
            && Live(ss, hit.value) && FirstLive(ss, order, ss[hit.value].peerPub) == hit
            && ss[hit.value].sealOutbound
  {
    hide TwoPass;
    var (ss, hit) := TwoPass(env.ops, w.sessions, order, e);
    TwoPassKeeps(env.ops, w.sessions, order, e);
    TriedKeeps(env, w, ss, hit);
    assert LiveFor(ss, hit.value, ss[hit.value].peerPub);
  }

  // ----- What counts as a proof --------------------------------------------

  predicate IsProof(e: Entry) {
    e.Ack? || e.SealProof?
  }

  /**
   The event is an envelope that the session `name` opened: by trial and with its peer's signature
   when it is sealed, else by decryption under the ratchet it met.
   */
  ghost predicate Proves(ops: Primitives, w: Worker, ev: Event, name: string) {
    && ev.OnEnvelope?
    && var e := ev.envelope;
       if e.senderPubkey == [] then name in w.sessions && exists rat :: AcceptedBy(ops, w.sessions[name], e, rat)
       else
         && |e.senderPubkey| == 32
         && (LiveFor(w.sessions, name, e.senderPubkey) || name == PeerTag(e.senderPubkey))
         && Opens(ops, Met(Lookup(w.sessions, name), e.senderPubkey, ev.bob), e)
  }

  /** The journal grew, and by no proof. */
  ghost predicate Quiet(j: Journal, j': Journal) {
    j <= j' && forall n | |j| <= n < |j'| :: !IsProof(j'[n])
  }

  lemma {:induction false} DrainQuiet(env: Env, w: Worker, items: seq<Parked>, now: nat, answers: seq<DhtAnswer>)
    requires |answers| == |items|
    ensures Quiet(w.journal, Drain(env, w, items, now, answers).journal)
  {
    hide HasLive;
    if items != [] {
      var n := |items| - 1;
      DrainQuiet(env, w, items[..n], now, answers[..n]);
    }
  }

  lemma EnvelopeProves(env: Env, w: Worker, ev: Event)
    requires Inv(env, w) && Possible(w, ev) && ev.OnEnvelope?
    ensures var j, j' := w.journal, Step(env, w, ev).journal;
            j <= j' && forall n | |j| <= n < |j'| && IsProof(j'[n]) :: Proves(env.ops, w, ev, j'[n].name)
  {
    hide Inv, Inbound, PeerTag, AcceptedBy, Opens, Received;
    var e := ev.envelope;
    if e.senderPubkey == [] && e.recipient == ToUser {
      SealedInbound(env, w, e, ev.order, ev.bob);
    } else if IsDirect(e) {
      var name := DirectInbound(env.ops, w, e, ev.order, ev.bob);
    } else {
      Ignored(env.ops, w, e, ev.order, ev.bob);
    }
  }

  /** Everything else is ignored. */
  lemma Ignored(ops: Primitives, w: Worker, e: Envelope, order: seq<string>, bob: BobKeying)
    requires Enumerates(order, w.sessions) && !IsDirect(e) && (e.senderPubkey != [] || e.recipient != ToUser)
    ensures Inbound(ops, w, e, order, bob) == w
  {
  }

  /** Every proof in the journal of a run was logged by a step whose envelope the named session opened. */
  lemma StepProves(env: Env, w: Worker, ev: Event)
    requires Inv(env, w) && Possible(w, ev)
    ensures var j, j' := w.journal, Step(env, w, ev).journal;
            j <= j' && forall n | |j| <= n < |j'| && IsProof(j'[n]) :: Proves(env.ops, w, ev, j'[n].name)
  {
    hide Inv, Proves, HasLive, SendPass, ChannelPass, Drain, Inbound, ChatSending.Follows;
    match ev
    case OnEnvelope(_, _, _) => EnvelopeProves(env, w, ev);
    case OnDrain(now, answers) => DrainQuiet(env, w.(parking := []), w.parking, now, answers);
    case OnSendPass(reach, order, routes, now) =>
      ChatSending.SendPassSent(env, reach, w.(queue := []), w.queue, routes, order, now);
    case OnChannelOps(kinds) => ChatSending.ChannelPassSent(env.ops, w.(channelOps := []), w.channelOps, kinds);
    case OnMedia(pub, order) => ChatSending.MediaSent(env.ops, w, pub, order);
    case OnKeyReply(reply) => KeyReplyQuiet(w, reply);
    case _ =>
  }

  lemma BundleQuiet(w: Worker, target: string, pub: Pub, hasPq: bool, keying: Keying)
    ensures Quiet(w.journal, BundleReply(w, target, pub, hasPq, keying).journal)
  {
    hide HasLive;
  }

  lemma KeyReplyQuiet(w: Worker, reply: Reply)
    ensures Quiet(w.journal, KeyReply(w, reply).journal)
  {
    hide BundleReply;
    if w.pendingFetch != [] && reply.Bundle? {
      var target := w.pendingFetch[0];
      var w1 := Log(w.(pendingFetch := w.pendingFetch[1..]), Response(target));
      BundleQuiet(w1, target, reply.pub, reply.hasPq, reply.keying);
    }
  }

  /** The step at which an entry of the journal was logged. */
  lemma {:induction false} LoggedAt(env: Env, ws: seq<Worker>, es: seq<Event>, i: nat, n: nat) returns (x: nat)
    requires IsRun(env, ws, es) && i < |ws| && n < |ws[i].journal|
    ensures x < i && |ws[x].journal| <= n < |ws[x + 1].journal| && ws[x + 1].journal <= ws[i].journal
  {
    hide Step, Inv, Proves, Possible, IsProof;
    RunKeeps(env, ws, es, i - 1);
    StepProves(env, ws[i - 1], es[i - 1]);
    if n < |ws[i - 1].journal| {
      x := LoggedAt(env, ws, es, i - 1, n);
    } else {
      x := i - 1;
    }
  }

  /** In every run, each proof in the journal was logged by an envelope that the named session opened at that step. */
  lemma EveryProofWasOpened(env: Env, ws: seq<Worker>, es: seq<Event>, i: nat, n: nat) returns (x: nat)
    requires IsRun(env, ws, es) && i < |ws| && n < |ws[i].journal| && IsProof(ws[i].journal[n])
    ensures x < i && |ws[x].journal| <= n < |ws[x + 1].journal| && Proves(env.ops, ws[x], es[x], ws[i].journal[n].name)
  {
    x := LoggedAt(env, ws, es, i, n);
    RunKeeps(env, ws, es, x);
    StepProves(env, ws[x], es[x]);
  }
}
