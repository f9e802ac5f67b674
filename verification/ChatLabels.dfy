/**
 Which peer a live ratchet is labelled with. The key-fetch handler overwrites the label
 before the key agreement that may throw, so the label can come apart from the ratchet;
 this module says exactly when.
 */
module ChatLabels {
  import opened Common
  import opened Sessions
  import opened ChatWorker

  /** The peer the current ratchet of `name` was keyed for. */
  ghost function KeyedFor(j: Journal, name: string): Option<Pub> {
    if j == [] then None
    else if j[|j| - 1].Keyed? && j[|j| - 1].name == name then Some(j[|j| - 1].pub)
    else KeyedFor(j[..|j| - 1], name)
  }

  ghost predicate Labelled(w: Worker, name: string) {
    Live(w.sessions, name) ==> KeyedFor(w.journal, name) == Some(w.sessions[name].peerPub)
  }

  ghost predicate LabelsMatch(w: Worker) {
    forall name :: Labelled(w, name)
  }

  /**
   A key agreement that throws after the session's key was overwritten, on a session that is live
   for someone else.
   */
  ghost predicate Relabels(w: Worker, e: Event) {
    && e.OnKeyReply? && e.reply.Bundle? && e.reply.keying.None?
    && w.pendingFetch != [] && w.pendingFetch[0] != "" && Live(w.sessions, w.pendingFetch[0])
    && !Downgrade(w, e.reply.pub, e.reply.hasPq) && !HasLive(w.sessions, e.reply.pub)
  }

  lemma KeyedForAppend(j: Journal, e: Entry, name: string)
    ensures KeyedFor(j + [e], name) == if e.Keyed? && e.name == name then Some(e.pub) else KeyedFor(j, name)
  {
    assert (j + [e])[..|j|] == j;
  }

  /**
   An update keeps the labels if the session it writes stays unkeyed, keeps its label, or is keyed
   for its new label.
   */
  lemma PutLabels(w: Worker, name: string, s: Session)
    requires LabelsMatch(w)
    requires s.rat.Some? ==> LiveFor(w.sessions, name, s.peerPub)
    ensures LabelsMatch(Put(w, name, s))
  {
    forall n
      ensures Labelled(Put(w, name, s), n)
    {
      assert Labelled(w, n);
    }
  }

  lemma LogLabels(w: Worker, e: Entry)
    requires LabelsMatch(w) && !e.Keyed?
    ensures LabelsMatch(Log(w, e))
  {
    forall n
      ensures Labelled(Log(w, e), n)
    {
      assert Labelled(w, n);
      KeyedForAppend(w.journal, e, n);
    }
  }

  lemma KeyLabels(w: Worker, s: Session, e: Entry)
    requires LabelsMatch(w) && e.Keyed? && s.peerPub == e.pub
    ensures LabelsMatch(Log(Put(w, e.name, s), e))
  {
    var w' := Log(Put(w, e.name, s), e);
    forall n
      ensures Labelled(w', n)
    {
      assert Labelled(w, n);
      KeyedForAppend(w.journal, e, n);
    }
  }

  lemma FrameLabels(w: Worker, w': Worker)
    requires LabelsMatch(w) && w'.sessions == w.sessions && w'.journal == w.journal
    ensures LabelsMatch(w')
  {
    forall n
      ensures Labelled(w', n)
    {
      assert Labelled(w, n);
    }
  }

  lemma DecryptedLabels(ops: Primitives, w: Worker, e: Envelope, name: string, consumed: bool)
    requires LabelsMatch(w) && Live(w.sessions, name)
    ensures LabelsMatch(Decrypted(ops, w, e, name, consumed))
  {
    hide LabelsMatch, AadFor, AckSession;
    var s := w.sessions[name];
    var (rat, plaintext) := ops.decrypt(s.rat.value, e.ciphertext, e.aad);
    PutLabels(w, name, s.(rat := Some(rat)));
    AckLabels(w, name);
    AckLabels(Put(w, name, s.(rat := Some(rat))), name);
  }

  lemma DeliverLabels(
    ops: Primitives, w: Worker, e: Envelope, sender: Pub, consumed: bool, order: seq<string>, bob: BobKeying)
    requires LabelsMatch(w)
    ensures LabelsMatch(Deliver(ops, w, e, sender, consumed, order, bob))
  {
    hide LabelsMatch, FirstLive, PeerTag, Decrypted;
    var found := FirstLive(w.sessions, order, sender);
    var name := if found.Some? then found.value else PeerTag(sender);
    var s := Lookup(w.sessions, name);
    if s.rat.Some? {
      DecryptedLabels(ops, w, e, name, consumed);
    } else if !bob.Ready? {
      PutLabels(w, name, s);
    } else {
      var k := Keyed(name, sender, false, e.pqCt != [], []);
      KeyLabels(w, s.(rat := Some(bob.ratchet), peerPub := sender), k);
      DecryptedLabels(ops, KeyBob(w, name, sender, e, bob.ratchet), e, name, consumed);
    }
  }

  lemma AckLabels(w: Worker, name: string)
    requires LabelsMatch(w) && Live(w.sessions, name)
    ensures LabelsMatch(AckSession(w, name))
  {
    hide LabelsMatch;
    var s := w.sessions[name];
    var s' := s.(pqAcked := true, pqCt := if s.pqAcked then s.pqCt else [], sealOutbound := true);
    PutLabels(w, name, s');
    LogLabels(Put(w, name, s'), Ack(name));
  }

  lemma EmitLabels(w: Worker, name: string, to: Pub, rat: Ratchet, send: Option<PendingSend>)
    requires LabelsMatch(w) && Live(w.sessions, name)
    ensures LabelsMatch(Emit(w, name, to, rat, send))
  {
    hide LabelsMatch;
    var s := w.sessions[name];
    PutLabels(w, name, s.(rat := Some(rat)));
    LogLabels(Put(w, name, s.(rat := Some(rat))), Wire(name, to, s.sealOutbound, s.pqCt, send));
  }

  lemma InboundLabels(ops: Primitives, w: Worker, e: Envelope, order: seq<string>, bob: BobKeying)
    requires LabelsMatch(w) && Enumerates(order, w.sessions)
    ensures LabelsMatch(Inbound(ops, w, e, order, bob))
  {
    if e.senderPubkey == [] {
      if e.recipient == ToUser {
        var (ss, hit) := TwoPass(ops, w.sessions, order, e);
        TwoPassKeeps(ops, w.sessions, order, e);
        var w1 := w.(sessions := ss);
        forall n
          ensures Labelled(w1, n)
        {
          assert Labelled(w, n);
        }
        if hit.Some? {
          LogLabels(w1, SealProof(hit.value));
          DeliverLabels(ops, Log(w1, SealProof(hit.value)), e, ss[hit.value].peerPub, true, order, bob);
        }
      }
    } else if |e.senderPubkey| == 32 && e.recipient != ToChannel {
      DeliverLabels(ops, w, e, e.senderPubkey, false, order, bob);
    }
  }

  lemma AdmitLabels(w: Worker, pub: Pub, hasPq: bool)
    requires LabelsMatch(w)
    ensures LabelsMatch(Admitted(w, pub, hasPq))
  {
    hide LabelsMatch;
    var w1 := if hasPq then w.(pins := w.pins + {pub}) else w;
    FrameLabels(w, w1);
    LogLabels(w1, Admit(pub, hasPq));
  }

  lemma {:induction false} DrainLabels(env: Env, w: Worker, items: seq<Parked>, now: nat, answers: seq<DhtAnswer>)
    requires LabelsMatch(w) && |answers| == |items|
    ensures LabelsMatch(Drain(env, w, items, now, answers))
  {
    hide LabelsMatch, HasLive;
    if items != [] {
      var n := |items| - 1;
      DrainLabels(env, w, items[..n], now, answers[..n]);
      var v, p, answer := Drain(env, w, items[..n], now, answers[..n]), items[n], answers[n];
      var v' := DrainItem(env, v, p, now, answer);
      if !Released(p, now, answer) || answer.Missing? || Downgrade(v, p.peerPub, answer.hasPq) {
        FrameLabels(v, v');
      } else {
        AdmitLabels(v, p.peerPub, answer.hasPq);
        var v1 := Admitted(v, p.peerPub, answer.hasPq);
        if HasLive(v1.sessions, p.peerPub) || answer.keying.None? {
          FrameLabels(v1, v');
        } else {
          var (rat, ct) := answer.keying.value;
          KeyLabels(v1, Session(p.peerPub, Some(rat), ct, false, false),
            Keyed(p.send.peer, p.peerPub, true, answer.hasPq, ct));
          FrameLabels(KeyAlice(v1, p.send.peer, p.peerPub, answer.hasPq, (rat, ct)), v');
        }
      }
    }
  }

  lemma FetchLabels(w: Worker, username: string)
    requires LabelsMatch(w)
    ensures LabelsMatch(SendFetch(w, username))
  {
    hide LabelsMatch;
    FrameLabels(w, w.(pendingFetch := w.pendingFetch + [username]));
    LogLabels(w.(pendingFetch := w.pendingFetch + [username]), Fetch(username));
  }

  lemma {:induction false} DepositLabels(ops: Primitives, w: Worker, s: PendingSend, relays: seq<bool>)
    requires LabelsMatch(w) && Live(w.sessions, s.peer)
    ensures LabelsMatch(Deposit(ops, w, s, relays).0)
    decreases |relays|
  {
    hide LabelsMatch;
    if relays != [] {
      var to, rat := w.sessions[s.peer].peerPub, ops.encrypt(w.sessions[s.peer].rat.value);
      if rat.None? {
        DepositLabels(ops, w, s, relays[1..]);
      } else if relays[0] {
        EmitLabels(w, s.peer, to, rat.value, Some(s));
      } else {
        EmitLabels(w, s.peer, to, rat.value, None);
        DepositLabels(ops, Emit(w, s.peer, to, rat.value, None), s, relays[1..]);
      }
    }
  }

  lemma SendOneLabels(env: Env, reach: Reach, w: Worker, s: PendingSend, route: Route)
    requires LabelsMatch(w) && Live(w.sessions, s.peer)
    ensures LabelsMatch(SendOne(env, reach, w, s, route).0)
  {
    hide LabelsMatch, Emit, Deposit;
    var rat := env.ops.encrypt(w.sessions[s.peer].rat.value);
    if rat.Some? {
      EmitLabels(w, s.peer, w.sessions[s.peer].peerPub, rat.value, Some(s));
    }
    DepositLabels(env.ops, w, s, route.relays);
    var (w1, done) := Serverless(env, reach, w, s, route);
    var rat1 := env.ops.encrypt(w1.sessions[s.peer].rat.value);
    if !done && rat1.Some? {
      EmitLabels(w1, s.peer, w1.sessions[s.peer].peerPub, rat1.value, Some(s));
    }
  }

  lemma NoSessionLabels(reach: Reach, w: Worker, s: PendingSend, order: seq<string>, now: nat)
    requires LabelsMatch(w) && !Live(w.sessions, s.peer)
    ensures LabelsMatch(NoSession(reach, w, s, order, now))
  {
    hide LabelsMatch, FirstLive;
    var w1 := Put(w, s.peer, Lookup(w.sessions, s.peer));
    PutLabels(w, s.peer, Lookup(w.sessions, s.peer));
    FetchLabels(w1, s.peer);
    var w' := NoSession(reach, w, s, order, now);
    if w'.journal == w1.journal {
      FrameLabels(w1, w');
    } else {
      FrameLabels(SendFetch(w1, s.peer), w');
    }
  }

  lemma {:induction false} SendPassLabels(
    env: Env, reach: Reach, w: Worker, items: seq<PendingSend>, routes: seq<Route>, order: seq<string>, now: nat)
    requires LabelsMatch(w) && |routes| == |items|
    ensures LabelsMatch(SendPass(env, reach, w, items, routes, order, now).worker)
    decreases |items|
  {
    hide LabelsMatch, NoSession, Rebind, SendOne;
    if items != [] {
      var s := Rebind(env.ops, w.sessions, order, items[0]);
      if !Live(w.sessions, s.peer) {
        NoSessionLabels(reach, w, s, order, now);
      } else {
        SendOneLabels(env, reach, w, s, routes[0]);
        var (w1, ok) := SendOne(env, reach, w, s, routes[0]);
        if ok {
          SendPassLabels(env, reach, w1, items[1..], routes[1..], order, now);
        }
      }
    }
  }

  lemma ChannelOneLabels(ops: Primitives, w: Worker, op: ChannelOp, kind: InviteKind)
    requires LabelsMatch(w)
    ensures LabelsMatch(ChannelOne(ops, w, op, kind).0)
  {
    hide LabelsMatch;
    var w' := ChannelOne(ops, w, op, kind).0;
    if op.peer.None? || kind != BySenderKey {
      FrameLabels(w, w');
    } else if !Live(w.sessions, op.peer.value) {
      var peer := op.peer.value;
      var w1 := Put(w, peer, Lookup(w.sessions, peer));
      PutLabels(w, peer, Lookup(w.sessions, peer));
      FetchLabels(w1, peer);
      FrameLabels(SendFetch(w1, peer), w');
    } else {
      var s := w.sessions[op.peer.value];
      var rat := ops.encrypt(s.rat.value);
      if rat.Some? {
        EmitLabels(w, op.peer.value, s.peerPub, rat.value, None);
      }
    }
  }

  lemma {:induction false} ChannelPassLabels(ops: Primitives, w: Worker, items: seq<ChannelOp>, kinds: seq<InviteKind>)
    requires LabelsMatch(w) && |kinds| == |items|
    ensures LabelsMatch(ChannelPass(ops, w, items, kinds).worker)
    decreases |items|
  {
    hide LabelsMatch, ChannelOne;
    if items != [] {
      ChannelOneLabels(ops, w, items[0], kinds[0]);
      var (w1, end) := ChannelOne(ops, w, items[0], kinds[0]);
      if end == AllSent {
        ChannelPassLabels(ops, w1, items[1..], kinds[1..]);
      }
    }
  }

  lemma BundleLabels(w: Worker, target: string, pub: Pub, hasPq: bool, keying: Keying)
    requires LabelsMatch(w)
    ensures LabelsMatch(BundleReply(w, target, pub, hasPq, keying)) <==>
            !(keying.None? && Live(w.sessions, target) && !Downgrade(w, pub, hasPq) && !HasLive(w.sessions, pub))
  {
    hide LabelsMatch, HasLive;
    if !Downgrade(w, pub, hasPq) {
      AdmitLabels(w, pub, hasPq);
      var w1, w' := Admitted(w, pub, hasPq), BundleReply(w, target, pub, hasPq, keying);
      if HasLive(w1.sessions, pub) {
        FrameLabels(w1, w');
      } else if keying.Some? {
        var (rat, ct) := keying.value;
        KeyLabels(w1, Session(pub, Some(rat), ct, false, false), Keyed(target, pub, true, hasPq, ct));
        FrameLabels(KeyAlice(w1, target, pub, hasPq, (rat, ct)), w');
      } else {
        ThrownLabels(w1, target, pub);
      }
    }
  }

  lemma KeyReplyLabels(w: Worker, reply: Reply)
    requires LabelsMatch(w)
    ensures LabelsMatch(KeyReply(w, reply)) <==> !Relabels(w, OnKeyReply(reply))
  {
    hide LabelsMatch, HasLive, BundleReply;
    if w.pendingFetch != [] {
      var target := w.pendingFetch[0];
      var w0 := w.(pendingFetch := w.pendingFetch[1..]);
      FrameLabels(w, w0);
      LogLabels(w0, Response(target));
      var w1 := Log(w0, Response(target));
      if target == "" {
      } else if reply.NotFound? {
        FrameLabels(w1, KeyReply(w, reply));
      } else {
        BundleLabels(w1, target, reply.pub, reply.hasPq, reply.keying);
      }
    }
  }

  lemma ThrownLabels(w: Worker, target: string, pub: Pub)
    requires LabelsMatch(w) && !HasLive(w.sessions, pub)
    ensures LabelsMatch(Put(w, target, Lookup(w.sessions, target).(peerPub := pub))) <==> !Live(w.sessions, target)
  {
    var s := Lookup(w.sessions, target).(peerPub := pub);
    if Live(w.sessions, target) {
      assert Labelled(w, target);
      assert w.sessions[target].peerPub != pub by {
        if w.sessions[target].peerPub == pub {
          assert LiveFor(w.sessions, target, pub);
        }
      }
      assert !Labelled(Put(w, target, s), target);
    } else {
      PutLabels(w, target, s);
    }
  }

  /**
   A live session stays labelled with the peer its ratchet was keyed for, except across exactly the
   steps `Relabels` describes.
   */
  lemma LabelsMatchIff(env: Env, w: Worker, e: Event)
    requires LabelsMatch(w) && Possible(w, e)
    ensures LabelsMatch(Step(env, w, e)) <==> !Relabels(w, e)
  {
    hide LabelsMatch, HasLive;
    match e
    case OnEnvelope(envelope, order, bob) => InboundLabels(env.ops, w, envelope, order, bob);
    case OnDrain(now, answers) =>
      FrameLabels(w, w.(parking := []));
      DrainLabels(env, w.(parking := []), w.parking, now, answers);
    case OnSendPass(reach, order, routes, now) =>
      FrameLabels(w, w.(queue := []));
      SendPassLabels(env, reach, w.(queue := []), w.queue, routes, order, now);
    case OnKeyReply(reply) => KeyReplyLabels(w, reply);
    case OnUsernameReply(pub, username, found) =>
      FetchLabels(w, username);
      FrameLabels(SendFetch(w, username), SendFetch(w, username).(meshBootstrap := w.meshBootstrap[username := pub]));
      FrameLabels(w, w.(meshDials := w.meshDials - {pub}));
    case OnMeshRequest(pub) =>
      FrameLabels(w, w.(meshDials := w.meshDials + {pub}));
      LogLabels(w.(meshDials := w.meshDials + {pub}), Query(pub));
    case OnEnqueue(send) => FrameLabels(w, Step(env, w, e));
    case OnChannelOp(op) => FrameLabels(w, Step(env, w, e));
    case OnChannelOps(kinds) =>
      FrameLabels(w, w.(channelOps := []));
      ChannelPassLabels(env.ops, w.(channelOps := []), w.channelOps, kinds);
    case OnMedia(pub, order) =>
      var hit := FirstLabelled(w.sessions, order, pub);
      if hit.Some? && w.sessions[hit.value].rat.Some? {
        var rat := env.ops.encrypt(w.sessions[hit.value].rat.value);
        if rat.Some? {
          EmitLabels(w, hit.value, pub, rat.value, None);
        }
      }
  }

  /** The labels do come apart: an invite is tried twice, the first reply keys its peer, the second throws. */
  lemma LabelsComeApart(env: Env, name: string, alice: Pub, carol: Pub) returns (ws: seq<Worker>, es: seq<Event>)
    requires name != "" && alice != carol
    ensures IsRun(env, ws, es)
    ensures var w := ws[|ws| - 1];
            Live(w.sessions, name) && w.sessions[name].peerPub == carol && KeyedFor(w.journal, name) == Some(alice)
  {
    hide KeyReply, KeyedFor, IsRun;
    var e2, e3 := OnKeyReply(Bundle(alice, true, Some(([], [0])))), OnKeyReply(Bundle(carol, true, None));
    ws, es := TwoTries(env, name);
    var w2 := ws[|es|];
    var w3 := KeyedOnce(w2, name, alice);
    var w4 := Relabelled(w3, name, alice, carol);
    assert Possible(w2, e2) && w3 == Step(env, w2, e2) && Possible(w3, e3) && w4 == Step(env, w3, e3);
    hide Step, Possible;
    ws, es := RunGrows(env, ws, es, e2);
    ws, es := RunGrows(env, ws, es, e3);
    assert ws[|ws| - 1] == w4;
  }

  /** Two passes over an invite to a peer without a session ask for its keys twice. */
  lemma TwoTries(env: Env, name: string) returns (ws: seq<Worker>, es: seq<Event>)
    ensures IsRun(env, ws, es) && |ws| == |es| + 1
    ensures var w := ws[|es|]; w.sessions == map[name := BLANK] && w.pendingFetch == [name, name]
  {
    hide IsRun;
    var op := ChannelOp(Some(name), []);
    ws, es := RunOfOne(env, OnChannelOp(op));
    var w0 := ws[|es|];
    AsksAgain(env, w0, op, name);
    ws, es := RunGrows(env, ws, es, OnChannelOps([BySenderKey]));
    var w1 := ws[|es|];
    AsksAgain(env, w1, op, name);
    ws, es := RunGrows(env, ws, es, OnChannelOps([BySenderKey]));
  }

  lemma AsksAgain(env: Env, w: Worker, op: ChannelOp, name: string)
    requires op.peer == Some(name) && w.channelOps == [op] && !Live(w.sessions, name)
    ensures var e := OnChannelOps([BySenderKey]);
            && Possible(w, e)
            && Step(env, w, e) == AskForInvite(w.(channelOps := []), op, name)
  {
  }

  lemma RunOfOne(env: Env, e: Event) returns (ws: seq<Worker>, es: seq<Event>)
    requires Possible(Start(env), e)
    ensures IsRun(env, ws, es) && |ws| == |es| + 1 && ws[|es|] == Step(env, Start(env), e)
  {
    hide Step;
    ws, es := [Start(env), Step(env, Start(env), e)], [e];
  }

  lemma RunGrows(env: Env, ws: seq<Worker>, es: seq<Event>, e: Event) returns (ws': seq<Worker>, es': seq<Event>)
    requires IsRun(env, ws, es) && |ws| == |es| + 1 && Possible(ws[|es|], e)
    ensures IsRun(env, ws', es') && |ws'| == |es'| + 1 && ws'[|es'|] == Step(env, ws[|es|], e)
  {
    hide Step;
    ws', es' := ws + [Step(env, ws[|es|], e)], es + [e];
  }

  lemma KeyedOnce(w: Worker, name: string, alice: Pub) returns (w': Worker)
    requires name != "" && w.sessions == map[name := BLANK] && w.pendingFetch == [name, name]
    ensures w' == KeyReply(w, Bundle(alice, true, Some(([], [0]))))
    ensures w'.sessions == map[name := Session(alice, Some([]), [0], false, false)]
    ensures w'.pendingFetch == [name] && KeyedFor(w'.journal, name) == Some(alice)
  {
    w' := KeyReply(w, Bundle(alice, true, Some(([], [0]))));
    assert !HasLive(w.sessions, alice);
    var k := Keyed(name, alice, true, true, [0]);
    assert w'.journal == w.journal + [Response(name)] + [Admit(alice, true)] + [k];
    KeyedForAppend(w.journal + [Response(name)] + [Admit(alice, true)], k, name);
  }

  lemma Relabelled(w: Worker, name: string, alice: Pub, carol: Pub) returns (w': Worker)
    requires w.sessions == map[name := Session(alice, Some([]), [0], false, false)] && alice != carol
    requires name != "" && w.pendingFetch == [name] && KeyedFor(w.journal, name) == Some(alice)
    ensures w' == KeyReply(w, Bundle(carol, true, None))
    ensures w'.sessions == map[name := Session(carol, Some([]), [0], false, false)]
    ensures KeyedFor(w'.journal, name) == Some(alice)
  {
    w' := KeyReply(w, Bundle(carol, true, None));
    assert !HasLive(w.sessions, carol);
    assert w'.journal == w.journal + [Response(name)] + [Admit(carol, true)];
    KeyedForAppend(w.journal + [Response(name)], Admit(carol, true), name);
    KeyedForAppend(w.journal, Response(name), name);
  }
}
