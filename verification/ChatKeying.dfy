/**
 How a session comes about when we key it: what a DHT answer or a key-fetch reply makes of the
 sessions, the pins and the queues, told from the answer alone.
 */
module ChatKeying {
  import opened Common
  import opened Sessions
  import opened ChatWorker
  import opened ChatAccounting
  import ChatSending

  // ----- One answer --------------------------------------------------------

  /** The peer is pinned as post-quantum capable and the answer has no such key any more. */
  predicate Stripped(w: Worker, pub: Pub, hasPq: bool) {
    pub in w.pins && !hasPq
  }

  /** A new session of `pub` under `name`, unacknowledged and unsealed, and no other change to the sessions. */
  ghost predicate KeyedAt(ss: SessionMap, ss': SessionMap, name: string, pub: Pub, keying: (Ratchet, Bytes)) {
    && name in ss' && ss' == ss[name := ss'[name]]
    && var s := ss'[name];
       && s.peerPub == pub && s.rat == Some(keying.0) && s.pqCt == keying.1
       && !s.pqAcked && !s.sealOutbound
  }

  /** What is known of the peer: it is pinned from now on if the answer shows a post-quantum key. */
  ghost predicate PinnedBy(w: Worker, w': Worker, pub: Pub, hasPq: bool) {
    forall p :: p in w'.pins <==> p in w.pins || (p == pub && hasPq)
  }

  /**
   A parked send stays parked exactly while nothing is found and less than two seconds have passed.
   A find keys a session of the peer under the send's name if and only if it is no downgrade, the
   peer has no live session yet and the key agreement succeeds.
   */
  lemma DrainItemIs(env: Env, w: Worker, p: Parked, now: nat, answer: DhtAnswer)
    ensures var w' := DrainItem(env, w, p, now, answer);
            var keyed := && answer.Found? && answer.keying.Some? && !Stripped(w, p.peerPub, answer.hasPq)
                         && !HasLive(w.sessions, p.peerPub);
            && (if answer.Missing? && Elapsed(now, p.parkedAt) < 2000
                then w'.parking == w.parking + [p] && w'.queue == w.queue
                else w'.parking == w.parking && w'.queue == [p.send] + w.queue)
            && (keyed ==> KeyedAt(w.sessions, w'.sessions, p.send.peer, p.peerPub, answer.keying.value))
            && (!keyed ==> w'.sessions == w.sessions)
            && PinnedBy(w, w', p.peerPub, answer.Found? && answer.hasPq)
            && w'.pendingFetch == w.pendingFetch && w'.channelOps == w.channelOps
            && w'.meshDials == w.meshDials && w'.meshBootstrap == w.meshBootstrap
  {
    hide HasLive;
  }

  /** Milliseconds between two readings of a 64-bit clock; when it was set back, the difference wraps around. */
  lemma ElapsedIs(now: nat, since: nat)
    requires now < 0x1_0000_0000_0000_0000 && since < 0x1_0000_0000_0000_0000
    ensures Elapsed(now, since) == if now >= since then now - since else 0x1_0000_0000_0000_0000 - (since - now)
  {
  }

  /**
   A bundle keys the name it was fetched for under exactly the same condition; when the key agreement
   throws, the name is left with the new label.
   */
  lemma BundleIs(w: Worker, target: string, pub: Pub, hasPq: bool, keying: Keying)
    ensures var w' := BundleReply(w, target, pub, hasPq, keying);
            var wanted := !Stripped(w, pub, hasPq) && !HasLive(w.sessions, pub);
            && (wanted && keying.Some? ==> KeyedAt(w.sessions, w'.sessions, target, pub, keying.value))
            && (wanted && keying.None? ==>
                  w'.sessions == w.sessions[target := Lookup(w.sessions, target).(peerPub := pub)])
            && (!wanted ==> w'.sessions == w.sessions)
            && PinnedBy(w, w', pub, hasPq)
            && w'.queue == w.queue && w'.parking == w.parking && w'.channelOps == w.channelOps
            && w'.pendingFetch == w.pendingFetch
            && (if Stripped(w, pub, hasPq) || (keying.None? && wanted)
                then w'.meshDials == w.meshDials && w'.meshBootstrap == w.meshBootstrap
                else DialSettled(w, w', target))
  {
    hide HasLive;
  }

  /** The fetch no longer belongs to a pending dial; if it did, the dial is not pending any more either. */
  ghost predicate DialSettled(w: Worker, w': Worker, target: string) {
    && (forall n :: n in w'.meshBootstrap <==> n in w.meshBootstrap && n != target)
    && (forall n | n in w'.meshBootstrap :: w'.meshBootstrap[n] == w.meshBootstrap[n])
    && (forall p ::
          p in w'.meshDials <==> p in w.meshDials && !(target in w.meshBootstrap && w.meshBootstrap[target] == p))
  }

  /**
   A dial asks for the peer's name exactly when there is neither a live session nor a question under
   way, and is pending from then on.
   */
  lemma DialAsksIff(w: Worker, pub: Pub)
    ensures var w' := MeshRequest(w, pub);
            && (w'.journal == w.journal + [Query(pub)] <==> !HasLive(w.sessions, pub) && pub !in w.meshDials)
            && (w'.journal == w.journal <==> HasLive(w.sessions, pub) || pub in w.meshDials)
            && (forall p ::
                  p in w'.meshDials <==> p in w.meshDials || (p == pub && !HasLive(w.sessions, pub)))
            && w' == w.(meshDials := w'.meshDials, journal := w'.journal)
  {
    hide HasLive;
    assert |w.journal + [Query(pub)]| == |w.journal| + 1;
  }

  /**
   The answer ends the dial when there is no name, and else asks for the keys of that name if the
   dial is still pending.
   */
  lemma UsernameReplyIs(w: Worker, pub: Pub, username: string, found: bool)
    ensures var w' := UsernameReply(w, pub, username, found);
            var named := found && username != "";
            && (forall p :: p in w'.meshDials <==> p in w.meshDials && (p != pub || named))
            && (if named && pub in w.meshDials
                then w'.pendingFetch == w.pendingFetch + [username] && w'.journal == w.journal + [Fetch(username)]
                     && username in w'.meshBootstrap && w'.meshBootstrap[username] == pub
                else w'.pendingFetch == w.pendingFetch && w'.journal == w.journal
                     && w'.meshBootstrap == w.meshBootstrap)
            && w'.sessions == w.sessions && w'.queue == w.queue && w'.pins == w.pins
  {
  }

  // ----- A name the server does not have -----------------------------------

  /** `r` is `q` with some elements left out. */
  ghost predicate Subsequence<T>(r: seq<T>, q: seq<T>) {
    if r == [] || q == [] then r == []
    else
      || (r[|r| - 1] == q[|q| - 1] && Subsequence(r[..|r| - 1], q[..|q| - 1]))
      || Subsequence(r, q[..|q| - 1])
  }

  lemma SubsequenceNext<T>(r: seq<T>, q: seq<T>, x: T)
    requires Subsequence(r, q)
    ensures Subsequence(r, q + [x]) && Subsequence(r + [x], q + [x])
  {
    assert (q + [x])[..|q|] == q && (r + [x])[..|r|] == r;
  }

  /** Exactly the sends for the peer go, and the others keep their order. */
  lemma WithoutIs(queue: seq<PendingSend>, peer: string)
    ensures Subsequence(Without(queue, peer), queue)
    ensures forall s :: multiset(Without(queue, peer))[s] == if s.peer == peer then 0 else multiset(queue)[s]
  {
    hide Without, Subsequence;
    WithoutOrder(queue, peer);
    forall s
      ensures multiset(Without(queue, peer))[s] == if s.peer == peer then 0 else multiset(queue)[s]
    {
      WithoutCounts(queue, peer, s);
    }
  }

  lemma {:induction false} WithoutCounts(queue: seq<PendingSend>, peer: string, s: PendingSend)
    ensures multiset(Without(queue, peer))[s] == if s.peer == peer then 0 else multiset(queue)[s]
  {
    if queue != [] {
      var n := |queue| - 1;
      WithoutCounts(queue[..n], peer, s);
      assert queue == queue[..n] + [queue[n]];
    }
  }

  lemma WithoutNext(queue: seq<PendingSend>, peer: string, x: PendingSend)
    ensures Without(queue + [x], peer) == Without(queue, peer)
            || Without(queue + [x], peer) == Without(queue, peer) + [x]
  {
    assert (queue + [x])[..|queue|] == queue;
  }

  lemma {:induction false} WithoutOrder(queue: seq<PendingSend>, peer: string)
    ensures Subsequence(Without(queue, peer), queue)
  {
    if queue != [] {
      hide Subsequence, Without;
      var n := |queue| - 1;
      WithoutOrder(queue[..n], peer);
      SubsequenceNext(Without(queue[..n], peer), queue[..n], queue[n]);
      WithoutNext(queue[..n], peer, queue[n]);
      assert queue == queue[..n] + [queue[n]];
    }
  }

  /** So do exactly the invites for the peer. */
  lemma WithoutInvitesIs(ops: seq<ChannelOp>, peer: string)
    ensures Subsequence(WithoutInvites(ops, peer), ops)
    ensures forall o :: multiset(WithoutInvites(ops, peer))[o] == if o.peer == Some(peer) then 0 else multiset(ops)[o]
  {
    hide WithoutInvites, Subsequence;
    WithoutInvitesOrder(ops, peer);
    forall o
      ensures multiset(WithoutInvites(ops, peer))[o] == if o.peer == Some(peer) then 0 else multiset(ops)[o]
    {
      WithoutInvitesCounts(ops, peer, o);
    }
  }

  lemma {:induction false} WithoutInvitesCounts(ops: seq<ChannelOp>, peer: string, o: ChannelOp)
    ensures multiset(WithoutInvites(ops, peer))[o] == if o.peer == Some(peer) then 0 else multiset(ops)[o]
  {
    if ops != [] {
      var n := |ops| - 1;
      WithoutInvitesCounts(ops[..n], peer, o);
      assert ops == ops[..n] + [ops[n]];
    }
  }

  lemma WithoutInvitesNext(ops: seq<ChannelOp>, peer: string, x: ChannelOp)
    ensures WithoutInvites(ops + [x], peer) == WithoutInvites(ops, peer)
            || WithoutInvites(ops + [x], peer) == WithoutInvites(ops, peer) + [x]
  {
    assert (ops + [x])[..|ops|] == ops;
  }

  lemma {:induction false} WithoutInvitesOrder(ops: seq<ChannelOp>, peer: string)
    ensures Subsequence(WithoutInvites(ops, peer), ops)
  {
    if ops != [] {
      hide Subsequence, WithoutInvites;
      var n := |ops| - 1;
      WithoutInvitesOrder(ops[..n], peer);
      SubsequenceNext(WithoutInvites(ops[..n], peer), ops[..n], ops[n]);
      WithoutInvitesNext(ops[..n], peer, ops[n]);
      assert ops == ops[..n] + [ops[n]];
    }
  }

  /**
   A reply that the name is unknown takes exactly the sends and invites for that name out of their
   queues, settles a dial that waited for it, and touches neither sessions nor pins nor the lot.
   */
  lemma NotFoundIs(w: Worker, target: string, rest: seq<string>)
    requires w.pendingFetch == [target] + rest && target != ""
    ensures var w' := KeyReply(w, NotFound);
            && w'.pendingFetch == rest
            && Subsequence(w'.queue, w.queue)
            && (forall s :: multiset(w'.queue)[s] == if s.peer == target then 0 else multiset(w.queue)[s])
            && Subsequence(w'.channelOps, w.channelOps)
            && (forall o ::
                  multiset(w'.channelOps)[o] == if o.peer == Some(target) then 0 else multiset(w.channelOps)[o])
            && w'.sessions == w.sessions && w'.pins == w.pins && w'.parking == w.parking
            && DialSettled(w, w', target)
  {
    hide Subsequence, Without, WithoutInvites;
    WithoutIs(w.queue, target);
    WithoutInvitesIs(w.channelOps, target);
    assert w.pendingFetch[0] == target && w.pendingFetch[1..] == rest;
  }

  /** A reply with a bundle does to the name at the head of the FIFO what `BundleIs` says. */
  lemma BundleIsForTheHead(w: Worker, target: string, rest: seq<string>, pub: Pub, hasPq: bool, keying: Keying)
    requires w.pendingFetch == [target] + rest && target != ""
    ensures var w' := KeyReply(w, Bundle(pub, hasPq, keying));
            var wanted := !Stripped(w, pub, hasPq) && !HasLive(w.sessions, pub);
            && w'.pendingFetch == rest
            && (wanted && keying.Some? ==> KeyedAt(w.sessions, w'.sessions, target, pub, keying.value))
            && (!wanted ==> w'.sessions == w.sessions)
            && PinnedBy(w, w', pub, hasPq)
            && w'.queue == w.queue && w'.parking == w.parking && w'.channelOps == w.channelOps
            && (Stripped(w, pub, hasPq) ==> w'.meshDials == w.meshDials && w'.meshBootstrap == w.meshBootstrap)
            && (!Stripped(w, pub, hasPq) && (keying.Some? || !wanted) ==> DialSettled(w, w', target))
  {
    hide HasLive, BundleReply;
    assert w.pendingFetch[0] == target && w.pendingFetch[1..] == rest;
    BundleIs(Log(w.(pendingFetch := rest), Response(target)), target, pub, hasPq, keying);
  }

  /** A reply nobody asked for does nothing, and one for the empty name only leaves the FIFO. */
  lemma ReplyIgnored(w: Worker, reply: Reply)
    requires w.pendingFetch == [] || w.pendingFetch[0] == ""
    ensures var w' := KeyReply(w, reply);
            w' == if w.pendingFetch == [] then w
                  else w.(pendingFetch := w.pendingFetch[1..], journal := w.journal + [Response("")])
  {
  }

  // ----- The whole lot -----------------------------------------------------

  /** Finds for other peers and names leave this peer and this name alone. */
  lemma {:induction false} DrainOthers(
    env: Env, w: Worker, items: seq<Parked>, now: nat, answers: seq<DhtAnswer>, pub: Pub, name: string)
    requires |answers| == |items| && forall p | p in items :: p.peerPub != pub && p.send.peer != name
    ensures var w' := Drain(env, w, items, now, answers);
            && (!HasLive(w.sessions, pub) ==> !HasLive(w'.sessions, pub))
            && Lookup(w'.sessions, name) == Lookup(w.sessions, name)
            && (pub in w'.pins <==> pub in w.pins)
  {
    if items != [] {
      var n := |items| - 1;
      DrainOthers(env, w, items[..n], now, answers[..n], pub, name);
      OtherItem(env, Drain(env, w, items[..n], now, answers[..n]), items[n], now, answers[n], pub, name);
    }
  }

  lemma OtherItem(env: Env, w: Worker, p: Parked, now: nat, answer: DhtAnswer, pub: Pub, name: string)
    requires p.peerPub != pub && p.send.peer != name
    ensures var w' := DrainItem(env, w, p, now, answer);
            && (!HasLive(w.sessions, pub) ==> !HasLive(w'.sessions, pub))
            && Lookup(w'.sessions, name) == Lookup(w.sessions, name)
            && (pub in w'.pins <==> pub in w.pins)
  {
    var w' := DrainItem(env, w, p, now, answer);
    DrainItemIs(env, w, p, now, answer);
    hide DrainItem;
    if !HasLive(w.sessions, pub) {
      forall n
        ensures !LiveFor(w'.sessions, n, pub)
      {
        assert !LiveFor(w.sessions, n, pub);
      }
    }
  }

  /**
   A find for a parked send keys a session that the whole drain leaves in place, if the peer is not
   pinned or shows a post-quantum key, has no live session, and no other parked send shares its name
   or peer.
   */
  lemma {:induction false} DrainKeys(
    env: Env, w: Worker, items: seq<Parked>, now: nat, answers: seq<DhtAnswer>, i: nat)
    requires |answers| == |items| && i < |items| && answers[i].Found? && answers[i].keying.Some?
    requires !Stripped(w, items[i].peerPub, answers[i].hasPq) && !HasLive(w.sessions, items[i].peerPub)
    requires forall j | 0 <= j < |items| && j != i ::
               items[j].peerPub != items[i].peerPub && items[j].send.peer != items[i].send.peer
    ensures var s := Lookup(Drain(env, w, items, now, answers).sessions, items[i].send.peer);
            && s.peerPub == items[i].peerPub && s.rat == Some(answers[i].keying.value.0)
            && s.pqCt == answers[i].keying.value.1 && !s.pqAcked && !s.sealOutbound
  {
    var n := |items| - 1;
    var v := Drain(env, w, items[..n], now, answers[..n]);
    if i == n {
      DrainOthers(env, w, items[..n], now, answers[..n], items[n].peerPub, items[n].send.peer);
      DrainItemIs(env, v, items[n], now, answers[n]);
    } else {
      DrainKeys(env, w, items[..n], now, answers[..n], i);
      OtherItem(env, v, items[n], now, answers[n], items[i].peerPub, items[i].send.peer);
    }
  }

  // ----- Pins over runs ----------------------------------------------------

  /** The event shows us a post-quantum key of the peer: an answered fetch, or a find for a parked send. */
  ghost predicate Advertised(w: Worker, e: Event, pub: Pub) {
    || (e.OnKeyReply? && e.reply.Bundle? && e.reply.pub == pub && e.reply.hasPq
        && w.pendingFetch != [] && w.pendingFetch[0] != "")
    || (e.OnDrain? && FoundWithKey(w.parking, e.answers, pub))
  }

  ghost predicate FoundWithKey(items: seq<Parked>, answers: seq<DhtAnswer>, pub: Pub) {
    exists k: nat ::
      k < |items| && k < |answers| && items[k].peerPub == pub && answers[k].Found? && answers[k].hasPq
  }

  lemma {:induction false} DrainPins(
    env: Env, w: Worker, items: seq<Parked>, now: nat, answers: seq<DhtAnswer>, pub: Pub)
    requires |answers| == |items|
    ensures pub in Drain(env, w, items, now, answers).pins <==> pub in w.pins || FoundWithKey(items, answers, pub)
  {
    if items != [] {
      var n := |items| - 1;
      DrainPins(env, w, items[..n], now, answers[..n], pub);
      var v := Drain(env, w, items[..n], now, answers[..n]);
      DrainItemIs(env, v, items[n], now, answers[n]);
      hide DrainItem;
      if FoundWithKey(items[..n], answers[..n], pub) {
        var k: nat :| k < n && items[..n][k].peerPub == pub && answers[..n][k].Found? && answers[..n][k].hasPq;
        assert items[k].peerPub == pub && answers[k].Found? && answers[k].hasPq;
      }
      if FoundWithKey(items, answers, pub) {
        var k: nat :| k < |items| && items[k].peerPub == pub && answers[k].Found? && answers[k].hasPq;
        assert k < n ==> items[..n][k].peerPub == pub && answers[..n][k].Found? && answers[..n][k].hasPq;
      }
    }
  }

  /** A step pins exactly the peers it is shown a post-quantum key of. */
  lemma StepPins(env: Env, w: Worker, e: Event, pub: Pub)
    requires Possible(w, e)
    ensures pub in Step(env, w, e).pins <==> pub in w.pins || Advertised(w, e, pub)
  {
    hide Drain, SendPass, ChannelPass, KeyReply, HasLive, FoundWithKey, ChatSending.Follows, ChatSending.SentFrom;
    match e
    case OnDrain(now, answers) => DrainPins(env, w.(parking := []), w.parking, now, answers, pub);
    case OnSendPass(reach, order, routes, now) =>
      ChatSending.SendPassSent(env, reach, w.(queue := []), w.queue, routes, order, now);
    case OnChannelOps(kinds) => ChatSending.ChannelPassSent(env.ops, w.(channelOps := []), w.channelOps, kinds);
    case OnMedia(p, order) => ChatSending.MediaSent(env.ops, w, p, order);
    case OnKeyReply(reply) => ReplyPins(w, reply, pub);
    case _ =>
  }

  lemma ReplyPins(w: Worker, reply: Reply, pub: Pub)
    ensures pub in KeyReply(w, reply).pins <==> pub in w.pins || Advertised(w, OnKeyReply(reply), pub)
  {
    hide HasLive;
    if w.pendingFetch != [] && w.pendingFetch[0] != "" && reply.Bundle? {
      assert w.pendingFetch == [w.pendingFetch[0]] + w.pendingFetch[1..];
      BundleIsForTheHead(w, w.pendingFetch[0], w.pendingFetch[1..], reply.pub, reply.hasPq, reply.keying);
    }
  }

  /** In every run the pinned peers are those of earlier sessions and those that showed a post-quantum key since. */
  lemma {:induction false} PinsAre(env: Env, ws: seq<Worker>, es: seq<Event>, i: nat, pub: Pub)
    requires IsRun(env, ws, es) && i < |ws|
    ensures pub in ws[i].pins <==> pub in env.stored || exists x: nat :: x < i && Advertised(ws[x], es[x], pub)
  {
    if i > 0 {
      PinsAre(env, ws, es, i - 1, pub);
      StepPins(env, ws[i - 1], es[i - 1], pub);
      hide Step, Advertised;
    }
  }

  /** Once it has shown one, a bundle of the peer without one changes no session, in any run. */
  lemma StrippedBundleIsRefused(
    env: Env, ws: seq<Worker>, es: seq<Event>, i: nat, pub: Pub, keying: Keying)
    requires IsRun(env, ws, es) && i < |es| && es[i] == OnKeyReply(Bundle(pub, false, keying))
    requires pub in env.stored || exists x: nat :: x < i && Advertised(ws[x], es[x], pub)
    ensures ws[i + 1].sessions == ws[i].sessions && ws[i + 1].pins == ws[i].pins
  {
    PinsAre(env, ws, es, i, pub);
    assert ws[i + 1] == Step(env, ws[i], es[i]);
  }

  // ----- Runs --------------------------------------------------------------

  /**
   First contact without the server: the send is parked, the peer's prekeys are found, and the next
   pass sends it to that peer with the KEM ciphertext and the sender named.
   */
  lemma FirstContactRun(
    env: Env, reach: Reach, reach': Reach, send: PendingSend, pub: Pub, hasPq: bool, keying: (Ratchet, Bytes))
    returns (ws: seq<Worker>, es: seq<Event>)
    requires reach.overlay && reach.resolve(send.peer) == Some(pub)
    requires env.ops.encrypt(keying.0).Some? && Honest(hasPq, Some(keying)) && (pub in env.stored ==> hasPq)
    ensures IsRun(env, ws, es) && |es| == 4
    ensures es[2] == OnDrain(0, [Found(hasPq, Some(keying))])
    ensures var w := ws[4];
            && w.queue == [] && w.parking == [] && w.pendingFetch == []
            && w.journal != [] && w.journal[|w.journal| - 1] == Wire(send.peer, pub, false, keying.1, Some(send))
            && LiveFor(w.sessions, send.peer, pub) && w.sessions[send.peer].rat == env.ops.encrypt(keying.0)
  {
    hide Step, Possible;
    var route := Route(true, []);
    var w0, w1, w2 := ParksFirst(env, reach, send, pub, route);
    var answers := [Found(hasPq, Some(keying))];
    var w3 := Finds(env, w2, send, pub, hasPq, keying);
    var w4 := SendsAlone(env, reach', w3, send, pub, keying.0, keying.1, route);
    es := [OnEnqueue(send), OnSendPass(reach, [], [route], 0), OnDrain(0, answers),
      OnSendPass(reach', [send.peer], [route], 0)];
    ws := [w0, w1, w2, w3, w4];
  }

  /** A pass over one send with a new session. */
  lemma SendsAlone(
    env: Env, reach: Reach, w: Worker, send: PendingSend, pub: Pub, rat: Ratchet, ct: Bytes, route: Route)
    returns (w': Worker)
    requires w.sessions == map[send.peer := Session(pub, Some(rat), ct, false, false)] && w.queue == [send]
    requires env.ops.encrypt(rat).Some? && route.direct
    ensures var e := OnSendPass(reach, [send.peer], [route], 0); Possible(w, e) && w' == Step(env, w, e)
    ensures w' == w.(queue := [],
              sessions := map[send.peer := Session(pub, env.ops.encrypt(rat), ct, false, false)],
              journal := w.journal + [Wire(send.peer, pub, false, ct, Some(send))])
  {
    var v := w.(queue := []);
    w' := Step(env, w, OnSendPass(reach, [send.peer], [route], 0));
    assert Rebind(env.ops, v.sessions, [send.peer], send) == send;
    var (v1, ok) := SendOne(env, reach, v, send, route);
    assert ok && v1 == Emit(v, send.peer, pub, env.ops.encrypt(rat).value, Some(send));
    PassOfOne(env, reach, v, send, route, [send.peer], 0);
  }

  lemma PassOfOne(
    env: Env, reach: Reach, w: Worker, send: PendingSend, route: Route, order: seq<string>, now: nat)
    requires Rebind(env.ops, w.sessions, order, send) == send && Live(w.sessions, send.peer)
    requires SendOne(env, reach, w, send, route).1
    ensures SendPass(env, reach, w, [send], [route], order, now).worker == SendOne(env, reach, w, send, route).0
  {
    hide Rebind, SendOne;
    var w1 := SendOne(env, reach, w, send, route).0;
    assert [send][1..] == [] && [route][1..] == [];
    assert SendPass(env, reach, w1, [], [], order, now) == Pass(w1, 0, AllSent);
  }

  lemma ParksFirst(
    env: Env, reach: Reach, send: PendingSend, pub: Pub, route: Route) returns (w0: Worker, w1: Worker, w2: Worker)
    requires reach.overlay && reach.resolve(send.peer) == Some(pub)
    ensures w0 == Start(env) && Possible(w0, OnEnqueue(send)) && w1 == Step(env, w0, OnEnqueue(send))
    ensures Possible(w1, OnSendPass(reach, [], [route], 0)) && w2 == Step(env, w1, OnSendPass(reach, [], [route], 0))
    ensures w2 == Start(env).(sessions := map[send.peer := BLANK], parking := [Parked(send, pub, 0)])
  {
    w0 := Start(env);
    w1 := Step(env, w0, OnEnqueue(send));
    assert w1.queue == [send];
    var w := w1.(queue := []);
    assert Rebind(env.ops, w.sessions, [], send) == send;
    w2 := NoSession(reach, w, send, [], 0);
  }

  lemma Finds(
    env: Env, w: Worker, send: PendingSend, pub: Pub, hasPq: bool, keying: (Ratchet, Bytes)) returns (w': Worker)
    requires w == Start(env).(sessions := map[send.peer := BLANK], parking := [Parked(send, pub, 0)])
    requires Honest(hasPq, Some(keying)) && (pub in env.stored ==> hasPq)
    ensures var e := OnDrain(0, [Found(hasPq, Some(keying))]); Possible(w, e) && w' == Step(env, w, e)
    ensures w'.sessions == map[send.peer := Session(pub, Some(keying.0), keying.1, false, false)]
    ensures w'.queue == [send] && w'.parking == [] && w'.pendingFetch == []
  {
    var answers, p := [Found(hasPq, Some(keying))], Parked(send, pub, 0);
    w' := Step(env, w, OnDrain(0, answers));
    var v := w.(parking := []);
    assert [p][..0] == [] && answers[..0] == [];
    assert w' == DrainItem(env, Drain(env, v, [], 0, []), p, 0, answers[0]);
    assert !HasLive(v.sessions, pub);
    DrainItemIs(env, v, p, 0, answers[0]);
  }

  /**
   A dial to a peer without a session: its name is asked for, then its keys, and the bundle leaves a
   live session and nothing pending.
   */
  lemma DialRun(env: Env, pub: Pub, name: string, hasPq: bool, keying: (Ratchet, Bytes))
    returns (ws: seq<Worker>, es: seq<Event>)
    requires name != "" && Honest(hasPq, Some(keying)) && (pub in env.stored ==> hasPq)
    ensures IsRun(env, ws, es) && |es| == 3
    ensures es == [OnMeshRequest(pub), OnUsernameReply(pub, name, true), OnKeyReply(Bundle(pub, hasPq, Some(keying)))]
    ensures Query(pub) in ws[1].journal && ws[2].pendingFetch == [name]
    ensures var w := ws[3];
            && LiveFor(w.sessions, name, pub) && w.sessions[name].rat == Some(keying.0)
            && w.pendingFetch == [] && w.meshDials == {} && w.meshBootstrap == map[]
  {
    var w0, w1, w2 := AsksForDial(env, pub, name);
    var e2 := OnKeyReply(Bundle(pub, hasPq, Some(keying)));
    assert w2.pendingFetch == [name] + [];
    BundleIsForTheHead(w2, name, [], pub, hasPq, Some(keying));
    es := [OnMeshRequest(pub), OnUsernameReply(pub, name, true), e2];
    ws := [w0, w1, w2, KeyReply(w2, e2.reply)];
    assert ws[3].meshDials == {} && ws[3].meshBootstrap == map[];
  }

  lemma AsksForDial(env: Env, pub: Pub, name: string) returns (w0: Worker, w1: Worker, w2: Worker)
    requires name != ""
    ensures w0 == Start(env) && w1 == Step(env, w0, OnMeshRequest(pub))
    ensures w2 == Step(env, w1, OnUsernameReply(pub, name, true)) && Query(pub) in w1.journal
    ensures w2.sessions == map[] && w2.pendingFetch == [name] && w2.meshDials == {pub}
    ensures w2.meshBootstrap == map[name := pub] && w2.pins == env.stored
  {
    w0 := Start(env);
    assert !HasLive(w0.sessions, pub);
    w1 := Step(env, w0, OnMeshRequest(pub));
    assert w1.journal == [Query(pub)] && w1.journal[0] == Query(pub);
    w2 := Step(env, w1, OnUsernameReply(pub, name, true));
  }

  /**
   A bundle that is refused as a downgrade leaves the dial pending, so the next request for the peer
   does nothing.
   */
  lemma RefusedDialSticks(env: Env, pub: Pub, name: string) returns (ws: seq<Worker>, es: seq<Event>)
    requires name != "" && pub in env.stored
    ensures IsRun(env, ws, es) && |es| == 4 && es[3] == OnMeshRequest(pub)
    ensures ws[4] == ws[3] && pub in ws[4].meshDials && !HasLive(ws[4].sessions, pub) && ws[4].pendingFetch == []
  {
    var w0, w1, w2 := AsksForDial(env, pub, name);
    var e2 := OnKeyReply(Bundle(pub, false, None));
    assert w2.pendingFetch == [name] + [];
    BundleIsForTheHead(w2, name, [], pub, false, None);
    var w3 := KeyReply(w2, e2.reply);
    es := [OnMeshRequest(pub), OnUsernameReply(pub, name, true), e2, OnMeshRequest(pub)];
    ws := [w0, w1, w2, w3, MeshRequest(w3, pub)];
  }
}
