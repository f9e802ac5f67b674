/**
 The worker object itself: the maps, deques and sets it changes in place, and the loops its
 handlers run. Every method is tied to the step of the state machine it implements.
 */
module ChatClient {
  import opened Common
  import opened Sessions
  import opened ChatWorker
  import ChatInvariants

  class Client {
    const env: Env
    var sessions: SessionMap
    var queue: seq<PendingSend>
    var channelOps: seq<ChannelOp>
    var parking: seq<Parked>
    var pendingFetch: seq<string>
    var meshDials: set<Pub>
    var meshBootstrap: map<string, Pub>
    var pins: set<Pub>
    ghost var journal: Journal

    ghost function View(): Worker
      reads this
    {
      Worker(sessions, queue, channelOps, parking, pendingFetch, meshDials, meshBootstrap, pins, journal)
    }

    constructor (env: Env)
      ensures this.env == env && View() == Start(env)
    {
      this.env := env;
      sessions, queue, channelOps, parking := map[], [], [], [];
      pendingFetch, meshDials, meshBootstrap, pins := [], {}, map[], env.stored;
      journal := [];
    }

    // ----- Lookups ---------------------------------------------------------

    method FindLive(pub: Pub, order: seq<string>) returns (r: Option<string>)
      ensures r == FirstLive(sessions, order, pub)
    {
      var i := 0;
      while i < |order|
        invariant 0 <= i <= |order|
        invariant FirstLive(sessions, order, pub) == FirstLive(sessions, order[i..], pub)
      {
        assert order[i..][1..] == order[i + 1..];
        if LiveFor(sessions, order[i], pub) { return Some(order[i]); }
        i := i + 1;
      }
      return None;
    }

    method HasSession(pub: Pub) returns (found: bool)
      ensures found == HasLive(sessions, pub)
    {
      var names := sessions.Keys;
      while names != {}
        invariant names <= sessions.Keys
        invariant forall name | name in sessions && name !in names :: !LiveFor(sessions, name, pub)
      {
        var name :| name in names;
        if LiveFor(sessions, name, pub) { return true; }
        names := names - {name};
      }
      return false;
    }

    // ----- Inbound envelopes -----------------------------------------------

    /** Offer a sealed envelope to the sessions of one pass, in order, until one accepts it. */
    method ScanPass(e: Envelope, order: seq<string>, matching: bool) returns (hit: Option<string>)
      requires forall name | name in order :: name in sessions
      modifies this`sessions
      ensures (sessions, hit) == Scan(env.ops, old(sessions), order, e, matching)
    {
      var i := 0;
      while i < |order|
        invariant 0 <= i <= |order|
        invariant forall name | name in order :: name in sessions
        invariant Scan(env.ops, old(sessions), order, e, matching) == Scan(env.ops, sessions, order[i..], e, matching)
      {
        var name := order[i];
        assert order[i..][0] == name && order[i..][1..] == order[i + 1..];
        var s := sessions[name];
        ghost var before := sessions;
        i := i + 1;
        if s.rat.Some? && env.ops.headerMatches(s.rat.value, e.ciphertext) == matching {
          var opening := env.ops.tryDecrypt(s.rat.value, e.ciphertext, e.aad);
          if opening.Some? {
            sessions := sessions[name := s.(rat := Some(opening.value.0))];
            if env.ops.sealedBy(opening.value.1, s.peerPub, e.id, e.timestamp) {
              sessions := sessions[name := sessions[name].(sealOutbound := true)];
              assert sessions == before[name := Tried(env.ops, s, e)];
              return Some(name);
            }
          }
          assert sessions == before[name := Tried(env.ops, s, e)];
        }
      }
      return None;
    }

    method Acknowledge(name: string)
      requires name in sessions
      modifies this`sessions, this`journal
      ensures View() == AckSession(old(View()), name)
    {
      var s := sessions[name];
      if !s.pqAcked { s := s.(pqAcked := true, pqCt := []); }
      sessions := sessions[name := s.(sealOutbound := true)];
      journal := journal + [Ack(name)];
    }

    /** Check the associated data, decrypt unless that was done, and latch the flags. */
    method DecryptUnder(e: Envelope, name: string, consumed: bool)
      requires Live(sessions, name)
      modifies this`sessions, this`journal
      ensures View() == Decrypted(env.ops, old(View()), e, name, consumed)
    {
      hide AadFor, AckSession;
      if e.aad != [] && e.aad != AadFor(e.id, e.timestamp) { return; }
      if !consumed {
        var s := sessions[name];
        var (rat, plaintext) := env.ops.decrypt(s.rat.value, e.ciphertext, e.aad);
        sessions := sessions[name := s.(rat := Some(rat))];
        if plaintext.None? { return; }
      }
      Acknowledge(name);
    }

    /** An envelope whose sender is known, by its header or by the sealed search. */
    method Receive(e: Envelope, sender: Pub, consumed: bool, order: seq<string>, bob: BobKeying)
      modifies this`sessions, this`journal
      ensures View() == Deliver(env.ops, old(View()), e, sender, consumed, order, bob)
    {
      hide FirstLive, PeerTag, Decrypted;
      var found := FindLive(sender, order);
      var name := if found.Some? then found.value else PeerTag(sender);
      ghost var before := sessions;
      if name !in sessions { sessions := sessions[name := BLANK]; }
      assert sessions == before[name := Lookup(before, name)];
      if sessions[name].rat.None? {
        if !bob.Ready? { return; }
        sessions := sessions[name := sessions[name].(rat := Some(bob.ratchet), peerPub := sender)];
        assert sessions == before[name := Lookup(before, name).(rat := Some(bob.ratchet), peerPub := sender)];
        journal := journal + [Keyed(name, sender, false, e.pqCt != [], [])];
      }
      DecryptUnder(e, name, consumed);
    }

    method DispatchEnvelope(e: Envelope, order: seq<string>, bob: BobKeying)
      requires Enumerates(order, sessions)
      modifies this`sessions, this`journal
      ensures View() == Inbound(env.ops, old(View()), e, order, bob)
    {
      hide Deliver, Scan;
      if e.senderPubkey == [] {
        if e.recipient != ToUser { return; }
        var hit := ScanPass(e, order, true);
        if hit.None? {
          hit := ScanPass(e, order, false);
        }
        if hit.None? { return; }
        journal := journal + [SealProof(hit.value)];
        Receive(e, sessions[hit.value].peerPub, true, order, bob);
      } else if |e.senderPubkey| == 32 && e.recipient != ToChannel {
        Receive(e, e.senderPubkey, false, order, bob);
      }
    }

    // ----- First-contact parking -------------------------------------------

    /** The sticky pin: refuse a peer that stopped advertising its post-quantum key, else remember what it has. */
    method AdmitPq(pub: Pub, hasPq: bool) returns (ok: bool)
      modifies this`pins, this`journal
      ensures ok == !Downgrade(old(View()), pub, hasPq)
      ensures View() == if ok then Admitted(old(View()), pub, hasPq) else old(View())
    {
      if pub in pins && !hasPq { return false; }
      if hasPq { pins := pins + {pub}; }
      journal := journal + [Admit(pub, hasPq)];
      return true;
    }

    /** A peer without a live session gets one, and stays the only one to have it. */
    method KeyAsAlice(name: string, pub: Pub, hasPq: bool, keying: (Ratchet, Bytes))
      modifies this`sessions, this`journal
      ensures View() == KeyAlice(old(View()), name, pub, hasPq, keying)
      ensures old(OneLivePerPeer(sessions) && !HasLive(sessions, pub)) ==>
                OneLivePerPeer(sessions) && LiveFor(sessions, name, pub)
    {
      if OneLivePerPeer(sessions) && !HasLive(sessions, pub) {
        ChatInvariants.PlaceKeepsOneLive(sessions, name, Session(pub, Some(keying.0), keying.1, false, false));
      }
      sessions := sessions[name := Session(pub, Some(keying.0), keying.1, false, false)];
      journal := journal + [Keyed(name, pub, true, hasPq, keying.1)];
    }

    method DrainOne(p: Parked, now: nat, answer: DhtAnswer)
      modifies this`sessions, this`queue, this`parking, this`pins, this`journal
      ensures View() == DrainItem(env, old(View()), p, now, answer)
    {
      hide HasLive;
      if answer.Missing? {
        if Elapsed(now, p.parkedAt) < PARK_TIMEOUT_MS {
          parking := parking + [p];
        } else {
          queue := [p.send] + queue;
        }
        return;
      }
      var ok := AdmitPq(p.peerPub, answer.hasPq);
      if ok {
        var have := HasSession(p.peerPub);
        if !have && answer.keying.Some? {
          KeyAsAlice(p.send.peer, p.peerPub, answer.hasPq, answer.keying.value);
        }
      }
      queue := [p.send] + queue;
    }

    /** Every parked send is looked at once; the ones still waiting stay, the others go to the front of the queue. */
    method DrainParking(now: nat, answers: seq<DhtAnswer>)
      requires |answers| == |parking|
      modifies this`sessions, this`queue, this`parking, this`pins, this`journal
      ensures View() == Drain(env, old(View()).(parking := []), old(parking), now, answers)
    {
      hide DrainItem;
      var items := parking;
      parking := [];
      ghost var w0 := View();
      var i := 0;
      while i < |items|
        invariant 0 <= i <= |items|
        invariant View() == Drain(env, w0, items[..i], now, answers[..i])
      {
        DrainOne(items[i], now, answers[i]);
        i := i + 1;
        assert items[..i][..i - 1] == items[..i - 1] && answers[..i][..i - 1] == answers[..i - 1];
      }
      assert items[..i] == items && answers[..i] == answers;
    }

    // ----- The send pass ---------------------------------------------------

    method RequestKeys(username: string)
      modifies this`pendingFetch, this`journal
      ensures View() == SendFetch(old(View()), username)
    {
      pendingFetch := pendingFetch + [username];
      journal := journal + [Fetch(username)];
    }

    /** Encrypt under a session and put the envelope on the wire; false when the ratchet throws. */
    method SendUnder(name: string, to: Pub, send: Option<PendingSend>) returns (ok: bool)
      requires Live(sessions, name)
      modifies this`sessions, this`journal
      ensures var rat := env.ops.encrypt(old(sessions)[name].rat.value);
              && ok == rat.Some?
              && View() == if ok then Emit(old(View()), name, to, rat.value, send) else old(View())
    {
      var s := sessions[name];
      var rat := env.ops.encrypt(s.rat.value);
      if rat.None? { return false; }
      sessions := sessions[name := s.(rat := rat)];
      journal := journal + [Wire(name, to, s.sealOutbound, s.pqCt, send)];
      return true;
    }

    method ByFingerprint(order: seq<string>, fp: string) returns (r: Option<string>)
      ensures r == FirstByFingerprint(env.ops, sessions, order, fp)
    {
      var i := 0;
      while i < |order|
        invariant 0 <= i <= |order|
        invariant FirstByFingerprint(env.ops, sessions, order, fp)
                  == FirstByFingerprint(env.ops, sessions, order[i..], fp)
      {
        assert order[i..][1..] == order[i + 1..];
        if Live(sessions, order[i]) && env.ops.fingerprint(sessions[order[i]].peerPub) == fp { return Some(order[i]); }
        i := i + 1;
      }
      return None;
    }

    /** A send whose peer has no session: rebound, parked or waiting for keys. */
    method Defer(reach: Reach, s: PendingSend, order: seq<string>, now: nat)
      modifies this`sessions, this`queue, this`parking, this`pendingFetch, this`journal
      ensures View() == NoSession(reach, old(View()), s, order, now)
    {
      hide FirstLive;
      var pub := reach.resolve(s.peer);
      var live: Option<string> := None;
      if pub.Some? { live := FindLive(pub.value, order); }
      if s.peer !in sessions {
        sessions := sessions[s.peer := BLANK];
      } else {
        assert sessions[s.peer := sessions[s.peer]] == sessions;
      }
      if live.Some? {
        queue := [s.(peer := live.value)] + queue;
      } else if pub.Some? && reach.overlay {
        parking := parking + [Parked(s, pub.value, now)];
      } else {
        RequestKeys(s.peer);
        queue := [s] + queue;
      }
    }

    /** Try the relays in turn until one takes the deposit; every try is a new envelope. */
    method DepositWithRelay(s: PendingSend, relays: seq<bool>) returns (done: bool)
      requires Live(sessions, s.peer)
      modifies this`sessions, this`journal
      ensures (View(), done) == Deposit(env.ops, old(View()), s, relays)
    {
      var i := 0;
      while i < |relays|
        invariant 0 <= i <= |relays| && Live(sessions, s.peer)
        invariant Deposit(env.ops, old(View()), s, relays) == Deposit(env.ops, View(), s, relays[i..])
        invariant View() == old(View()).(sessions := sessions, journal := journal)
      {
        assert relays[i..][0] == relays[i] && relays[i..][1..] == relays[i + 1..];
        var built := SendUnder(s.peer, sessions[s.peer].peerPub, if relays[i] then Some(s) else None);
        if built && relays[i] { return true; }
        i := i + 1;
      }
      return false;
    }

    /** Around the server if the overlay knows a way, else through it; false when the ratchet throws. */
    method SendAlong(reach: Reach, s: PendingSend, route: Route) returns (ok: bool)
      requires Live(sessions, s.peer)
      modifies this`sessions, this`journal
      ensures (View(), ok) == SendOne(env, reach, old(View()), s, route)
    {
      hide Deposit, Emit;
      if reach.overlay {
        if route.direct {
          ok := SendUnder(s.peer, sessions[s.peer].peerPub, Some(s));
          if ok { return; }
        }
        ok := DepositWithRelay(s, route.relays);
        if ok { return; }
      }
      ok := SendUnder(s.peer, sessions[s.peer].peerPub, Some(s));
    }

    /** Swap the queue out and send from its front until a send has no session or a ratchet throws. */
    method DrainSends(reach: Reach, order: seq<string>, routes: seq<Route>, now: nat)
      returns (sent: nat, end: PassEnd)
      requires |routes| == |queue|
      modifies this`sessions, this`queue, this`parking, this`pendingFetch, this`journal
      ensures Pass(View(), sent, end) == SendPass(env, reach, old(View()).(queue := []), old(queue), routes, order, now)
    {
      hide Rebind, NoSession, SendOne;
      var items := queue;
      queue := [];
      ghost var w0 := View();
      sent := 0;
      assert items[0..] == items && routes[0..] == routes;
      while sent < |items|
        invariant 0 <= sent <= |items|
        invariant var rest := SendPass(env, reach, View(), items[sent..], routes[sent..], order, now);
                  SendPass(env, reach, w0, items, routes, order, now) == rest.(sent := rest.sent + sent)
      {
        assert items[sent..][0] == items[sent] && items[sent..][1..] == items[sent + 1..];
        assert routes[sent..][0] == routes[sent] && routes[sent..][1..] == routes[sent + 1..];
        var s := RebindSend(items[sent], order);
        if !Live(sessions, s.peer) {
          Defer(reach, s, order, now);
          return sent, Stopped;
        }
        var ok := SendAlong(reach, s, routes[sent]);
        if !ok { return sent, Crashed; }
        sent := sent + 1;
      }
      end := AllSent;
    }

    method RebindSend(s: PendingSend, order: seq<string>) returns (r: PendingSend)
      ensures r == Rebind(env.ops, sessions, order, s)
    {
      r := s;
      if LooksLikeFingerprint(s.peer) && s.peer !in sessions {
        var hit := ByFingerprint(order, s.peer);
        if hit.Some? { r := s.(peer := hit.value); }
      }
    }

    // ----- Replies from the relay ------------------------------------------

    method DropSends(peer: string)
      modifies this`queue, this`channelOps
      ensures queue == Without(old(queue), peer) && channelOps == WithoutInvites(old(channelOps), peer)
    {
      var i, kept := 0, [];
      while i < |queue|
        invariant 0 <= i <= |queue|
        invariant kept == Without(queue[..i], peer)
      {
        assert queue[..i + 1][..i] == queue[..i];
        if queue[i].peer != peer { kept := kept + [queue[i]]; }
        i := i + 1;
      }
      assert queue[..i] == queue;
      var j, ops := 0, [];
      while j < |channelOps|
        invariant 0 <= j <= |channelOps|
        invariant ops == WithoutInvites(channelOps[..j], peer)
      {
        assert channelOps[..j + 1][..j] == channelOps[..j];
        if channelOps[j].peer != Some(peer) { ops := ops + [channelOps[j]]; }
        j := j + 1;
      }
      assert channelOps[..j] == channelOps;
      queue, channelOps := kept, ops;
    }

    method SettleMesh(target: string)
      modifies this`meshDials, this`meshBootstrap
      ensures View() == MeshSettled(old(View()), target)
    {
      if target in meshBootstrap {
        meshDials := meshDials - {meshBootstrap[target]};
        meshBootstrap := meshBootstrap - {target};
      }
    }

    /** Write the peer's key into the session of that name, made if there is none. */
    method Label(target: string, pub: Pub)
      modifies this`sessions
      ensures View() == Put(old(View()), target, Lookup(old(sessions), target).(peerPub := pub))
    {
      ghost var before := sessions;
      if target !in sessions { sessions := sessions[target := BLANK]; }
      sessions := sessions[target := sessions[target].(peerPub := pub)];
      assert sessions == before[target := Lookup(before, target).(peerPub := pub)];
    }

    /** A bundle arrived for `target`: refuse a downgrade, keep a live session, else label and key. */
    method OnBundle(target: string, pub: Pub, hasPq: bool, keying: Keying)
      modifies this
      ensures View() == BundleReply(old(View()), target, pub, hasPq, keying)
    {
      hide HasLive, MeshSettled, Admitted, Downgrade;
      var ok := AdmitPq(pub, hasPq);
      if !ok { return; }
      var have := HasSession(pub);
      if !have {
        ghost var before := sessions;
        Label(target, pub);
        if keying.None? { return; }
        KeyAsAlice(target, pub, hasPq, keying.value);
        assert sessions == before[target := Session(pub, Some(keying.value.0), keying.value.1, false, false)];
      }
      SettleMesh(target);
    }

    /** The reply is for the oldest unanswered request. */
    method OnKeyReply(reply: Reply)
      modifies this
      ensures View() == KeyReply(old(View()), reply)
    {
      hide Without, WithoutInvites, MeshSettled, BundleReply;
      if pendingFetch == [] { return; }
      var target := pendingFetch[0];
      pendingFetch := pendingFetch[1..];
      journal := journal + [Response(target)];
      if target == "" { return; }
      match reply
      case NotFound =>
        DropSends(target);
        SettleMesh(target);
      case Bundle(pub, hasPq, keying) => OnBundle(target, pub, hasPq, keying);
    }

    method OnUsernameReply(pub: Pub, username: string, found: bool)
      modifies this
      ensures View() == UsernameReply(old(View()), pub, username, found)
    {
      if found && username != "" {
        if pub in meshDials {
          RequestKeys(username);
          meshBootstrap := meshBootstrap[username := pub];
        }
      } else {
        meshDials := meshDials - {pub};
      }
    }

    // ----- Requests from the application -----------------------------------

    method RequestMeshDial(pub: Pub)
      modifies this`meshDials, this`journal
      ensures View() == MeshRequest(old(View()), pub)
    {
      hide HasLive;
      var have := HasSession(pub);
      if have || pub in meshDials { return; }
      meshDials := meshDials + {pub};
      journal := journal + [Query(pub)];
    }

    /** One channel operation, as far as it is about queues and direct messages. */
    method RunChannelOp(op: ChannelOp, kind: InviteKind) returns (end: PassEnd)
      modifies this
      ensures (View(), end) == ChannelOne(env.ops, old(View()), op, kind)
    {
      if op.peer.None? || kind == NoSenderKey { return AllSent; }
      var peer := op.peer.value;
      if kind == ByGroup {
        queue := queue + [PendingSend(peer, op.body)];
        return AllSent;
      }
      if !Live(sessions, peer) {
        ghost var before := sessions;
        if peer !in sessions { sessions := sessions[peer := BLANK]; }
        assert sessions == before[peer := Lookup(before, peer)];
        RequestKeys(peer);
        channelOps := [op] + channelOps;
        return Stopped;
      }
      var ok := SendUnder(peer, sessions[peer].peerPub, None);
      return if ok then AllSent else Crashed;
    }

    /** Swap the channel queue out and work from its front until an invite has to wait or a ratchet throws. */
    method DrainChannelOps(kinds: seq<InviteKind>) returns (done: nat, end: PassEnd)
      requires |kinds| == |channelOps|
      modifies this
      ensures Pass(View(), done, end) == ChannelPass(env.ops, old(View()).(channelOps := []), old(channelOps), kinds)
    {
      hide ChannelOne;
      var items := channelOps;
      channelOps := [];
      ghost var w0 := View();
      done := 0;
      assert items[0..] == items && kinds[0..] == kinds;
      while done < |items|
        invariant 0 <= done <= |items|
        invariant var rest := ChannelPass(env.ops, View(), items[done..], kinds[done..]);
                  ChannelPass(env.ops, w0, items, kinds) == rest.(sent := rest.sent + done)
      {
        assert items[done..][0] == items[done] && items[done..][1..] == items[done + 1..];
        assert kinds[done..][0] == kinds[done] && kinds[done..][1..] == kinds[done + 1..];
        end := RunChannelOp(items[done], kinds[done]);
        if end != AllSent { return; }
        done := done + 1;
      }
      end := AllSent;
    }

    method EnqueueChannelOp(op: ChannelOp)
      modifies this`channelOps
      ensures View() == old(View()).(channelOps := old(channelOps) + [op])
    {
      channelOps := channelOps + [op];
    }

    method SendMediaSignal(pub: Pub, order: seq<string>)
      modifies this`sessions, this`journal
      ensures View() == MediaSignal(env.ops, old(View()), pub, order)
    {
      var i := 0;
      while i < |order|
        invariant 0 <= i <= |order|
        invariant FirstLabelled(sessions, order, pub) == FirstLabelled(sessions, order[i..], pub)
      {
        assert order[i..][1..] == order[i + 1..];
        if order[i] in sessions && sessions[order[i]].peerPub == pub {
          if sessions[order[i]].rat.Some? {
            var _ := SendUnder(order[i], pub, None);
          }
          return;
        }
        i := i + 1;
      }
    }

    method Enqueue(send: PendingSend)
      modifies this`queue
      ensures View() == old(View()).(queue := old(queue) + [send])
    {
      queue := queue + [send];
    }
  }
}
