/**
 First contact: which sends ask the server for keys. A parked send that timed out goes back to
 the queue, and the next pass parks it again; it does not fall back to the server.
 */
module ChatParking {
  import opened Common
  import opened Sessions
  import opened ChatWorker

  /** The name resolves, and there is a session to rebind to or an overlay to wait for. */
  predicate StaysOffServer(reach: Reach, ss: SessionMap, order: seq<string>, peer: string) {
    var pub := reach.resolve(peer);
    pub.Some? && (FirstLive(ss, order, pub.value).Some? || reach.overlay)
  }

  /** A send without a session asks the server for keys exactly when it does not stay off the server. */
  lemma FetchesIff(reach: Reach, w: Worker, s: PendingSend, order: seq<string>, now: nat)
    ensures var w' := NoSession(reach, w, s, order, now);
            && (w'.pendingFetch == w.pendingFetch + [s.peer] <==> !StaysOffServer(reach, w.sessions, order, s.peer))
            && (w'.pendingFetch == w.pendingFetch <==> StaysOffServer(reach, w.sessions, order, s.peer))
            && (w'.journal == w.journal <==> StaysOffServer(reach, w.sessions, order, s.peer))
  {
    hide FirstLive;
    assert |w.pendingFetch + [s.peer]| == |w.pendingFetch| + 1;
    assert |w.journal + [Fetch(s.peer)]| == |w.journal| + 1;
  }

  // ----- Over runs ---------------------------------------------------------

  /** The journal grows, and no new entry asks for the keys of a name that resolves. */
  ghost predicate AsksOnlyUnresolved(reach: Reach, j: Journal, j': Journal) {
    && j <= j'
    && forall n | |j| <= n < |j'| && j'[n].Fetch? :: reach.resolve(j'[n].username).None?
  }

  lemma AsksAgain(reach: Reach, j: Journal, j1: Journal, j2: Journal)
    requires AsksOnlyUnresolved(reach, j, j1) && AsksOnlyUnresolved(reach, j1, j2)
    ensures AsksOnlyUnresolved(reach, j, j2)
  {
  }

  lemma {:induction false} DepositAsksNothing(
    ops: Primitives, reach: Reach, w: Worker, s: PendingSend, relays: seq<bool>)
    requires Live(w.sessions, s.peer)
    ensures AsksOnlyUnresolved(reach, w.journal, Deposit(ops, w, s, relays).0.journal)
    decreases |relays|
  {
    if relays != [] {
      var to, rat := w.sessions[s.peer].peerPub, ops.encrypt(w.sessions[s.peer].rat.value);
      if rat.None? {
        DepositAsksNothing(ops, reach, w, s, relays[1..]);
      } else if !relays[0] {
        var w1 := Emit(w, s.peer, to, rat.value, None);
        DepositAsksNothing(ops, reach, w1, s, relays[1..]);
        AsksAgain(reach, w.journal, w1.journal, Deposit(ops, w1, s, relays[1..]).0.journal);
      }
    }
  }

  lemma SendOneAsksNothing(env: Env, reach: Reach, w: Worker, s: PendingSend, route: Route)
    requires Live(w.sessions, s.peer)
    ensures AsksOnlyUnresolved(reach, w.journal, SendOne(env, reach, w, s, route).0.journal)
  {
    hide Deposit;
    DepositAsksNothing(env.ops, reach, w, s, route.relays);
  }

  lemma {:induction false} PassAsksOnlyUnresolved(
    env: Env, reach: Reach, w: Worker, items: seq<PendingSend>, routes: seq<Route>, order: seq<string>, now: nat)
    requires reach.overlay && |routes| == |items|
    ensures AsksOnlyUnresolved(reach, w.journal, SendPass(env, reach, w, items, routes, order, now).worker.journal)
    decreases |items|
  {
    hide Rebind, SendOne, FirstLive;
    if items != [] {
      var s := Rebind(env.ops, w.sessions, order, items[0]);
      if Live(w.sessions, s.peer) {
        SendOneAsksNothing(env, reach, w, s, routes[0]);
        var (w1, ok) := SendOne(env, reach, w, s, routes[0]);
        if ok {
          PassAsksOnlyUnresolved(env, reach, w1, items[1..], routes[1..], order, now);
          AsksAgain(reach, w.journal, w1.journal,
            SendPass(env, reach, w1, items[1..], routes[1..], order, now).worker.journal);
        }
      }
    }
  }

  /** While the overlay is up, no send pass of any run asks the server for the keys of a name that then resolves. */
  lemma ResolvedNamesStayOffServer(env: Env, ws: seq<Worker>, es: seq<Event>, i: nat, n: nat)
    requires IsRun(env, ws, es) && i < |es| && es[i].OnSendPass? && es[i].reach.overlay
    requires |ws[i].journal| <= n < |ws[i + 1].journal| && ws[i + 1].journal[n].Fetch?
    ensures es[i].reach.resolve(ws[i + 1].journal[n].username).None?
  {
    var w, e := ws[i], es[i];
    assert Possible(w, e) && ws[i + 1] == Step(env, w, e);
    PassAsksOnlyUnresolved(env, e.reach, w.(queue := []), w.queue, e.routes, e.order, e.now);
  }

  // ----- Parked for ever ---------------------------------------------------

  /** One round: the time is up, the drain puts the send back, the next pass parks it again. */
  lemma ParksAgain(
    env: Env, reach: Reach, w: Worker, p: Parked, order: seq<string>, route: Route, now: nat, now': nat)
    requires reach.overlay && reach.resolve(p.send.peer) == Some(p.peerPub)
    requires w.parking == [p] && w.queue == [] && Elapsed(now, p.parkedAt) >= PARK_TIMEOUT_MS
    requires p.send.peer in w.sessions && !Live(w.sessions, p.send.peer)
    requires Enumerates(order, w.sessions) && !HasLive(w.sessions, p.peerPub)
    ensures var e, e' := OnDrain(now, [Missing]), OnSendPass(reach, order, [route], now');
            && Possible(w, e) && Possible(Step(env, w, e), e')
            && Step(env, Step(env, w, e), e') == w.(parking := [p.(parkedAt := now')])
  {
    hide FirstLive;
    var w0, items := w.(parking := []), w.parking;
    assert items[..0] == [] && Drain(env, w0, items[..0], now, [Missing][..0]) == w0;
    var w1 := Step(env, w, OnDrain(now, [Missing]));
    assert w1 == w0.(queue := [p.send]);
    var s := Rebind(env.ops, w1.sessions, order, p.send);
    assert s == p.send;
    var w2 := w1.(queue := []);
    assert FirstLive(w2.sessions, order, p.peerPub).None?;
    assert w2.sessions[p.send.peer := w2.sessions[p.send.peer]] == w2.sessions;
    assert SendPass(env, reach, w2, [p.send], [route], order, now').worker == NoSession(reach, w2, p.send, order, now');
  }

  /** What a worker looks like whose only send has been parked, so far without a word to the server. */
  ghost predicate OnlyParked(env: Env, w: Worker, send: PendingSend, pub: Pub, parkedAt: nat) {
    w == Start(env).(sessions := map[send.peer := BLANK], parking := [Parked(send, pub, parkedAt)])
  }

  /** The send is parked by the first pass. */
  lemma ParkedAtFirst(
    env: Env, reach: Reach, send: PendingSend, pub: Pub) returns (ws: seq<Worker>, es: seq<Event>)
    requires reach.overlay && reach.resolve(send.peer) == Some(pub)
    ensures IsRun(env, ws, es) && |ws| == |es| + 1 && |es| == 2 && OnlyParked(env, ws[|es|], send, pub, 0)
  {
    var route := Route(false, []);
    var w0 := Start(env);
    es := [OnEnqueue(send), OnSendPass(reach, [], [route], 0)];
    var w1 := Step(env, w0, es[0]);
    assert w1.queue == [send];
    var w2 := Step(env, w1, es[1]);
    var w := w1.(queue := []);
    assert Rebind(env.ops, w1.sessions, [], send) == send;
    assert SendPass(env, reach, w, [send], [route], [], 0).worker == NoSession(reach, w, send, [], 0);
    ws := [w0, w1, w2];
  }

  /** One more round. */
  lemma ParkedOnceMore(
    env: Env, reach: Reach, w: Worker, send: PendingSend, pub: Pub, now: nat) returns (e: Event, e': Event)
    requires reach.overlay && reach.resolve(send.peer) == Some(pub) && now >= PARK_TIMEOUT_MS
    requires OnlyParked(env, w, send, pub, now - PARK_TIMEOUT_MS)
    ensures Possible(w, e) && Possible(Step(env, w, e), e')
    ensures OnlyParked(env, Step(env, Step(env, w, e), e'), send, pub, now)
  {
    var route := Route(false, []);
    ParksAgain(env, reach, w, w.parking[0], [send.peer], route, now, now);
    e, e' := OnDrain(now, [Missing]), OnSendPass(reach, [send.peer], [route], now);
  }

  /** For any number of rounds there is a run in which the send is still parked, and the server was never asked. */
  lemma {:induction false} ParkedForRounds(
    env: Env, reach: Reach, send: PendingSend, pub: Pub, rounds: nat) returns (ws: seq<Worker>, es: seq<Event>)
    requires reach.overlay && reach.resolve(send.peer) == Some(pub)
    ensures IsRun(env, ws, es) && |ws| == |es| + 1 && |es| == 2 + 2 * rounds
    ensures OnlyParked(env, ws[|es|], send, pub, PARK_TIMEOUT_MS * rounds)
  {
    hide Step, OnlyParked, Possible;
    if rounds == 0 {
      ws, es := ParkedAtFirst(env, reach, send, pub);
    } else {
      ws, es := ParkedForRounds(env, reach, send, pub, rounds - 1);
      var w := ws[|es|];
      var e, e' := ParkedOnceMore(env, reach, w, send, pub, PARK_TIMEOUT_MS * rounds);
      var w' := Step(env, w, e);
      ws, es := ws + [w', Step(env, w', e')], es + [e, e'];
    }
  }
}
