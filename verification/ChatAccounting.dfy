/** Where every queued or parked send goes. */
module ChatAccounting {
  import opened Common
  import opened Sessions
  import opened ChatWorker

  // ----- The parking drain -------------------------------------------------

  function Sends(parked: seq<Parked>): seq<PendingSend> {
    seq(|parked|, i requires 0 <= i < |parked| => parked[i].send)
  }

  /** The items that stay parked. */
  function Kept(items: seq<Parked>, now: nat, answers: seq<DhtAnswer>): (r: seq<Parked>)
    requires |answers| == |items|
    ensures forall p | p in r :: p in items && Elapsed(now, p.parkedAt) < PARK_TIMEOUT_MS
  {
    if items == [] then []
    else
      var n := |items| - 1;
      Kept(items[..n], now, answers[..n]) + if Released(items[n], now, answers[n]) then [] else [items[n]]
  }

  /** The released sends, latest first, as pushing each to the front leaves them. */
  function Freed(items: seq<Parked>, now: nat, answers: seq<DhtAnswer>): seq<PendingSend>
    requires |answers| == |items|
  {
    if items == [] then []
    else
      var n := |items| - 1;
      (if Released(items[n], now, answers[n]) then [items[n].send] else []) + Freed(items[..n], now, answers[..n])
  }

  lemma DrainItemSplits(env: Env, w: Worker, p: Parked, now: nat, answer: DhtAnswer)
    ensures var w' := DrainItem(env, w, p, now, answer);
            if Released(p, now, answer) then w'.parking == w.parking && w'.queue == [p.send] + w.queue
            else w'.parking == w.parking + [p] && w'.queue == w.queue
  {
    hide HasLive, Released;
  }

  lemma SplitStep(items: seq<Parked>, p: Parked, now: nat, answers: seq<DhtAnswer>, answer: DhtAnswer)
    requires |answers| == |items|
    ensures var kept, freed := Kept(items, now, answers), Freed(items, now, answers);
            var kept' := Kept(items + [p], now, answers + [answer]);
            var freed' := Freed(items + [p], now, answers + [answer]);
            if Released(p, now, answer) then kept' == kept && freed' == [p.send] + freed
            else kept' == kept + [p] && freed' == freed
  {
    hide Released;
    assert (items + [p])[..|items|] == items && (answers + [answer])[..|items|] == answers;
  }

  /** The drain splits the lot in two: what stays, in order, and what goes back to the front of the queue. */
  lemma {:induction false} DrainSplits(env: Env, w: Worker, items: seq<Parked>, now: nat, answers: seq<DhtAnswer>)
    requires |answers| == |items|
    ensures var w' := Drain(env, w, items, now, answers);
            w'.parking == w.parking + Kept(items, now, answers) && w'.queue == Freed(items, now, answers) + w.queue
  {
    hide DrainItem, Released;
    if items == [] {
      assert w.parking + [] == w.parking && [] + w.queue == w.queue;
    } else {
      hide Kept, Freed;
      var n := |items| - 1;
      assert items == items[..n] + [items[n]] && answers == answers[..n] + [answers[n]];
      DrainSplits(env, w, items[..n], now, answers[..n]);
      SplitStep(items[..n], items[n], now, answers[..n], answers[n]);
      DrainItemSplits(env, Drain(env, w, items[..n], now, answers[..n]), items[n], now, answers[n]);
    }
  }

  lemma SendsAppend(parked: seq<Parked>, p: Parked)
    ensures Sends(parked + [p]) == Sends(parked) + [p.send]
  {
  }

  lemma {:induction false} SplitIsPartition(items: seq<Parked>, now: nat, answers: seq<DhtAnswer>)
    requires |answers| == |items|
    ensures multiset(Sends(Kept(items, now, answers))) + multiset(Freed(items, now, answers)) == multiset(Sends(items))
  {
    if items != [] {
      hide Released, Sends, Kept, Freed;
      var n := |items| - 1;
      var rest, p := items[..n], items[n];
      assert items == rest + [p] && answers == answers[..n] + [answers[n]];
      SplitIsPartition(rest, now, answers[..n]);
      SplitStep(rest, p, now, answers[..n], answers[n]);
      SendsAppend(rest, p);
      SendsAppend(Kept(rest, now, answers[..n]), p);
    }
  }

  /** No send is lost or copied by the drain, and none that timed out or can be keyed stays parked. */
  lemma DrainConserves(env: Env, w: Worker, now: nat, answers: seq<DhtAnswer>)
    requires Possible(w, OnDrain(now, answers))
    ensures var w' := Step(env, w, OnDrain(now, answers));
            && multiset(Sends(w'.parking)) + multiset(w'.queue) == multiset(Sends(w.parking)) + multiset(w.queue)
            && (forall p | p in w'.parking :: p in w.parking && Elapsed(now, p.parkedAt) < PARK_TIMEOUT_MS)
            && (exists released :: w'.queue == released + w.queue)
  {
    DrainSplits(env, w.(parking := []), w.parking, now, answers);
    SplitIsPartition(w.parking, now, answers);
    var w' := Step(env, w, OnDrain(now, answers));
    assert w'.parking == Kept(w.parking, now, answers);
    assert w'.queue == Freed(w.parking, now, answers) + w.queue;
  }

  // ----- The send pass -----------------------------------------------------

  function Bodies(sends: seq<PendingSend>): seq<Bytes> {
    seq(|sends|, i requires 0 <= i < |sends| => sends[i].body)
  }

  /** The bodies of the queued sends that went out, in order. */
  function WiredBodies(j: Journal): seq<Bytes> {
    if j == [] then []
    else
      var e := j[|j| - 1];
      WiredBodies(j[..|j| - 1]) + if e.Wire? && e.send.Some? then [e.send.value.body] else []
  }

  /** The sends the pass leaves nowhere. */
  function Lost(items: seq<PendingSend>, r: Pass): seq<PendingSend>
    requires r.sent <= |items|
  {
    match r.end
    case AllSent => []
    case Stopped => if r.sent < |items| then items[r.sent + 1..] else []
    case Crashed => items[r.sent..]
  }

  /** `s` is back at the front of the queue, or newly parked at the end of the lot; nothing else moved. */
  ghost predicate PutBack(w: Worker, w': Worker, s: PendingSend) {
    || (w'.queue == [s] + w.queue && w'.parking == w.parking)
    || (w'.queue == w.queue && w'.parking != [] && w'.parking[|w'.parking| - 1].send == s
        && w'.parking[..|w'.parking| - 1] == w.parking)
  }

  lemma WiredAppend(j: Journal, e: Entry)
    ensures WiredBodies(j + [e]) == WiredBodies(j) + if e.Wire? && e.send.Some? then [e.send.value.body] else []
  {
    assert (j + [e])[..|j|] == j;
  }

  lemma RebindKeepsBody(ops: Primitives, ss: SessionMap, order: seq<string>, s: PendingSend)
    ensures Rebind(ops, ss, order, s).body == s.body
  {
  }

  /** Sends on a route wire the send's body once, when they succeed, and leave queue and lot alone. */
  ghost predicate WiresOnce(w: Worker, r: (Worker, bool), s: PendingSend) {
    && r.0.queue == w.queue && r.0.parking == w.parking
    && WiredBodies(r.0.journal) == WiredBodies(w.journal) + if r.1 then [s.body] else []
  }

  lemma EmitWires(w: Worker, name: string, to: Pub, rat: Ratchet, send: Option<PendingSend>)
    requires name in w.sessions
    ensures var w' := Emit(w, name, to, rat, send);
            && w'.queue == w.queue && w'.parking == w.parking
            && WiredBodies(w'.journal) == WiredBodies(w.journal) + if send.Some? then [send.value.body] else []
  {
    var s := w.sessions[name];
    WiredAppend(w.journal, Wire(name, to, s.sealOutbound, s.pqCt, send));
  }

  lemma {:induction false} DepositWires(ops: Primitives, w: Worker, s: PendingSend, relays: seq<bool>)
    requires Live(w.sessions, s.peer)
    ensures WiresOnce(w, Deposit(ops, w, s, relays), s)
    decreases |relays|
  {
    hide WiredBodies;
    if relays != [] {
      var to, rat := w.sessions[s.peer].peerPub, ops.encrypt(w.sessions[s.peer].rat.value);
      if rat.None? {
        DepositWires(ops, w, s, relays[1..]);
      } else if relays[0] {
        EmitWires(w, s.peer, to, rat.value, Some(s));
      } else {
        EmitWires(w, s.peer, to, rat.value, None);
        DepositWires(ops, Emit(w, s.peer, to, rat.value, None), s, relays[1..]);
      }
    }
  }

  /** Whatever way it takes, a send that goes out is wired exactly once; refused deposits carry it nowhere. */
  lemma SendOneWires(env: Env, reach: Reach, w: Worker, s: PendingSend, route: Route)
    requires Live(w.sessions, s.peer)
    ensures WiresOnce(w, SendOne(env, reach, w, s, route), s)
  {
    hide WiredBodies, Emit, Deposit;
    var rat := env.ops.encrypt(w.sessions[s.peer].rat.value);
    if rat.Some? {
      EmitWires(w, s.peer, w.sessions[s.peer].peerPub, rat.value, Some(s));
    }
    DepositWires(env.ops, w, s, route.relays);
    var (w1, done) := Serverless(env, reach, w, s, route);
    var rat1 := env.ops.encrypt(w1.sessions[s.peer].rat.value);
    if !done && rat1.Some? {
      EmitWires(w1, s.peer, w1.sessions[s.peer].peerPub, rat1.value, Some(s));
    }
  }

  /** The pass wires a prefix, then puts back exactly one send or none. */
  lemma {:induction false} PassAccounts(
    env: Env, reach: Reach, w: Worker, items: seq<PendingSend>, routes: seq<Route>, order: seq<string>, now: nat)
    requires |routes| == |items|
    ensures var r := SendPass(env, reach, w, items, routes, order, now);
            && (r.end == AllSent <==> r.sent == |items|)
            && WiredBodies(r.worker.journal) == WiredBodies(w.journal) + Bodies(items[..r.sent])
            && (r.end != Stopped ==> r.worker.queue == w.queue && r.worker.parking == w.parking)
            && (r.end == Stopped ==>
                  exists s: PendingSend :: PutBack(w, r.worker, s) && s.body == items[r.sent].body)
    decreases |items|
  {
    hide Rebind, NoSession, WiredBodies, SendOne;
    var r := SendPass(env, reach, w, items, routes, order, now);
    assert items[..0] == [] && Bodies([]) == [];
    if items != [] {
      var s := Rebind(env.ops, w.sessions, order, items[0]);
      RebindKeepsBody(env.ops, w.sessions, order, items[0]);
      if !Live(w.sessions, s.peer) {
        NoSessionAccounts(reach, w, s, order, now);
      } else {
        SendOneWires(env, reach, w, s, routes[0]);
        var (w1, ok) := SendOne(env, reach, w, s, routes[0]);
        if ok {
          PassAccounts(env, reach, w1, items[1..], routes[1..], order, now);
          var rest := SendPass(env, reach, w1, items[1..], routes[1..], order, now);
          assert Bodies(items[..r.sent]) == [items[0].body] + Bodies(items[1..][..rest.sent]);
        }
      }
    }
  }

  lemma NoSessionAccounts(reach: Reach, w: Worker, s: PendingSend, order: seq<string>, now: nat)
    ensures var w' := NoSession(reach, w, s, order, now);
            && WiredBodies(w'.journal) == WiredBodies(w.journal)
            && exists s': PendingSend :: PutBack(w, w', s') && s'.body == s.body
  {
    hide FirstLive;
    var w' := NoSession(reach, w, s, order, now);
    WiredAppend(w.journal, Fetch(s.peer));
    var pub := reach.resolve(s.peer);
    if pub.Some? && FirstLive(w.sessions, order, pub.value).Some? {
      var s' := s.(peer := FirstLive(w.sessions, order, pub.value).value);
      assert PutBack(w, w', s');
    } else {
      assert PutBack(w, w', s);
    }
  }

  // ----- Where the pass stops ----------------------------------------------

  /** Same entries, same peers, same liveness: what the pass looks at. */
  ghost predicate SameShape(ss: SessionMap, ss': SessionMap) {
    && ss'.Keys == ss.Keys
    && forall n | n in ss :: ss'[n].peerPub == ss[n].peerPub && (ss'[n].rat.Some? <==> ss[n].rat.Some?)
  }

  lemma {:induction false} SameFingerprint(
    ops: Primitives, ss: SessionMap, ss': SessionMap, order: seq<string>, fp: string)
    requires SameShape(ss, ss')
    ensures FirstByFingerprint(ops, ss', order, fp) == FirstByFingerprint(ops, ss, order, fp)
  {
    if order != [] {
      SameFingerprint(ops, ss, ss', order[1..], fp);
    }
  }

  lemma SameRebind(ops: Primitives, ss: SessionMap, ss': SessionMap, order: seq<string>, s: PendingSend)
    requires SameShape(ss, ss')
    ensures Rebind(ops, ss', order, s) == Rebind(ops, ss, order, s)
  {
    SameFingerprint(ops, ss, ss', order, s.peer);
  }

  ghost predicate Sendable(ops: Primitives, ss: SessionMap, order: seq<string>, s: PendingSend) {
    Live(ss, Rebind(ops, ss, order, s).peer)
  }

  lemma SameShapeTrans(ss: SessionMap, ss': SessionMap, ss'': SessionMap)
    requires SameShape(ss, ss') && SameShape(ss', ss'')
    ensures SameShape(ss, ss'')
  {
  }

  lemma {:induction false} DepositShape(ops: Primitives, w: Worker, s: PendingSend, relays: seq<bool>)
    requires Live(w.sessions, s.peer)
    ensures SameShape(w.sessions, Deposit(ops, w, s, relays).0.sessions)
    decreases |relays|
  {
    if relays != [] {
      var to, rat := w.sessions[s.peer].peerPub, ops.encrypt(w.sessions[s.peer].rat.value);
      if rat.None? {
        DepositShape(ops, w, s, relays[1..]);
      } else if !relays[0] {
        DepositShape(ops, Emit(w, s.peer, to, rat.value, None), s, relays[1..]);
      }
    }
  }

  lemma SendOneShape(env: Env, reach: Reach, w: Worker, s: PendingSend, route: Route)
    requires Live(w.sessions, s.peer)
    ensures SameShape(w.sessions, SendOne(env, reach, w, s, route).0.sessions)
  {
    hide Deposit;
    DepositShape(env.ops, w, s, route.relays);
  }

  /** The pass ends at the first send that has no session, unless a ratchet cannot encrypt before that. */
  lemma {:induction false} PassStopsAtFirst(
    env: Env, reach: Reach, w: Worker, ss: SessionMap, items: seq<PendingSend>, routes: seq<Route>,
      order: seq<string>, now: nat)
    requires SameShape(ss, w.sessions) && |routes| == |items|
    ensures var r := SendPass(env, reach, w, items, routes, order, now);
            && (forall i | 0 <= i < r.sent :: Sendable(env.ops, ss, order, items[i]))
            && (r.end == Stopped ==> r.sent < |items| && !Sendable(env.ops, ss, order, items[r.sent]))
            && (r.end == Crashed ==> r.sent < |items| && Sendable(env.ops, ss, order, items[r.sent]))
    decreases |items|
  {
    hide Rebind, NoSession, SendOne;
    if items != [] {
      SameRebind(env.ops, ss, w.sessions, order, items[0]);
      var s := Rebind(env.ops, w.sessions, order, items[0]);
      if Live(w.sessions, s.peer) {
        SendOneShape(env, reach, w, s, routes[0]);
        var (w1, ok) := SendOne(env, reach, w, s, routes[0]);
        SameShapeTrans(ss, w.sessions, w1.sessions);
        if ok {
          hide SameShape;
          PassStopsAtFirst(env, reach, w1, ss, items[1..], routes[1..], order, now);
          var r := SendPass(env, reach, w1, items[1..], routes[1..], order, now);
          assert forall i | 0 < i < r.sent + 1 :: items[i] == items[1..][i - 1];
        }
      }
    }
  }

  lemma BodiesConcat(xs: seq<PendingSend>, ys: seq<PendingSend>)
    ensures Bodies(xs + ys) == Bodies(xs) + Bodies(ys)
  {
  }

  /**
   Every send is wired, put back, or in the lost tail; at most one is put back, in the queue or in
   the parking lot.
   */
  lemma PassConserves(
    env: Env, reach: Reach, w: Worker, routes: seq<Route>, order: seq<string>, now: nat)
    returns (back: seq<PendingSend>)
    requires |routes| == |w.queue|
    ensures var r := SendPass(env, reach, w.(queue := []), w.queue, routes, order, now);
            && |back| <= 1
            && WiredBodies(r.worker.journal) == WiredBodies(w.journal) + Bodies(w.queue[..r.sent])
            && multiset(r.worker.queue) + multiset(Sends(r.worker.parking))
               == multiset(back) + multiset(Sends(w.parking))
            && Bodies(w.queue) == Bodies(w.queue[..r.sent]) + Bodies(back) + Bodies(Lost(w.queue, r))
  {
    hide SendPass, WiredBodies;
    var items, w0 := w.queue, w.(queue := []);
    var r := SendPass(env, reach, w0, items, routes, order, now);
    PassAccounts(env, reach, w0, items, routes, order, now);
    assert items == items[..r.sent] + items[r.sent..];
    BodiesConcat(items[..r.sent], items[r.sent..]);
    back := [];
    if r.end == Stopped {
      var s: PendingSend :| PutBack(w0, r.worker, s) && s.body == items[r.sent].body;
      back := [s];
      assert items[r.sent..] == [items[r.sent]] + items[r.sent + 1..];
      BodiesConcat([items[r.sent]], items[r.sent + 1..]);
      assert Bodies([items[r.sent]]) == Bodies(back);
      PutBackCounts(w0, r.worker, s);
    } else {
      assert r.end == AllSent ==> items[r.sent..] == [];
    }
  }

  lemma PutBackCounts(w: Worker, w': Worker, s: PendingSend)
    requires PutBack(w, w', s) && w.queue == []
    ensures multiset(w'.queue) + multiset(Sends(w'.parking)) == multiset([s]) + multiset(Sends(w.parking))
  {
    if w'.queue == [] {
      var p := w'.parking[|w'.parking| - 1];
      assert w'.parking == w.parking + [p];
      SendsAppend(w.parking, p);
    } else {
      assert w'.queue == [s];
    }
  }

  // ----- When nothing is lost ----------------------------------------------

  /** A ratchet that can encrypt keeps its send chain. */
  ghost predicate SendChainStays(ops: Primitives) {
    forall r: Ratchet :: ops.encrypt(r).Some? ==> ops.encrypt(ops.encrypt(r).value).Some?
  }

  /** Both maps agree on which sessions can encrypt. */
  ghost predicate SameChains(ops: Primitives, ss: SessionMap, ss': SessionMap) {
    && SameShape(ss, ss')
    && forall n | Live(ss, n) :: ops.encrypt(ss'[n].rat.value).Some? <==> ops.encrypt(ss[n].rat.value).Some?
  }

  /** The send goes out: its session is live and has a send chain. */
  ghost predicate Encryptable(ops: Primitives, ss: SessionMap, order: seq<string>, s: PendingSend) {
    Sendable(ops, ss, order, s) && ops.encrypt(ss[Rebind(ops, ss, order, s).peer].rat.value).Some?
  }

  /** Sending moves one ratchet, and keeps every send chain. */
  lemma EmitKeepsChains(ops: Primitives, w: Worker, ss: SessionMap, name: string, to: Pub, send: Option<PendingSend>)
    requires SendChainStays(ops) && SameChains(ops, ss, w.sessions) && Live(w.sessions, name)
    requires ops.encrypt(w.sessions[name].rat.value).Some?
    ensures SameChains(ops, ss, Emit(w, name, to, ops.encrypt(w.sessions[name].rat.value).value, send).sessions)
  {
  }

  lemma {:induction false} DepositKeepsChains(
    ops: Primitives, w: Worker, ss: SessionMap, s: PendingSend, relays: seq<bool>)
    requires SendChainStays(ops) && SameChains(ops, ss, w.sessions) && Live(w.sessions, s.peer)
    ensures SameChains(ops, ss, Deposit(ops, w, s, relays).0.sessions)
    ensures Deposit(ops, w, s, relays).1 ==> ops.encrypt(w.sessions[s.peer].rat.value).Some?
    decreases |relays|
  {
    hide SameChains, SendChainStays;
    if relays != [] {
      var to, rat := w.sessions[s.peer].peerPub, ops.encrypt(w.sessions[s.peer].rat.value);
      if rat.None? {
        DepositKeepsChains(ops, w, ss, s, relays[1..]);
      } else {
        EmitKeepsChains(ops, w, ss, s.peer, to, None);
        EmitKeepsChains(ops, w, ss, s.peer, to, Some(s));
        if !relays[0] {
          DepositKeepsChains(ops, Emit(w, s.peer, to, rat.value, None), ss, s, relays[1..]);
        }
      }
    }
  }

  /** A send with a session goes out exactly when its ratchet has a send chain. */
  lemma SendOneSucceedsIff(env: Env, reach: Reach, w: Worker, ss: SessionMap, s: PendingSend, route: Route)
    requires SendChainStays(env.ops) && SameChains(env.ops, ss, w.sessions) && Live(w.sessions, s.peer)
    ensures SameChains(env.ops, ss, SendOne(env, reach, w, s, route).0.sessions)
    ensures SendOne(env, reach, w, s, route).1 <==> env.ops.encrypt(w.sessions[s.peer].rat.value).Some?
  {
    var rat := env.ops.encrypt(w.sessions[s.peer].rat.value);
    if rat.Some? {
      EmitKeepsChains(env.ops, w, ss, s.peer, w.sessions[s.peer].peerPub, Some(s));
    }
    DepositKeepsChains(env.ops, w, ss, s, route.relays);
    var (w1, done) := Serverless(env, reach, w, s, route);
    assert Live(ss, s.peer);
    if !done && rat.Some? {
      EmitKeepsChains(env.ops, w1, ss, s.peer, w1.sessions[s.peer].peerPub, Some(s));
    }
  }

  /** A session without a send chain is what ends a pass by an exception. */
  lemma {:induction false} PassCrashesAtFirst(
    env: Env, reach: Reach, w: Worker, ss: SessionMap, items: seq<PendingSend>, routes: seq<Route>,
      order: seq<string>, now: nat)
    requires SendChainStays(env.ops) && SameChains(env.ops, ss, w.sessions) && |routes| == |items|
    ensures var r := SendPass(env, reach, w, items, routes, order, now);
            && (forall i | 0 <= i < r.sent :: Encryptable(env.ops, ss, order, items[i]))
            && (r.sent < |items| ==> !Encryptable(env.ops, ss, order, items[r.sent]))
    decreases |items|
  {
    hide Rebind, NoSession, SameChains, SendChainStays, SendOne;
    if items != [] {
      EncryptableSame(env.ops, ss, w.sessions, order, items[0]);
      var s := Rebind(env.ops, w.sessions, order, items[0]);
      if Live(w.sessions, s.peer) {
        SendOneSucceedsIff(env, reach, w, ss, s, routes[0]);
        var (w1, ok) := SendOne(env, reach, w, s, routes[0]);
        if ok {
          PassCrashesAtFirst(env, reach, w1, ss, items[1..], routes[1..], order, now);
          var r := SendPass(env, reach, w1, items[1..], routes[1..], order, now);
          assert forall i | 0 < i < r.sent + 1 :: items[i] == items[1..][i - 1];
        }
      }
    }
  }

  lemma EncryptableSame(ops: Primitives, ss: SessionMap, ss': SessionMap, order: seq<string>, s: PendingSend)
    requires SameChains(ops, ss, ss')
    ensures Encryptable(ops, ss', order, s) <==> Encryptable(ops, ss, order, s)
  {
    hide Rebind;
    SameRebind(ops, ss, ss', order, s);
  }

  /**
   A pass loses nothing exactly when every send but the last goes out and the last, if it
   has a session, has one with a send chain.
   */
  lemma NothingLostIff(
    env: Env, reach: Reach, w: Worker, items: seq<PendingSend>, routes: seq<Route>, order: seq<string>, now: nat)
    requires SendChainStays(env.ops) && |routes| == |items|
    ensures var r := SendPass(env, reach, w, items, routes, order, now);
            Lost(items, r) == [] <==>
            && (forall i | 0 <= i < |items| - 1 :: Encryptable(env.ops, w.sessions, order, items[i]))
            && (items != [] ==>
                  var last := items[|items| - 1];
                  Sendable(env.ops, w.sessions, order, last) ==> Encryptable(env.ops, w.sessions, order, last))
  {
    hide SendPass, Rebind, Live;
    PassStopsAtFirst(env, reach, w, w.sessions, items, routes, order, now);
    PassCrashesAtFirst(env, reach, w, w.sessions, items, routes, order, now);
    PassAccounts(env, reach, w, items, routes, order, now);
  }

  /** The second of two sends to peers without a session is lost: a run of three events whose pass leaves it nowhere. */
  lemma SecondSendIsLost(
    env: Env, reach: Reach, a: PendingSend, b: PendingSend, now: nat) returns (ws: seq<Worker>, es: seq<Event>)
    ensures IsRun(env, ws, es) && |es| == 3 && ws[2].queue == [a, b] && es[2].OnSendPass?
    ensures Lost([a, b], SendPass(env, reach, ws[2].(queue := []), [a, b], es[2].routes, es[2].order, now)) == [b]
    ensures PutBack(ws[2].(queue := []), ws[3], a)
  {
    var route := Route(false, []);
    es := [OnEnqueue(a), OnEnqueue(b), OnSendPass(reach, [], [route, route], now)];
    var w0 := Start(env);
    var w1 := Step(env, w0, es[0]);
    var w2 := Step(env, w1, es[1]);
    assert w2.queue == [a, b];
    var w3 := Step(env, w2, es[2]);
    ws := [w0, w1, w2, w3];
    var w := w2.(queue := []);
    assert Rebind(env.ops, w.sessions, [], a) == a && !Live(w.sessions, a.peer);
    var r := SendPass(env, reach, w, [a, b], [route, route], [], now);
    assert r == Pass(NoSession(reach, w, a, [], now), 0, Stopped);
    assert [a, b][1..] == [b];
    assert PutBack(w, NoSession(reach, w, a, [], now), a);
  }

  // ----- The channel operations --------------------------------------------

  /** The operations a channel pass leaves nowhere: all behind an invite that had to wait or that threw. */
  function LostOps(items: seq<ChannelOp>, r: Pass): seq<ChannelOp>
    requires r.sent <= |items|
  {
    match r.end
    case AllSent => []
    case Stopped => if r.sent < |items| then items[r.sent + 1..] else []
    case Crashed => items[r.sent..]
  }

  /** The operation is an invite by sender key. */
  predicate NeedsSession(op: ChannelOp, kind: InviteKind) {
    op.peer.Some? && kind == BySenderKey
  }

  /** Nothing holds the operation up: it needs no session, or has one with a send chain. */
  ghost predicate Proceeds(ops: Primitives, ss: SessionMap, op: ChannelOp, kind: InviteKind) {
    NeedsSession(op, kind) ==> Live(ss, op.peer.value) && ops.encrypt(ss[op.peer.value].rat.value).Some?
  }

  lemma ChannelOneIff(ops: Primitives, w: Worker, ss: SessionMap, op: ChannelOp, kind: InviteKind)
    requires SendChainStays(ops) && SameChains(ops, ss, w.sessions)
    ensures var (w1, end) := ChannelOne(ops, w, op, kind);
            && (end == AllSent <==> Proceeds(ops, ss, op, kind))
            && (end == Stopped <==> NeedsSession(op, kind) && !Live(ss, op.peer.value))
            && (end == AllSent ==> SameChains(ops, ss, w1.sessions) && w1.channelOps == w.channelOps)
            && (end == Stopped ==> w1.channelOps == [op] + w.channelOps)
  {
    if NeedsSession(op, kind) && Live(w.sessions, op.peer.value) {
      var name := op.peer.value;
      if ops.encrypt(w.sessions[name].rat.value).Some? {
        EmitKeepsChains(ops, w, ss, name, w.sessions[name].peerPub, None);
      }
    }
  }

  /**
   A channel pass reaches exactly the operations before the first that is held up; one that waits
   is put back in front.
   */
  lemma {:induction false} ChannelPassStopsAtFirst(
    ops: Primitives, w: Worker, ss: SessionMap, items: seq<ChannelOp>, kinds: seq<InviteKind>)
    requires SendChainStays(ops) && SameChains(ops, ss, w.sessions) && |kinds| == |items|
    ensures var r := ChannelPass(ops, w, items, kinds);
            && (forall i | 0 <= i < r.sent :: Proceeds(ops, ss, items[i], kinds[i]))
            && (r.end == AllSent <==> r.sent == |items|)
            && (r.end != AllSent ==> !Proceeds(ops, ss, items[r.sent], kinds[r.sent]))
            && (r.end == Stopped <==>
                  r.sent < |items| && NeedsSession(items[r.sent], kinds[r.sent]) && !Live(ss, items[r.sent].peer.value))
            && (r.end == Stopped ==> r.worker.channelOps == [items[r.sent]] + w.channelOps)
            && (r.end == AllSent ==> r.worker.channelOps == w.channelOps)
    decreases |items|
  {
    if items != [] {
      ChannelOneIff(ops, w, ss, items[0], kinds[0]);
      hide ChannelOne, SameChains, Proceeds, SendChainStays;
      var (w1, end) := ChannelOne(ops, w, items[0], kinds[0]);
      if end == AllSent {
        ChannelPassStopsAtFirst(ops, w1, ss, items[1..], kinds[1..]);
        var r := ChannelPass(ops, w1, items[1..], kinds[1..]);
        assert forall i | 0 < i < r.sent + 1 :: items[i] == items[1..][i - 1] && kinds[i] == kinds[1..][i - 1];
      }
    }
  }

  /**
   A channel pass loses nothing if and only if every operation but the last proceeds, and the last
   does or just waits.
   */
  lemma NoOpLostIff(ops: Primitives, w: Worker, items: seq<ChannelOp>, kinds: seq<InviteKind>)
    requires SendChainStays(ops) && |kinds| == |items|
    ensures var r := ChannelPass(ops, w, items, kinds);
            LostOps(items, r) == [] <==>
            && (forall i | 0 <= i < |items| - 1 :: Proceeds(ops, w.sessions, items[i], kinds[i]))
            && (items != [] ==>
                  var last, kind := items[|items| - 1], kinds[|items| - 1];
                  NeedsSession(last, kind) && Live(w.sessions, last.peer.value) ==>
                    Proceeds(ops, w.sessions, last, kind))
  {
    ChannelPassStopsAtFirst(ops, w, w.sessions, items, kinds);
    hide ChannelPass, SameChains, SendChainStays;
  }

  /** An operation behind an invite to a peer without a session is lost: three events. */
  lemma OpBehindInviteIsLost(
    env: Env, peer: string, op: ChannelOp, kinds: seq<InviteKind>) returns (ws: seq<Worker>, es: seq<Event>)
    requires |kinds| == 2 && kinds[0] == BySenderKey
    ensures IsRun(env, ws, es) && |es| == 3 && ws[2].channelOps == [ChannelOp(Some(peer), []), op]
    ensures ws[3].channelOps == [ChannelOp(Some(peer), [])] && ws[3].pendingFetch == [peer]
  {
    var invite := ChannelOp(Some(peer), []);
    es := [OnChannelOp(invite), OnChannelOp(op), OnChannelOps(kinds)];
    var w0 := Start(env);
    var w1 := Step(env, w0, es[0]);
    var w2 := Step(env, w1, es[1]);
    assert w2.channelOps == [invite, op];
    var w := w2.(channelOps := []);
    assert ChannelOne(env.ops, w, invite, BySenderKey) == (AskForInvite(w, invite, peer), Stopped);
    ws := [w0, w1, w2, Step(env, w2, es[2])];
  }
}
