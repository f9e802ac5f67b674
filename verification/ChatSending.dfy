/**
 What sending does to the ratchets: every envelope moves the ratchet of its session on by one
 encryption, goes to that session's peer, and moves no other ratchet.
 */
module ChatSending {
  import opened Common
  import opened Sessions
  import opened ChatWorker
  import opened ChatAccounting

  /** The ratchet after `k` encryptions. */
  function Encrypts(ops: Primitives, rat: Option<Ratchet>, k: nat): Option<Ratchet> {
    if k == 0 then rat
    else
      var before := Encrypts(ops, rat, k - 1);
      if before.None? then None else ops.encrypt(before.value)
  }

  /** How many envelopes were built from the session. */
  function Wires(j: Journal, name: string): nat {
    if j == [] then 0
    else
      var e := j[|j| - 1];
      Wires(j[..|j| - 1], name) + if e.Wire? && e.name == name then 1 else 0
  }

  /** A request for keys, or an envelope for the peer of a live session, flagged as that session is. */
  ghost predicate SentFrom(ss: SessionMap, e: Entry) {
    || e.Fetch?
    || (e.Wire? && Live(ss, e.name)
        && e == Wire(e.name, ss[e.name].peerPub, ss[e.name].sealOutbound, ss[e.name].pqCt, e.send)
        && (e.send.Some? ==> e.send.value.peer == e.name))
  }

  /** The session is as it was, except that its ratchet encrypted once for each new envelope. */
  ghost predicate Follows(ops: Primitives, w: Worker, w': Worker, name: string) {
    var s, s' := Lookup(w.sessions, name), Lookup(w'.sessions, name);
    && Wires(w.journal, name) <= Wires(w'.journal, name)
    && s' == s.(rat := Encrypts(ops, s.rat, Wires(w'.journal, name) - Wires(w.journal, name)))
    && (s'.rat.Some? <==> s.rat.Some?)
  }

  /** All that happened between the two states is that envelopes were sent and keys asked for. */
  ghost predicate OnlySent(ops: Primitives, w: Worker, w': Worker) {
    && w.journal <= w'.journal
    && (forall n | |w.journal| <= n < |w'.journal| :: SentFrom(w.sessions, w'.journal[n]))
    && (forall name :: Follows(ops, w, w', name))
    && w'.pins == w.pins
  }

  // ----- Composition -------------------------------------------------------

  lemma {:induction false} EncryptsSum(ops: Primitives, rat: Option<Ratchet>, k: nat, l: nat)
    ensures Encrypts(ops, Encrypts(ops, rat, k), l) == Encrypts(ops, rat, k + l)
  {
    if l > 0 {
      EncryptsSum(ops, rat, k, l - 1);
    }
  }

  lemma WiresAppend(j: Journal, e: Entry, name: string)
    ensures Wires(j + [e], name) == Wires(j, name) + if e.Wire? && e.name == name then 1 else 0
  {
    assert (j + [e])[..|j|] == j;
  }

  lemma SentAgain(ops: Primitives, w: Worker, w1: Worker, w2: Worker)
    requires OnlySent(ops, w, w1) && OnlySent(ops, w1, w2)
    ensures OnlySent(ops, w, w2)
  {
    hide Encrypts, Wires;
    forall name
      ensures Follows(ops, w, w2, name)
    {
      assert Follows(ops, w, w1, name) && Follows(ops, w1, w2, name);
      EncryptsSum(ops, Lookup(w.sessions, name).rat, Wires(w1.journal, name) - Wires(w.journal, name),
        Wires(w2.journal, name) - Wires(w1.journal, name));
    }
    forall n | |w.journal| <= n < |w2.journal|
      ensures SentFrom(w.sessions, w2.journal[n])
    {
      if n >= |w1.journal| {
        assert SentFrom(w1.sessions, w2.journal[n]);
        var e := w2.journal[n];
        if e.Wire? {
          assert Follows(ops, w, w1, e.name);
        }
      }
    }
  }

  /** Changes that leave sessions, journal and pins alone. */
  lemma FrameSent(ops: Primitives, w: Worker, w': Worker)
    requires w'.journal == w.journal && w'.pins == w.pins
    requires forall name :: Lookup(w'.sessions, name) == Lookup(w.sessions, name)
    ensures OnlySent(ops, w, w')
  {
    hide Wires;
  }

  lemma FetchSent(ops: Primitives, w: Worker, username: string)
    ensures OnlySent(ops, w, SendFetch(w, username))
  {
    var w' := SendFetch(w, username);
    forall name
      ensures Follows(ops, w, w', name)
    {
      WiresAppend(w.journal, Fetch(username), name);
    }
  }

  /** One envelope: the session's ratchet encrypts once. */
  lemma EmitSent(ops: Primitives, w: Worker, name: string, send: Option<PendingSend>)
    requires Live(w.sessions, name) && ops.encrypt(w.sessions[name].rat.value).Some?
    requires send.Some? ==> send.value.peer == name
    ensures var rat := ops.encrypt(w.sessions[name].rat.value).value;
            OnlySent(ops, w, Emit(w, name, w.sessions[name].peerPub, rat, send))
  {
    hide Wires;
    var s := w.sessions[name];
    var w' := Emit(w, name, s.peerPub, ops.encrypt(s.rat.value).value, send);
    var e := Wire(name, s.peerPub, s.sealOutbound, s.pqCt, send);
    assert w'.journal == w.journal + [e];
    forall n
      ensures Follows(ops, w, w', n)
    {
      WiresAppend(w.journal, e, n);
      assert Encrypts(ops, s.rat, 1) == ops.encrypt(Encrypts(ops, s.rat, 0).value);
    }
  }

  // ----- The senders -------------------------------------------------------

  lemma {:induction false} DepositSent(ops: Primitives, w: Worker, s: PendingSend, relays: seq<bool>)
    requires Live(w.sessions, s.peer)
    ensures OnlySent(ops, w, Deposit(ops, w, s, relays).0)
    decreases |relays|
  {
    hide OnlySent, Emit;
    var to, rat := w.sessions[s.peer].peerPub, ops.encrypt(w.sessions[s.peer].rat.value);
    if relays == [] {
      FrameSent(ops, w, w);
    } else if rat.None? {
      DepositSent(ops, w, s, relays[1..]);
    } else if relays[0] {
      EmitSent(ops, w, s.peer, Some(s));
    } else {
      EmitSent(ops, w, s.peer, None);
      var w1 := Emit(w, s.peer, to, rat.value, None);
      EmitLives(w, s.peer, to, rat.value, None);
      DepositSent(ops, w1, s, relays[1..]);
      SentAgain(ops, w, w1, Deposit(ops, w1, s, relays[1..]).0);
    }
  }

  lemma EmitLives(w: Worker, name: string, to: Pub, rat: Ratchet, send: Option<PendingSend>)
    requires Live(w.sessions, name)
    ensures Live(Emit(w, name, to, rat, send).sessions, name)
  {
  }

  lemma ServerlessSent(env: Env, reach: Reach, w: Worker, s: PendingSend, route: Route)
    requires Live(w.sessions, s.peer)
    ensures OnlySent(env.ops, w, Serverless(env, reach, w, s, route).0)
  {
    hide OnlySent, Emit, Deposit;
    FrameSent(env.ops, w, w);
    DepositSent(env.ops, w, s, route.relays);
    if env.ops.encrypt(w.sessions[s.peer].rat.value).Some? {
      EmitSent(env.ops, w, s.peer, Some(s));
    }
  }

  lemma SendOneSent(env: Env, reach: Reach, w: Worker, s: PendingSend, route: Route)
    requires Live(w.sessions, s.peer)
    ensures OnlySent(env.ops, w, SendOne(env, reach, w, s, route).0)
  {
    hide OnlySent, Emit, Serverless;
    ServerlessSent(env, reach, w, s, route);
    var (w1, done) := Serverless(env, reach, w, s, route);
    var rat := env.ops.encrypt(w1.sessions[s.peer].rat.value);
    if !done && rat.Some? {
      EmitSent(env.ops, w1, s.peer, Some(s));
      SentAgain(env.ops, w, w1, Emit(w1, s.peer, w1.sessions[s.peer].peerPub, rat.value, Some(s)));
    }
  }

  lemma NoSessionSent(ops: Primitives, reach: Reach, w: Worker, s: PendingSend, order: seq<string>, now: nat)
    ensures OnlySent(ops, w, NoSession(reach, w, s, order, now))
  {
    hide OnlySent, FirstLive;
    var w', w1 := NoSession(reach, w, s, order, now), Put(w, s.peer, Lookup(w.sessions, s.peer));
    if w'.journal == w.journal {
      FrameSent(ops, w, w');
    } else {
      FrameSent(ops, w, w1);
      FetchSent(ops, w1, s.peer);
      SentAgain(ops, w, w1, SendFetch(w1, s.peer));
      FrameSent(ops, SendFetch(w1, s.peer), w');
      SentAgain(ops, w, SendFetch(w1, s.peer), w');
    }
  }

  /**
   A send pass, however its envelopes travel and wherever it ends: each session's ratchet has
   encrypted once for each envelope built from it, and nothing else of any session has changed.
   */
  lemma {:induction false} SendPassSent(
    env: Env, reach: Reach, w: Worker, items: seq<PendingSend>, routes: seq<Route>, order: seq<string>, now: nat)
    requires |routes| == |items|
    ensures OnlySent(env.ops, w, SendPass(env, reach, w, items, routes, order, now).worker)
    decreases |items|
  {
    hide OnlySent, Rebind, NoSession, SendOne;
    if items == [] {
      FrameSent(env.ops, w, w);
    } else {
      var s := Rebind(env.ops, w.sessions, order, items[0]);
      if !Live(w.sessions, s.peer) {
        NoSessionSent(env.ops, reach, w, s, order, now);
      } else {
        SendOneSent(env, reach, w, s, routes[0]);
        var (w1, ok) := SendOne(env, reach, w, s, routes[0]);
        if ok {
          SendPassSent(env, reach, w1, items[1..], routes[1..], order, now);
          SentAgain(env.ops, w, w1, SendPass(env, reach, w1, items[1..], routes[1..], order, now).worker);
        }
      }
    }
  }

  lemma ChannelOneSent(ops: Primitives, w: Worker, op: ChannelOp, kind: InviteKind)
    ensures OnlySent(ops, w, ChannelOne(ops, w, op, kind).0)
  {
    hide OnlySent;
    var w' := ChannelOne(ops, w, op, kind).0;
    if op.peer.None? || kind != BySenderKey {
      FrameSent(ops, w, w');
    } else if !Live(w.sessions, op.peer.value) {
      var peer := op.peer.value;
      var w1 := Put(w, peer, Lookup(w.sessions, peer));
      FrameSent(ops, w, w1);
      FetchSent(ops, w1, peer);
      SentAgain(ops, w, w1, SendFetch(w1, peer));
      FrameSent(ops, SendFetch(w1, peer), w');
      SentAgain(ops, w, SendFetch(w1, peer), w');
    } else {
      FrameSent(ops, w, w);
      if ops.encrypt(w.sessions[op.peer.value].rat.value).Some? {
        EmitSent(ops, w, op.peer.value, None);
      }
    }
  }

  /** So does a pass over the channel operations. */
  lemma {:induction false} ChannelPassSent(ops: Primitives, w: Worker, items: seq<ChannelOp>, kinds: seq<InviteKind>)
    requires |kinds| == |items|
    ensures OnlySent(ops, w, ChannelPass(ops, w, items, kinds).worker)
    decreases |items|
  {
    hide OnlySent, ChannelOne;
    if items == [] {
      FrameSent(ops, w, w);
    } else {
      ChannelOneSent(ops, w, items[0], kinds[0]);
      var (w1, end) := ChannelOne(ops, w, items[0], kinds[0]);
      if end == AllSent {
        ChannelPassSent(ops, w1, items[1..], kinds[1..]);
        SentAgain(ops, w, w1, ChannelPass(ops, w1, items[1..], kinds[1..]).worker);
      }
    }
  }

  lemma MediaSent(ops: Primitives, w: Worker, pub: Pub, order: seq<string>)
    ensures OnlySent(ops, w, MediaSignal(ops, w, pub, order))
  {
    hide OnlySent;
    FrameSent(ops, w, w);
    var hit := FirstLabelled(w.sessions, order, pub);
    if hit.Some? && w.sessions[hit.value].rat.Some? && ops.encrypt(w.sessions[hit.value].rat.value).Some? {
      EmitSent(ops, w, hit.value, None);
    }
  }

  /** The handlers that send. */
  predicate IsSending(e: Event) {
    e.OnSendPass? || e.OnChannelOps? || e.OnMedia?
  }

  /** In every run, a step that sends moves each ratchet by one encryption for each envelope, and nothing else. */
  lemma SendingMovesRatchets(env: Env, ws: seq<Worker>, es: seq<Event>, i: nat)
    requires IsRun(env, ws, es) && i < |es| && IsSending(es[i])
    ensures OnlySent(env.ops, ws[i], ws[i + 1])
  {
    hide OnlySent;
    var w := ws[i];
    assert Possible(w, es[i]) && ws[i + 1] == Step(env, w, es[i]);
    match es[i]
    case OnSendPass(reach, order, routes, now) =>
      FrameSent(env.ops, w, w.(queue := []));
      SendPassSent(env, reach, w.(queue := []), w.queue, routes, order, now);
      SentAgain(env.ops, w, w.(queue := []), ws[i + 1]);
    case OnChannelOps(kinds) =>
      FrameSent(env.ops, w, w.(channelOps := []));
      ChannelPassSent(env.ops, w.(channelOps := []), w.channelOps, kinds);
      SentAgain(env.ops, w, w.(channelOps := []), ws[i + 1]);
    case OnMedia(pub, order) => MediaSent(env.ops, w, pub, order);
  }

  // ----- What a send becomes -----------------------------------------------

  /** Position of the first relay that takes the deposit, or how many there are when none does. */
  function FirstTaker(relays: seq<bool>): (k: nat)
    ensures k <= |relays| && (forall i | 0 <= i < k :: !relays[i]) && (k < |relays| ==> relays[k])
  {
    if relays == [] || relays[0] then 0 else 1 + FirstTaker(relays[1..])
  }

  /** How many envelopes a send costs: one, after one for each relay that refused it. */
  function Envelopes(reach: Reach, route: Route): nat {
    if !reach.overlay || route.direct then 1 else FirstTaker(route.relays) + 1
  }

  /** `n` envelopes from the session of `s`, of which only the last carries it when `carried`. */
  ghost predicate Built(j: Journal, j': Journal, s: PendingSend, n: nat, carried: bool) {
    && j <= j' && |j'| == |j| + n
    && (forall i | |j| <= i < |j'| :: j'[i].Wire? && j'[i].name == s.peer)
    && (forall i | |j| <= i < |j'| :: j'[i].send == if carried && i == |j'| - 1 then Some(s) else None)
  }

  lemma {:induction false} DepositBuilds(ops: Primitives, w: Worker, s: PendingSend, relays: seq<bool>)
    requires SendChainStays(ops) && Live(w.sessions, s.peer) && ops.encrypt(w.sessions[s.peer].rat.value).Some?
    ensures var (w', done) := Deposit(ops, w, s, relays);
            var k := FirstTaker(relays);
            && done == (k < |relays|)
            && Built(w.journal, w'.journal, s, if done then k + 1 else k, done)
            && Live(w'.sessions, s.peer) && ops.encrypt(w'.sessions[s.peer].rat.value).Some?
    decreases |relays|
  {
    if relays != [] && !relays[0] {
      var rat := ops.encrypt(w.sessions[s.peer].rat.value);
      DepositBuilds(ops, Emit(w, s.peer, w.sessions[s.peer].peerPub, rat.value, None), s, relays[1..]);
    }
  }

  /**
   A send whose session has a send chain costs one envelope for each relay that refused it, and one
   that carries it.
   */
  lemma SendOneBuilds(env: Env, reach: Reach, w: Worker, s: PendingSend, route: Route)
    requires SendChainStays(env.ops) && Live(w.sessions, s.peer)
    requires env.ops.encrypt(w.sessions[s.peer].rat.value).Some?
    ensures var (w', ok) := SendOne(env, reach, w, s, route);
            ok && Built(w.journal, w'.journal, s, Envelopes(reach, route), true)
  {
    hide Deposit, FirstTaker;
    DepositBuilds(env.ops, w, s, route.relays);
  }

  /**
   A send to a fingerprint nobody is filed under goes to a live session that has it, if there is
   one; every other send goes where it is addressed.
   */
  lemma RebindIs(ops: Primitives, ss: SessionMap, order: seq<string>, s: PendingSend)
    requires Enumerates(order, ss)
    ensures var r := Rebind(ops, ss, order, s);
            && r.body == s.body
            && (r.peer != s.peer <==>
                && |s.peer| == 11 && s.peer[5] == '-' && s.peer !in ss
                && exists n :: Live(ss, n) && ops.fingerprint(ss[n].peerPub) == s.peer)
            && (r.peer != s.peer ==> Live(ss, r.peer) && ops.fingerprint(ss[r.peer].peerPub) == s.peer)
  {
    if LooksLikeFingerprint(s.peer) && s.peer !in ss {
      ByFingerprintIs(ops, ss, order, s.peer);
    }
  }

  lemma {:induction false} ByFingerprintIs(ops: Primitives, ss: SessionMap, order: seq<string>, fp: string)
    ensures var r := FirstByFingerprint(ops, ss, order, fp);
            && (r.Some? ==> Live(ss, r.value) && ops.fingerprint(ss[r.value].peerPub) == fp)
            && (r.None? ==> forall n | n in order :: !(Live(ss, n) && ops.fingerprint(ss[n].peerPub) == fp))
  {
    if order != [] {
      ByFingerprintIs(ops, ss, order[1..], fp);
      assert forall n | n in order :: n == order[0] || n in order[1..];
    }
  }

  /** The sends that envelopes carried, in order. */
  function Carried(j: Journal): seq<PendingSend> {
    if j == [] then []
    else
      var e := j[|j| - 1];
      Carried(j[..|j| - 1]) + if e.Wire? && e.send.Some? then [e.send.value] else []
  }

  lemma CarriedAppend(j: Journal, e: Entry)
    ensures Carried(j + [e]) == Carried(j) + if e.Wire? && e.send.Some? then [e.send.value] else []
  {
    assert (j + [e])[..|j|] == j;
  }

  lemma EmitCarries(w: Worker, name: string, to: Pub, rat: Ratchet, send: Option<PendingSend>)
    requires name in w.sessions
    ensures Carried(Emit(w, name, to, rat, send).journal) ==
            Carried(w.journal) + if send.Some? then [send.value] else []
  {
    var s := w.sessions[name];
    CarriedAppend(w.journal, Wire(name, to, s.sealOutbound, s.pqCt, send));
  }

  lemma {:induction false} DepositCarries(ops: Primitives, w: Worker, s: PendingSend, relays: seq<bool>)
    requires Live(w.sessions, s.peer)
    ensures var (w', done) := Deposit(ops, w, s, relays);
            Carried(w'.journal) == Carried(w.journal) + if done then [s] else []
    decreases |relays|
  {
    hide Carried;
    if relays != [] {
      var to, rat := w.sessions[s.peer].peerPub, ops.encrypt(w.sessions[s.peer].rat.value);
      if rat.None? {
        DepositCarries(ops, w, s, relays[1..]);
      } else if relays[0] {
        EmitCarries(w, s.peer, to, rat.value, Some(s));
      } else {
        EmitCarries(w, s.peer, to, rat.value, None);
        DepositCarries(ops, Emit(w, s.peer, to, rat.value, None), s, relays[1..]);
      }
    }
  }

  lemma SendOneCarries(env: Env, reach: Reach, w: Worker, s: PendingSend, route: Route)
    requires Live(w.sessions, s.peer)
    ensures var (w', ok) := SendOne(env, reach, w, s, route);
            Carried(w'.journal) == Carried(w.journal) + if ok then [s] else []
  {
    hide Carried, Emit, Deposit;
    var rat := env.ops.encrypt(w.sessions[s.peer].rat.value);
    if rat.Some? {
      EmitCarries(w, s.peer, w.sessions[s.peer].peerPub, rat.value, Some(s));
    }
    DepositCarries(env.ops, w, s, route.relays);
    var (w1, done) := Serverless(env, reach, w, s, route);
    var rat1 := env.ops.encrypt(w1.sessions[s.peer].rat.value);
    if !done && rat1.Some? {
      EmitCarries(w1, s.peer, w1.sessions[s.peer].peerPub, rat1.value, Some(s));
    }
  }

  function Rebound(ops: Primitives, ss: SessionMap, order: seq<string>, items: seq<PendingSend>): seq<PendingSend> {
    seq(|items|, i requires 0 <= i < |items| => Rebind(ops, ss, order, items[i]))
  }

  lemma NoSessionCarries(reach: Reach, w: Worker, s: PendingSend, order: seq<string>, now: nat)
    ensures Carried(NoSession(reach, w, s, order, now).journal) == Carried(w.journal)
  {
    hide FirstLive;
    CarriedAppend(w.journal, Fetch(s.peer));
  }

  /** A pass carries, in the order of the queue, exactly the sends it got through, each to its own session. */
  lemma {:induction false} PassCarries(
    env: Env, reach: Reach, w: Worker, ss: SessionMap, items: seq<PendingSend>, routes: seq<Route>,
      order: seq<string>, now: nat)
    requires SameShape(ss, w.sessions) && |routes| == |items|
    ensures var r := SendPass(env, reach, w, items, routes, order, now);
            Carried(r.worker.journal) == Carried(w.journal) + Rebound(env.ops, ss, order, items[..r.sent])
    decreases |items|
  {
    hide Rebind, NoSession, SameShape, SendOne, Carried;
    var r := SendPass(env, reach, w, items, routes, order, now);
    assert items[..0] == [] && Rebound(env.ops, ss, order, []) == [];
    if items != [] {
      SameRebind(env.ops, ss, w.sessions, order, items[0]);
      var s := Rebind(env.ops, w.sessions, order, items[0]);
      if !Live(w.sessions, s.peer) {
        NoSessionCarries(reach, w, s, order, now);
      } else {
        SendOneCarries(env, reach, w, s, routes[0]);
        SendOneShape(env, reach, w, s, routes[0]);
        var (w1, ok) := SendOne(env, reach, w, s, routes[0]);
        SameShapeTrans(ss, w.sessions, w1.sessions);
        if ok {
          PassCarries(env, reach, w1, ss, items[1..], routes[1..], order, now);
          var rest := items[1..][..r.sent - 1];
          assert Rebound(env.ops, ss, order, items[..r.sent]) == [s] + Rebound(env.ops, ss, order, rest);
        }
      }
    }
  }

  // ----- A send without a session ------------------------------------------

  /**
   What becomes of it: the name resolves to a peer that is live under another name and the send is
   readdressed, or the peer is not live and the send waits for its prekeys, or the server is asked.
   */
  lemma NoSessionIs(reach: Reach, w: Worker, s: PendingSend, order: seq<string>, now: nat)
    requires Enumerates(order, w.sessions)
    ensures var w' := NoSession(reach, w, s, order, now);
            var pub := reach.resolve(s.peer);
            if pub.Some? && HasLive(w.sessions, pub.value) then
              && w'.queue != [] && w'.queue[1..] == w.queue && w'.queue[0].body == s.body
              && LiveFor(w.sessions, w'.queue[0].peer, pub.value)
              && w'.parking == w.parking && w'.journal == w.journal
            else if pub.Some? && reach.overlay then
              w'.parking == w.parking + [Parked(s, pub.value, now)] && w'.queue == w.queue && w'.journal == w.journal
            else
              w'.queue == [s] + w.queue && w'.parking == w.parking && w'.journal == w.journal + [Fetch(s.peer)]
  {
    var pub := reach.resolve(s.peer);
    if pub.Some? && HasLive(w.sessions, pub.value) {
      var n :| LiveFor(w.sessions, n, pub.value);
      assert n in order;
    }
  }

  /** Readdressed by one pass, it goes out to that peer in the next. */
  lemma ReaddressedGoesOut(
    env: Env, reach: Reach, reach': Reach, w: Worker, s: PendingSend, pub: Pub, order: seq<string>, route: Route,
      route': Route, now: nat, now': nat) returns (w1: Worker, w2: Worker)
    requires w.queue == [s] && Enumerates(order, w.sessions) && !Live(w.sessions, s.peer) && s.peer in w.sessions
    requires reach.resolve(s.peer) == Some(pub) && HasLive(w.sessions, pub)
    requires SendChainStays(env.ops)
    requires forall n | LiveFor(w.sessions, n, pub) :: env.ops.encrypt(w.sessions[n].rat.value).Some?
    ensures Possible(w, OnSendPass(reach, order, [route], now))
    ensures w1 == Step(env, w, OnSendPass(reach, order, [route], now))
    ensures Possible(w1, OnSendPass(reach', order, [route'], now'))
    ensures w2 == Step(env, w1, OnSendPass(reach', order, [route'], now'))
    ensures w2.queue == [] && |w2.journal| > |w.journal|
    ensures var last := w2.journal[|w2.journal| - 1];
            last.Wire? && last.to == pub && last.send.Some? && last.send.value.body == s.body
  {
    hide FirstLive, SendOne, SendChainStays, NoSession;
    var v := w.(queue := []);
    assert Rebind(env.ops, v.sessions, order, s) == s;
    w1 := Step(env, w, OnSendPass(reach, order, [route], now));
    assert w1 == NoSession(reach, v, s, order, now);
    NoSessionIs(reach, v, s, order, now);
    NoSessionSessions(reach, v, s, order, now);
    var t := w1.queue[0];
    assert w1.queue == [t];
    var v1 := w1.(queue := []);
    assert Rebind(env.ops, v1.sessions, order, t) == t;
    SendOneBuilds(env, reach', v1, t, route');
    SendOneSent(env, reach', v1, t, route');
    SendOneWires(env, reach', v1, t, route');
    var (v2, ok) := SendOne(env, reach', v1, t, route');
    assert [t][1..] == [] && [route'][1..] == [];
    assert SendPass(env, reach', v1, [t], [route'], order, now').worker == v2;
    w2 := v2;
    assert SentFrom(v1.sessions, v2.journal[|v2.journal| - 1]);
  }

  lemma NoSessionSessions(reach: Reach, w: Worker, s: PendingSend, order: seq<string>, now: nat)
    requires s.peer in w.sessions
    ensures NoSession(reach, w, s, order, now).sessions == w.sessions
  {
    hide FirstLive;
  }

  // ----- Channel operations and media signals ------------------------------

  /** The direct messages that the group invites among the operations become. */
  function GroupSends(items: seq<ChannelOp>, kinds: seq<InviteKind>): seq<PendingSend>
    requires |kinds| == |items|
  {
    if items == [] then []
    else
      (if items[0].peer.Some? && kinds[0] == ByGroup then [PendingSend(items[0].peer.value, items[0].body)] else [])
        + GroupSends(items[1..], kinds[1..])
  }

  /** The peers of the invites by sender key among them. */
  function KeyInvites(items: seq<ChannelOp>, kinds: seq<InviteKind>): seq<string>
    requires |kinds| == |items|
  {
    if items == [] then []
    else
      (if items[0].peer.Some? && kinds[0] == BySenderKey then [items[0].peer.value] else [])
        + KeyInvites(items[1..], kinds[1..])
  }

  /** The sessions that envelopes came from, in order. */
  function WireNames(j: Journal): seq<string> {
    if j == [] then [] else WireNames(j[..|j| - 1]) + if j[|j| - 1].Wire? then [j[|j| - 1].name] else []
  }

  /** The sends were queued, and an envelope went out from each of the sessions named. */
  ghost predicate Outgoing(w: Worker, w': Worker, sends: seq<PendingSend>, names: seq<string>) {
    w'.queue == w.queue + sends && WireNames(w'.journal) == WireNames(w.journal) + names
  }

  lemma OutgoingAgain(
    w: Worker, w1: Worker, w2: Worker, sends: seq<PendingSend>, names: seq<string>, sends': seq<PendingSend>,
      names': seq<string>)
    requires Outgoing(w, w1, sends, names) && Outgoing(w1, w2, sends', names')
    ensures Outgoing(w, w2, sends + sends', names + names')
  {
    hide WireNames;
  }

  lemma WireNamesAppend(j: Journal, e: Entry)
    ensures WireNames(j + [e]) == WireNames(j) + if e.Wire? then [e.name] else []
  {
    assert (j + [e])[..|j|] == j;
  }

  lemma ChannelOneDoes(ops: Primitives, w: Worker, op: ChannelOp, kind: InviteKind)
    ensures var (w', end) := ChannelOne(ops, w, op, kind);
            && (end == AllSent ==> Outgoing(w, w', GroupSends([op], [kind]), KeyInvites([op], [kind])))
            && (end != AllSent ==> Outgoing(w, w', [], []))
            && w'.channelOps == (if end == Stopped then [op] else []) + w.channelOps
  {
    hide WireNames;
    var (w', end) := ChannelOne(ops, w, op, kind);
    assert GroupSends([op][1..], [kind][1..]) == [] && KeyInvites([op][1..], [kind][1..]) == [];
    if op.peer.Some? && kind == BySenderKey {
      if Live(w.sessions, op.peer.value) {
        var s := w.sessions[op.peer.value];
        WireNamesAppend(w.journal, Wire(op.peer.value, s.peerPub, s.sealOutbound, s.pqCt, None));
      } else {
        WireNamesAppend(w.journal, Fetch(op.peer.value));
      }
    }
  }

  /**
   A channel pass that gets through `sent` operations has queued a direct message for each of their
   group invites and put one envelope on the wire for each of their invites by sender key, in order.
   */
  lemma {:induction false} ChannelPassDoes(ops: Primitives, w: Worker, items: seq<ChannelOp>, kinds: seq<InviteKind>)
    requires |kinds| == |items|
    ensures var r := ChannelPass(ops, w, items, kinds);
            && Outgoing(w, r.worker, GroupSends(items[..r.sent], kinds[..r.sent]),
                 KeyInvites(items[..r.sent], kinds[..r.sent]))
            && r.worker.channelOps == (if r.end == Stopped && r.sent < |items| then [items[r.sent]]
                else []) + w.channelOps
    decreases |items|
  {
    hide ChannelOne, Outgoing;
    var r := ChannelPass(ops, w, items, kinds);
    if items != [] {
      hide GroupSends, KeyInvites;
      ChannelOneDoes(ops, w, items[0], kinds[0]);
      var (w1, end) := ChannelOne(ops, w, items[0], kinds[0]);
      if end == AllSent {
        ChannelPassDoes(ops, w1, items[1..], kinds[1..]);
        InvitesSplit(items, kinds, r.sent);
        var k := r.sent - 1;
        var sends, names := GroupSends(items[1..][..k], kinds[1..][..k]), KeyInvites(items[1..][..k], kinds[1..][..k]);
        OutgoingAgain(w, w1, r.worker, GroupSends([items[0]], [kinds[0]]), KeyInvites([items[0]], [kinds[0]]), sends,
          names);
      } else {
        NoInvites();
      }
    } else {
      NoInvites();
      NothingOutgoing(w);
    }
  }

  lemma NothingOutgoing(w: Worker)
    ensures Outgoing(w, w, [], [])
  {
  }

  lemma NoInvites()
    ensures GroupSends([], []) == [] && KeyInvites([], []) == []
  {
  }

  lemma InvitesSplit(items: seq<ChannelOp>, kinds: seq<InviteKind>, k: nat)
    requires |kinds| == |items| && 0 < k <= |items|
    ensures GroupSends(items[..k], kinds[..k]) ==
            GroupSends([items[0]], [kinds[0]]) + GroupSends(items[1..][..k - 1], kinds[1..][..k - 1])
    ensures KeyInvites(items[..k], kinds[..k]) ==
            KeyInvites([items[0]], [kinds[0]]) + KeyInvites(items[1..][..k - 1], kinds[1..][..k - 1])
  {
    assert items[..k][1..] == items[1..][..k - 1] && kinds[..k][1..] == kinds[1..][..k - 1];
    assert GroupSends([items[0]][1..], [kinds[0]][1..]) == [] && KeyInvites([items[0]][1..], [kinds[0]][1..]) == [];
  }

  /** Entry `i` is the first with the peer's key, keyed or not. */
  ghost predicate IsFirst(ss: SessionMap, order: seq<string>, pub: Pub, i: nat) {
    && i < |order| && order[i] in ss && ss[order[i]].peerPub == pub
    && forall k | 0 <= k < i :: !(order[k] in ss && ss[order[k]].peerPub == pub)
  }

  lemma {:induction false} FirstLabelledIs(ss: SessionMap, order: seq<string>, pub: Pub)
    ensures var r := FirstLabelled(ss, order, pub);
            && (r.Some? ==> exists i: nat :: IsFirst(ss, order, pub, i) && order[i] == r.value)
            && (r.None? ==> forall i: nat :: !IsFirst(ss, order, pub, i))
  {
    if order != [] {
      FirstLabelledIs(ss, order[1..], pub);
      var r := FirstLabelled(ss, order, pub);
      if order[0] in ss && ss[order[0]].peerPub == pub {
        assert IsFirst(ss, order, pub, 0);
      } else if r.Some? {
        var i: nat :| IsFirst(ss, order[1..], pub, i) && order[1..][i] == r.value;
        assert IsFirst(ss, order, pub, i + 1) && order[i + 1] == r.value;
      } else {
        forall i: nat
          ensures !IsFirst(ss, order, pub, i)
        {
          if i > 0 {
            assert !IsFirst(ss, order[1..], pub, i - 1);
            assert forall k | 0 < k < i && i < |order| :: order[k] == order[1..][k - 1];
          }
        }
      }
    }
  }

  /**
   A media signal goes out exactly when the peer has a session with a send chain that no dead entry
   with the same key precedes; otherwise nothing happens.
   */
  lemma MediaSentIff(ops: Primitives, w: Worker, pub: Pub, order: seq<string>)
    ensures var w' := MediaSignal(ops, w, pub, order);
            && (w' != w <==>
                exists i: nat ::
                  && IsFirst(w.sessions, order, pub, i) && Live(w.sessions, order[i])
                  && ops.encrypt(w.sessions[order[i]].rat.value).Some?)
            && (w' != w ==> |w'.journal| == |w.journal| + 1 && w'.journal[|w.journal|].Wire?)
  {
    FirstLabelledIs(w.sessions, order, pub);
    var hit := FirstLabelled(w.sessions, order, pub);
    forall i: nat, k: nat | IsFirst(w.sessions, order, pub, i) && IsFirst(w.sessions, order, pub, k)
      ensures i == k
    {
    }
    if hit.Some? && Live(w.sessions, hit.value) {
      var rat := ops.encrypt(w.sessions[hit.value].rat.value);
      if rat.Some? {
        assert |Emit(w, hit.value, pub, rat.value, None).journal| == |w.journal| + 1;
      }
    }
  }
}
