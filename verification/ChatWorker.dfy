/**
 The desktop worker as a state machine: the three ways a session is keyed, the queues of
 pending sends, the key-fetch FIFO and the sticky post-quantum pin. Every handler is one
 atomic step; the journal records what it did that a peer or the relay could observe.
 */
module ChatWorker {
  import opened Common
  import opened Sessions
  import Digits

  datatype PendingSend = PendingSend(peer: string, body: Bytes)

  datatype Parked = Parked(send: PendingSend, peerPub: Pub, parkedAt: nat)

  /** A queued channel operation; an invite names the peer it goes to. */
  datatype ChannelOp = ChannelOp(peer: Option<string>, body: Bytes)

  datatype Entry =
    | Keyed(name: string, pub: Pub, alice: bool, hasPq: bool, pqCt: Bytes)
    | SealProof(name: string)
    | Ack(name: string)
    | Admit(pub: Pub, hasPq: bool)
    | Wire(name: string, to: Pub, sealed: bool, pqCt: Bytes, send: Option<PendingSend>)
    | Fetch(username: string)
    | Query(peer: Pub)
    | Response(target: string)

  type Journal = seq<Entry>

  datatype Worker = Worker(
    sessions: SessionMap,
    queue: seq<PendingSend>,
    channelOps: seq<ChannelOp>,
    parking: seq<Parked>,
    pendingFetch: seq<string>,
    meshDials: set<Pub>,
    meshBootstrap: map<string, Pub>,
    pins: set<Pub>,
    journal: Journal)

  /** What is fixed for a run: the primitives, and the pins stored by earlier sessions. */
  datatype Env = Env(ops: Primitives, stored: set<Pub>)

  /** What the serverless overlay can do at a given time: whether it is up, and what its username log resolves. */
  datatype Reach = Reach(overlay: bool, resolve: string -> Option<Pub>)

  function Start(env: Env): Worker {
    Worker(map[], [], [], [], [], {}, map[], env.stored, [])
  }

  function Log(w: Worker, e: Entry): Worker {
    w.(journal := w.journal + [e])
  }

  function Put(w: Worker, name: string, s: Session): Worker {
    w.(sessions := w.sessions[name := s])
  }

  // ----- Keying ------------------------------------------------------------

  /** An alice-side key agreement: the new ratchet and the KEM ciphertext, or none when it throws. */
  type Keying = Option<(Ratchet, Bytes)>

  /** A peer pinned as post-quantum capable must keep advertising it. */
  predicate Downgrade(w: Worker, pub: Pub, hasPq: bool) {
    pub in w.pins && !hasPq
  }

  function Admitted(w: Worker, pub: Pub, hasPq: bool): Worker {
    Log(if hasPq then w.(pins := w.pins + {pub}) else w, Admit(pub, hasPq))
  }

  /** A freshly keyed alice session starts unacknowledged and unsealed. */
  function KeyAlice(w: Worker, name: string, pub: Pub, hasPq: bool, keying: (Ratchet, Bytes)): Worker {
    Log(Put(w, name, Session(pub, Some(keying.0), keying.1, false, false)), Keyed(name, pub, true, hasPq, keying.1))
  }

  // ----- Inbound envelopes -------------------------------------------------

  /** Outcome of keying the receiving side: the sender key may not convert, or the derivation may throw. */
  datatype BobKeying = BadPoint | Throws | Ready(ratchet: Ratchet)

  function PeerTag(pub: Pub): string {
    "peer:" + seq(8, i requires 0 <= i < 8 => pub[i] as char)
  }

  function AadFor(id: Bytes, timestamp: nat): Bytes {
    id + Digits.BeBytes(timestamp, 8)
  }

  function AckSession(w: Worker, name: string): Worker {
    var s := Lookup(w.sessions, name);
    Log(Put(w, name, s.(pqAcked := true, pqCt := if s.pqAcked then s.pqCt else [], sealOutbound := true)), Ack(name))
  }

  /** From the check of the associated data on: decrypt under the session, unless that was done, and latch the flags. */
  function Decrypted(ops: Primitives, w: Worker, e: Envelope, name: string, consumed: bool): Worker
    requires Live(w.sessions, name)
  {
    if e.aad != [] && e.aad != AadFor(e.id, e.timestamp) then w
    else if consumed then AckSession(w, name)
    else
      var s := w.sessions[name];
      var (rat, plaintext) := ops.decrypt(s.rat.value, e.ciphertext, e.aad);
      var w1 := Put(w, name, s.(rat := Some(rat)));
      if plaintext.None? then w1 else AckSession(w1, name)
  }

  /** From the first decision on the sender on: find or key the session, then decrypt. */
  function Deliver(
    ops: Primitives, w: Worker, e: Envelope, sender: Pub, consumed: bool, order: seq<string>, bob: BobKeying): Worker {
    var found := FirstLive(w.sessions, order, sender);
    var name := if found.Some? then found.value else PeerTag(sender);
    var s := Lookup(w.sessions, name);
    if s.rat.Some? then Decrypted(ops, w, e, name, consumed)
    else if !bob.Ready? then Put(w, name, s)
    else Decrypted(ops, KeyBob(w, name, sender, e, bob.ratchet), e, name, consumed)
  }

  /** The first envelope of a peer keys the receiving side. */
  function KeyBob(w: Worker, name: string, sender: Pub, e: Envelope, rat: Ratchet): (w': Worker)
    ensures LiveFor(w'.sessions, name, sender)
  {
    var s := Lookup(w.sessions, name).(rat := Some(rat), peerPub := sender);
    Log(Put(w, name, s), Keyed(name, sender, false, e.pqCt != [], []))
  }

  ghost function Inbound(ops: Primitives, w: Worker, e: Envelope, order: seq<string>, bob: BobKeying): Worker
    requires Enumerates(order, w.sessions)
  {
    if e.senderPubkey == [] then
      if e.recipient != ToUser then w
      else
        var (ss, hit) := TwoPass(ops, w.sessions, order, e);
        if hit.None? then w.(sessions := ss)
        else Deliver(ops, Log(w.(sessions := ss), SealProof(hit.value)), e, ss[hit.value].peerPub, true, order, bob)
    else if |e.senderPubkey| != 32 || e.recipient == ToChannel then w
    else Deliver(ops, w, e, e.senderPubkey, false, order, bob)
  }

  // ----- First-contact parking ---------------------------------------------

  /** What the local DHT store holds for a parked peer. */
  datatype DhtAnswer = Missing | Found(hasPq: bool, keying: Keying)

  const PARK_TIMEOUT_MS := 2000

  function Elapsed(now: nat, since: nat): nat {
    (now - since) % 0x1_0000_0000_0000_0000
  }

  predicate Released(p: Parked, now: nat, answer: DhtAnswer) {
    answer.Found? || Elapsed(now, p.parkedAt) >= PARK_TIMEOUT_MS
  }

  function Requeue(w: Worker, s: PendingSend): Worker {
    w.(queue := [s] + w.queue)
  }

  ghost function DrainItem(env: Env, w: Worker, p: Parked, now: nat, answer: DhtAnswer): Worker {
    if !Released(p, now, answer) then w.(parking := w.parking + [p])
    else if answer.Missing? || Downgrade(w, p.peerPub, answer.hasPq) then Requeue(w, p.send)
    else
      var w1 := Admitted(w, p.peerPub, answer.hasPq);
      if HasLive(w1.sessions, p.peerPub) || answer.keying.None? then Requeue(w1, p.send)
      else Requeue(KeyAlice(w1, p.send.peer, p.peerPub, answer.hasPq, answer.keying.value), p.send)
  }

  ghost function Drain(env: Env, w: Worker, items: seq<Parked>, now: nat, answers: seq<DhtAnswer>): Worker
    requires |answers| == |items|
  {
    if items == [] then w
    else DrainItem(env, Drain(env, w, items[..|items| - 1], now, answers[..|items| - 1]), items[|items| - 1], now,
      answers[|items| - 1])
  }

  // ----- The send pass -----------------------------------------------------

  /** Build one DM envelope from a live session; the ratchet moves on. */
  function Emit(w: Worker, name: string, to: Pub, rat: Ratchet, send: Option<PendingSend>): Worker
    requires name in w.sessions
  {
    var s := w.sessions[name];
    Log(Put(w, name, s.(rat := Some(rat))), Wire(name, to, s.sealOutbound, s.pqCt, send))
  }

  predicate LooksLikeFingerprint(peer: string) {
    |peer| == 11 && peer[5] == '-'
  }

  function FirstByFingerprint(ops: Primitives, ss: SessionMap, order: seq<string>, fp: string): (r: Option<string>)
    ensures r.Some? ==> Live(ss, r.value)
  {
    if order == [] then None
    else if Live(ss, order[0]) && ops.fingerprint(ss[order[0]].peerPub) == fp then Some(order[0])
    else FirstByFingerprint(ops, ss, order[1..], fp)
  }

  /** A reply addressed to a fingerprint goes to the session that has it. */
  function Rebind(ops: Primitives, ss: SessionMap, order: seq<string>, s: PendingSend): PendingSend {
    if LooksLikeFingerprint(s.peer) && s.peer !in ss then
      var hit := FirstByFingerprint(ops, ss, order, s.peer);
      if hit.Some? then s.(peer := hit.value) else s
    else s
  }

  function SendFetch(w: Worker, username: string): Worker {
    Log(w.(pendingFetch := w.pendingFetch + [username]), Fetch(username))
  }

  /** The first send without a session: rebind, park or fetch its keys; the pass ends here. */
  function NoSession(reach: Reach, w: Worker, s: PendingSend, order: seq<string>, now: nat): Worker {
    var w1 := Put(w, s.peer, Lookup(w.sessions, s.peer));
    var pub := reach.resolve(s.peer);
    if pub.Some? && FirstLive(w.sessions, order, pub.value).Some? then
      Requeue(w1, s.(peer := FirstLive(w.sessions, order, pub.value).value))
    else if pub.Some? && reach.overlay then
      w1.(parking := w1.parking + [Parked(s, pub.value, now)])
    else
      Requeue(SendFetch(w1, s.peer), s)
  }

  /**
   What the overlay knows of a peer when a send is tried: whether it has a direct address, and
   for each of its relays that can be reached whether it takes the deposit.
   */
  datatype Route = Route(direct: bool, relays: seq<bool>)

  /** Deposit with the first relay that takes it; each try is a new envelope. */
  function Deposit(ops: Primitives, w: Worker, s: PendingSend, relays: seq<bool>): (r: (Worker, bool))
    requires Live(w.sessions, s.peer)
    ensures Live(r.0.sessions, s.peer)
    decreases |relays|
  {
    if relays == [] then (w, false)
    else
      var to, rat := w.sessions[s.peer].peerPub, ops.encrypt(w.sessions[s.peer].rat.value);
      if rat.None? then Deposit(ops, w, s, relays[1..])
      else if relays[0] then (Emit(w, s.peer, to, rat.value, Some(s)), true)
      else Deposit(ops, Emit(w, s.peer, to, rat.value, None), s, relays[1..])
  }

  /**
   The ways around the server: straight to the peer, else to a relay; an envelope that cannot be
   built is passed over.
   */
  function Serverless(env: Env, reach: Reach, w: Worker, s: PendingSend, route: Route): (r: (Worker, bool))
    requires Live(w.sessions, s.peer)
    ensures Live(r.0.sessions, s.peer)
  {
    var to, rat := w.sessions[s.peer].peerPub, env.ops.encrypt(w.sessions[s.peer].rat.value);
    if !reach.overlay then (w, false)
    else if route.direct && rat.Some? then (Emit(w, s.peer, to, rat.value, Some(s)), true)
    else Deposit(env.ops, w, s, route.relays)
  }

  /** One send with a session: around the server, else through it; false when the ratchet throws. */
  function SendOne(env: Env, reach: Reach, w: Worker, s: PendingSend, route: Route): (Worker, bool)
    requires Live(w.sessions, s.peer)
  {
    var (w1, done) := Serverless(env, reach, w, s, route);
    if done then (w1, true)
    else
      var rat := env.ops.encrypt(w1.sessions[s.peer].rat.value);
      if rat.None? then (w1, false)
      else (Emit(w1, s.peer, w1.sessions[s.peer].peerPub, rat.value, Some(s)), true)
  }

  datatype PassEnd = AllSent | Stopped | Crashed

  /** How far the pass over `items` gets, how it ends, and the worker it leaves. */
  datatype Pass = Pass(worker: Worker, sent: nat, end: PassEnd)

  function SendPass(
    env: Env, reach: Reach, w: Worker, items: seq<PendingSend>, routes: seq<Route>, order: seq<string>, now: nat)
    : (r: Pass)
    requires |routes| == |items|
    ensures r.sent <= |items|
    decreases |items|
  {
    if items == [] then Pass(w, 0, AllSent)
    else
      var s := Rebind(env.ops, w.sessions, order, items[0]);
      if !Live(w.sessions, s.peer) then Pass(NoSession(reach, w, s, order, now), 0, Stopped)
      else
        var (w1, ok) := SendOne(env, reach, w, s, routes[0]);
        if !ok then Pass(w1, 0, Crashed)
        else
          var r := SendPass(env, reach, w1, items[1..], routes[1..], order, now);
          r.(sent := r.sent + 1)
  }

  // ----- Key-fetch and username replies ------------------------------------

  datatype Reply = NotFound | Bundle(pub: Pub, hasPq: bool, keying: Keying)

  function Without(queue: seq<PendingSend>, peer: string): seq<PendingSend> {
    if queue == [] then []
    else Without(queue[..|queue| - 1], peer) + if queue[|queue| - 1].peer == peer then [] else [queue[|queue| - 1]]
  }

  function WithoutInvites(ops: seq<ChannelOp>, peer: string): seq<ChannelOp> {
    if ops == [] then []
    else
      var last := ops[|ops| - 1];
      WithoutInvites(ops[..|ops| - 1], peer) + if last.peer == Some(peer) then [] else [last]
  }

  function MeshSettled(w: Worker, target: string): Worker {
    if target !in w.meshBootstrap then w
    else w.(meshDials := w.meshDials - {w.meshBootstrap[target]}, meshBootstrap := w.meshBootstrap - {target})
  }

  ghost function KeyReply(w: Worker, reply: Reply): Worker {
    if w.pendingFetch == [] then w
    else
      var target := w.pendingFetch[0];
      var w1 := Log(w.(pendingFetch := w.pendingFetch[1..]), Response(target));
      if target == "" then w1
      else match reply
        case NotFound =>
          MeshSettled(w1.(queue := Without(w1.queue, target), channelOps := WithoutInvites(w1.channelOps, target)),
            target)
        case Bundle(pub, hasPq, keying) => BundleReply(w1, target, pub, hasPq, keying)
  }

  /** The label is written before the key agreement that may throw. */
  ghost function BundleReply(w: Worker, target: string, pub: Pub, hasPq: bool, keying: Keying): Worker {
    if Downgrade(w, pub, hasPq) then w
    else
      var w1 := Admitted(w, pub, hasPq);
      if HasLive(w1.sessions, pub) then MeshSettled(w1, target)
      else if keying.None? then Put(w1, target, Lookup(w1.sessions, target).(peerPub := pub))
      else MeshSettled(KeyAlice(w1, target, pub, hasPq, keying.value), target)
  }

  function UsernameReply(w: Worker, pub: Pub, username: string, found: bool): Worker {
    if found && username != "" then
      if pub in w.meshDials then SendFetch(w, username).(meshBootstrap := w.meshBootstrap[username := pub]) else w
    else w.(meshDials := w.meshDials - {pub})
  }

  ghost function MeshRequest(w: Worker, pub: Pub): Worker {
    if HasLive(w.sessions, pub) || pub in w.meshDials then w
    else Log(w.(meshDials := w.meshDials + {pub}), Query(pub))
  }

  // ----- Other senders -----------------------------------------------------

  /** How an invite is made: by the group protocol, with the channel's sender key, or not for want of one. */
  datatype InviteKind = ByGroup | BySenderKey | NoSenderKey

  /**
   The channel operations, from the front of the queue: an invite by sender key to a peer without
   a session asks for its keys, is put back, and ends the pass.
   */
  function ChannelPass(ops: Primitives, w: Worker, items: seq<ChannelOp>, kinds: seq<InviteKind>): (r: Pass)
    requires |kinds| == |items|
    ensures r.sent <= |items|
    decreases |items|
  {
    if items == [] then Pass(w, 0, AllSent)
    else
      var (w1, end) := ChannelOne(ops, w, items[0], kinds[0]);
      if end != AllSent then Pass(w1, 0, end)
      else
        var r := ChannelPass(ops, w1, items[1..], kinds[1..]);
        r.(sent := r.sent + 1)
  }

  function ChannelOne(ops: Primitives, w: Worker, op: ChannelOp, kind: InviteKind): (Worker, PassEnd) {
    if op.peer.None? || kind == NoSenderKey then (w, AllSent)
    else if kind == ByGroup then (w.(queue := w.queue + [PendingSend(op.peer.value, op.body)]), AllSent)
    else if !Live(w.sessions, op.peer.value) then (AskForInvite(w, op, op.peer.value), Stopped)
    else
      var s := w.sessions[op.peer.value];
      var rat := ops.encrypt(s.rat.value);
      if rat.None? then (w, Crashed) else (Emit(w, op.peer.value, s.peerPub, rat.value, None), AllSent)
  }

  function AskForInvite(w: Worker, op: ChannelOp, peer: string): Worker {
    SendFetch(Put(w, peer, Lookup(w.sessions, peer)), peer).(channelOps := [op] + w.channelOps)
  }

  /** The media path takes the first entry labelled with the key, keyed or not. */
  function FirstLabelled(ss: SessionMap, order: seq<string>, pub: Pub): (r: Option<string>)
    ensures r.Some? ==> r.value in ss && ss[r.value].peerPub == pub
  {
    if order == [] then None
    else if order[0] in ss && ss[order[0]].peerPub == pub then Some(order[0])
    else FirstLabelled(ss, order[1..], pub)
  }

  function MediaSignal(ops: Primitives, w: Worker, pub: Pub, order: seq<string>): Worker {
    var hit := FirstLabelled(w.sessions, order, pub);
    if hit.None? || w.sessions[hit.value].rat.None? then w
    else
      var rat := ops.encrypt(w.sessions[hit.value].rat.value);
      if rat.None? then w else Emit(w, hit.value, pub, rat.value, None)
  }

  // ----- Runs --------------------------------------------------------------

  datatype Event =
    | OnEnvelope(envelope: Envelope, order: seq<string>, bob: BobKeying)
    | OnDrain(now: nat, answers: seq<DhtAnswer>)
    | OnSendPass(reach: Reach, order: seq<string>, routes: seq<Route>, now: nat)
    | OnKeyReply(reply: Reply)
    | OnUsernameReply(pub: Pub, username: string, found: bool)
    | OnMeshRequest(pub: Pub)
    | OnChannelOps(kinds: seq<InviteKind>)
    | OnChannelOp(op: ChannelOp)
    | OnMedia(pub: Pub, order: seq<string>)
    | OnEnqueue(send: PendingSend)

  /** A key agreement yields a KEM ciphertext exactly when the bundle carries a KEM key. */
  predicate Honest(hasPq: bool, keying: Keying) {
    keying.Some? ==> (keying.value.1 != [] <==> hasPq)
  }

  ghost predicate Possible(w: Worker, e: Event) {
    match e
    case OnEnvelope(_, order, _) => Enumerates(order, w.sessions)
    case OnSendPass(_, order, routes, _) => Enumerates(order, w.sessions) && |routes| == |w.queue|
    case OnMedia(_, order) => Enumerates(order, w.sessions)
    case OnDrain(_, answers) => 
      && |answers| == |w.parking|
      && forall i | 0 <= i < |answers| && answers[i].Found? :: Honest(answers[i].hasPq, answers[i].keying)
    case OnChannelOps(kinds) => |kinds| == |w.channelOps|
    case OnKeyReply(reply) => reply.Bundle? ==> Honest(reply.hasPq, reply.keying)
    case _ => true
  }

  ghost function Step(env: Env, w: Worker, e: Event): Worker
    requires Possible(w, e)
  {
    match e
    case OnEnvelope(envelope, order, bob) => Inbound(env.ops, w, envelope, order, bob)
    case OnDrain(now, answers) => Drain(env, w.(parking := []), w.parking, now, answers)
    case OnSendPass(reach, order, routes, now) =>
      SendPass(env, reach, w.(queue := []), w.queue, routes, order, now).worker
    case OnKeyReply(reply) => KeyReply(w, reply)
    case OnUsernameReply(pub, username, found) => UsernameReply(w, pub, username, found)
    case OnMeshRequest(pub) => MeshRequest(w, pub)
    case OnChannelOps(kinds) => ChannelPass(env.ops, w.(channelOps := []), w.channelOps, kinds).worker
    case OnChannelOp(op) => w.(channelOps := w.channelOps + [op])
    case OnMedia(pub, order) => MediaSignal(env.ops, w, pub, order)
    case OnEnqueue(send) => w.(queue := w.queue + [send])
  }

  /** The states `ws` are passed through from the start by the events `es`. */
  ghost predicate IsRun(env: Env, ws: seq<Worker>, es: seq<Event>) {
    && |ws| == |es| + 1
    && ws[0] == Start(env)
    && forall i | 0 <= i < |es| :: Possible(ws[i], es[i]) && ws[i + 1] == Step(env, ws[i], es[i])
  }
}
