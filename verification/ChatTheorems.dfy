/** Safety of the worker over whole runs. */
module ChatTheorems {
  import opened Common
  import opened Sessions
  import opened ChatWorker
  import opened ChatInvariants
  import opened ChatReceiving

  // ----- One live ratchet per peer -----------------------------------------

  lemma OneLiveRatchetPerPeer(env: Env, ws: seq<Worker>, es: seq<Event>, i: nat, m: string, n: string)
    requires IsRun(env, ws, es) && i < |ws|
    requires Live(ws[i].sessions, m) && Live(ws[i].sessions, n)
             && ws[i].sessions[m].peerPub == ws[i].sessions[n].peerPub
    ensures m == n
  {
    RunKeeps(env, ws, es, i);
  }

  lemma OnlyLiveIsFirst(ss: SessionMap, order: seq<string>, name: string)
    requires OneLivePerPeer(ss) && Enumerates(order, ss) && Live(ss, name)
    ensures FirstLive(ss, order, ss[name].peerPub) == Some(name)
  {
    assert LiveFor(ss, name, ss[name].peerPub);
  }

  /** Delivery of an already decrypted envelope acknowledges the live session of the sender and touches no other. */
  lemma DeliverConsumed(ops: Primitives, w: Worker, e: Envelope, name: string, order: seq<string>, bob: BobKeying)
    requires Live(w.sessions, name) && FirstLive(w.sessions, order, w.sessions[name].peerPub) == Some(name)
    requires w.sessions[name].sealOutbound && (w.sessions[name].pqAcked ==> w.sessions[name].pqCt == [])
    ensures var ss, ss' := w.sessions, Deliver(ops, w, e, w.sessions[name].peerPub, true, order, bob).sessions;
            && ss'.Keys == ss.Keys
            && (forall n | n in ss && n != name :: ss'[n] == ss[n])
            && ss'[name].sealOutbound
            && (e.aad == [] || e.aad == AadFor(e.id, e.timestamp) ==> ss'[name].pqAcked && ss'[name].pqCt == [])
  {
    hide FirstLive, AadFor;
  }

  /**
   The session a sealed envelope decrypted under is the one the later lookup by key selects, so it
   is the one acknowledged.
   */
  lemma SealedMatchIsAcknowledged(
    env: Env, ws: seq<Worker>, es: seq<Event>, i: nat, e: Envelope, order: seq<string>, bob: BobKeying)
    requires IsRun(env, ws, es) && i < |ws| && Enumerates(order, ws[i].sessions)
    requires e.senderPubkey == [] && e.recipient == ToUser && TwoPass(env.ops, ws[i].sessions, order, e).1.Some?
    ensures var (ss, hit) := TwoPass(env.ops, ws[i].sessions, order, e);
            var ss' := Inbound(env.ops, ws[i], e, order, bob).sessions;
            && FirstLive(ss, order, ss[hit.value].peerPub) == hit
            && ss'.Keys == ss.Keys
            && (forall n | n in ss && n != hit.value :: ss'[n] == ss[n])
            && ss'[hit.value].sealOutbound
            && (e.aad == [] || e.aad == AadFor(e.id, e.timestamp) ==>
                  ss'[hit.value].pqAcked && ss'[hit.value].pqCt == [])
  {
    hide TwoPass, Deliver, FirstLive, AadFor;
    RunKeeps(env, ws, es, i);
    var w := ws[i];
    var (ss, hit) := TwoPass(env.ops, w.sessions, order, e);
    TwoPassKeeps(env.ops, w.sessions, order, e);
    TriedKeeps(env, w, ss, hit);
    OnlyLiveIsFirst(ss, order, hit.value);
    var w1 := Log(w.(sessions := ss), SealProof(hit.value));
    assert SessionMatches(w1.journal, hit.value, Lookup(w1.sessions, hit.value));
    DeliverConsumed(env.ops, w1, e, hit.value, order, bob);
  }

  // ----- Wire flags --------------------------------------------------------

  /** Entry `k` is the last of its kind before `i`: nothing re-keyed `name` in between. */
  ghost predicate SameRatchet(j: Journal, name: string, k: nat, i: nat) {
    k < i <= |j| && forall m | k < m < i :: !(j[m].Keyed? && j[m].name == name)
  }

  lemma {:induction false} ProvenWitness(j: Journal, name: string) returns (k: nat)
    requires ProvenIn(j, name)
    ensures SameRatchet(j, name, k, |j|) && (j[k].Ack? || j[k].SealProof?) && j[k].name == name
  {
    var n := |j| - 1;
    if (j[n].Ack? || j[n].SealProof?) && j[n].name == name {
      k := n;
    } else {
      k := ProvenWitness(j[..n], name);
    }
  }

  /**
   An envelope without a sender key comes from a session that opened an inbound since it was keyed:
   some earlier step `x` was an envelope that the session opened, and nothing re-keyed it since.
   */
  lemma SealedEnvelopeWasProven(env: Env, ws: seq<Worker>, es: seq<Event>, y: nat, i: nat) returns (x: nat, k: nat)
    requires IsRun(env, ws, es) && y < |ws| && i < |ws[y].journal| && ws[y].journal[i].Wire? && ws[y].journal[i].sealed
    ensures x < y && |ws[x].journal| <= k < |ws[x + 1].journal| && Proves(env.ops, ws[x], es[x], ws[y].journal[i].name)
    ensures SameRatchet(ws[y].journal, ws[y].journal[i].name, k, i)
  {
    hide Proves, IsRun;
    var j := ws[y].journal;
    RunKeeps(env, ws, es, y);
    k := ProvenWitness(j[..i], j[i].name);
    assert j[..i][k] == j[k];
    forall m | k < m < i
      ensures !(j[m].Keyed? && j[m].name == j[i].name)
    {
      assert j[..i][m] == j[m];
    }
    x := EveryProofWasOpened(env, ws, es, y, k);
  }

  lemma {:induction false} CtDueIs(j: Journal, name: string, k: nat)
    requires SameRatchet(j, name, k, |j|) && j[k].Keyed? && j[k].name == name
    ensures CtDue(j, name) == if exists m | k < m < |j| :: j[m].Ack? && j[m].name == name then [] else j[k].pqCt
  {
    var n := |j| - 1;
    if n == k {
    } else if j[n].Ack? && j[n].name == name {
    } else {
      forall m | k < m < n
        ensures j[..n][m] == j[m]
      {
      }
      assert j[..n][k] == j[k];
      CtDueIs(j[..n], name, k);
    }
  }

  /**
   A session keyed by us attaches its KEM ciphertext to every envelope until the first
   acknowledgement, and to none after.
   */
  lemma CiphertextUntilAck(env: Env, ws: seq<Worker>, es: seq<Event>, w: Worker, k: nat, i: nat)
    requires IsRun(env, ws, es) && w in ws && i < |w.journal| && w.journal[i].Wire?
    requires SameRatchet(w.journal, w.journal[i].name, k, i) && w.journal[k].Keyed?
             && w.journal[k].name == w.journal[i].name
    ensures var acked := exists m | k < m < i :: w.journal[m].Ack? && w.journal[m].name == w.journal[i].name;
            && w.journal[i].pqCt == (if acked then [] else w.journal[k].pqCt)
            && (w.journal[i].pqCt != [] <==> w.journal[k].alice && w.journal[k].hasPq && !acked)
  {
    var x: nat :| x < |ws| && ws[x] == w;
    RunKeeps(env, ws, es, x);
    var j := w.journal[..i];
    assert forall m | 0 <= m < i :: j[m] == w.journal[m];
    CtDueIs(j, w.journal[i].name, k);
  }

  /** The bandwidth flag implies the privacy flag, and that the ciphertext is gone. */
  lemma AckedImpliesSealed(env: Env, ws: seq<Worker>, es: seq<Event>, i: nat, name: string)
    requires IsRun(env, ws, es) && i < |ws| && name in ws[i].sessions && ws[i].sessions[name].pqAcked
    ensures ws[i].sessions[name].pqCt == [] && ws[i].sessions[name].sealOutbound && ws[i].sessions[name].rat.Some?
  {
    RunKeeps(env, ws, es, i);
    assert SessionMatches(ws[i].journal, name, Lookup(ws[i].sessions, name));
  }

  // ----- The post-quantum pin ----------------------------------------------

  /**
   No step of any run keys a peer as alice without a KEM key once an earlier session pinned it or
   this one admitted it with one.
   */
  lemma PinnedPeerStaysHybrid(env: Env, ws: seq<Worker>, es: seq<Event>, w: Worker, k: nat)
    requires IsRun(env, ws, es) && w in ws && k < |w.journal|
    requires w.journal[k].Keyed? && w.journal[k].alice
    requires w.journal[k].pub in env.stored || Admit(w.journal[k].pub, true) in w.journal[..k]
    ensures w.journal[k].hasPq && w.journal[k].pqCt != []
  {
    var x: nat :| x < |ws| && ws[x] == w;
    RunKeeps(env, ws, es, x);
  }

  // ----- Key-fetch correlation ---------------------------------------------

  /** The FIFO is the unanswered requests in order; reply number `k` was handled for request number `k`. */
  lemma RepliesMatchRequests(env: Env, ws: seq<Worker>, es: seq<Event>, i: nat, k: nat)
    requires IsRun(env, ws, es) && i < |ws|
    ensures var w := ws[i];
            && |Targets(w.journal)| <= |Fetches(w.journal)|
            && w.pendingFetch == Fetches(w.journal)[|Targets(w.journal)|..]
            && (k < |Targets(w.journal)| ==> Targets(w.journal)[k] == Fetches(w.journal)[k])
  {
    RunKeeps(env, ws, es, i);
  }

  /** What the server has for a name. */
  datatype Listing = Listing(pub: Pub, hasPq: bool)

  /** The server answers its requests in order, each with what it has for the name asked for, or with nothing. */
  ghost predicate ServedInOrder(ws: seq<Worker>, es: seq<Event>, directory: string -> Listing) {
    && |ws| == |es| + 1
    && forall i | 0 <= i < |es| && es[i].OnKeyReply? && es[i].reply.Bundle? ::
         var fetches, answered := Fetches(ws[i].journal), |Targets(ws[i].journal)|;
         answered < |fetches| ==> directory(fetches[answered]) == Listing(es[i].reply.pub, es[i].reply.hasPq)
  }

  /** What a reply adds to the journal. */
  lemma KeyReplyLogs(w: Worker, reply: Reply, n: nat)
    requires var j := KeyReply(w, reply).journal; |w.journal| <= n < |j| && j[n].Keyed?
    ensures var e := KeyReply(w, reply).journal[n];
            w.pendingFetch != [] && reply.Bundle? && e.name == w.pendingFetch[0] && e.pub == reply.pub
              && e.hasPq == reply.hasPq
  {
    hide HasLive;
  }

  /** With such a server, every session keyed by a reply is keyed from the bundle of the name it is filed under. */
  lemma KeyedFromItsOwnBundle(
    env: Env, ws: seq<Worker>, es: seq<Event>, directory: string -> Listing, i: nat, n: nat)
    requires IsRun(env, ws, es) && ServedInOrder(ws, es, directory)
    requires i < |es| && es[i].OnKeyReply? && |ws[i].journal| <= n < |ws[i + 1].journal| && ws[i + 1].journal[n].Keyed?
    ensures var e := ws[i + 1].journal[n]; directory(e.name) == Listing(e.pub, e.hasPq)
  {
    RepliesMatchRequests(env, ws, es, i, 0);
    assert ws[i + 1] == Step(env, ws[i], es[i]);
    KeyReplyLogs(ws[i], es[i].reply, n);
  }
}
