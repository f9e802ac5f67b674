/**
 The room forwarder: leaves that joined, the routing plan, and the relay branches kept up
 to date one join, stream arrival or leave at a time.
 */
module Forwarder {
  import opened Common

  datatype Edge = Edge(src: Pub, sub: Pub)

  /** Elements of the media pipeline are known by number. */
  datatype Leaf = Leaf(webrtc: nat, tee: Option<nat>)

  /** A relay branch runs from a source's tee to a subscriber's connection. */
  datatype Branch = Branch(tee: nat, webrtc: nat)

  datatype Graph = Graph(leaves: map<Pub, Leaf>, routing: set<Pub>, branches: map<Edge, Branch>)

  const EMPTY := Graph(map[], {}, map[])

  /** Both ends are there and the source is flowing. */
  predicate Ready(f: Graph, e: Edge) {
    e.src != e.sub && e.src in f.leaves && e.sub in f.leaves && f.leaves[e.src].tee.Some?
  }

  function BranchFor(f: Graph, e: Edge): Branch
    requires Ready(f, e)
  {
    Branch(f.leaves[e.src].tee.value, f.leaves[e.sub].webrtc)
  }

  /** Wire those of the edges that are ready, not wired yet, and whose elements link. */
  function Wired(f: Graph, edges: set<Edge>, links: Edge -> bool): Graph {
    f.(branches := f.branches + map e | e in edges && Ready(f, e) && e !in f.branches && links(e) :: BranchFor(f, e))
  }

  function EdgesInto(f: Graph, sub: Pub): set<Edge> {
    set src | src in f.routing && src != sub :: Edge(src, sub)
  }

  function EdgesFrom(f: Graph, src: Pub): set<Edge> {
    set sub | src in f.routing && sub in f.routing && sub != src :: Edge(src, sub)
  }

  predicate Touches(e: Edge, key: Pub) {
    e.src == key || e.sub == key
  }

  /** A join may fail for want of an element, or get stuck on an offer that does not parse. */
  function Join(f: Graph, key: Pub, webrtc: Option<nat>, offerParses: bool, links: Edge -> bool): Graph {
    if key in f.leaves || webrtc.None? then f
    else
      var f1 := f.(leaves := f.leaves[key := Leaf(webrtc.value, None)]);
      if !offerParses then f1
      else
        var f2 := f1.(routing := f1.routing + {key});
        Wired(f2, EdgesInto(f2, key), links)
  }

  function PadAdded(f: Graph, key: Pub, tee: Option<nat>, links: Edge -> bool): Graph {
    if tee.None? || key !in f.leaves then f
    else
      var f1 := f.(leaves := f.leaves[key := f.leaves[key].(tee := tee)]);
      Wired(f1, EdgesFrom(f1, key), links)
  }

  function Leave(f: Graph, key: Pub): Graph {
    if key !in f.leaves then f
    else
      var gone := EdgesInto(f, key) + EdgesFrom(f, key);
      Graph(f.leaves - {key}, f.routing - {key}, if key in f.routing then f.branches - gone else f.branches)
  }

  datatype Event =
    | OnJoin(key: Pub, webrtc: Option<nat>, offerParses: bool)
    | OnPad(key: Pub, tee: Option<nat>)
    | OnLeave(key: Pub)

  function Step(f: Graph, e: Event, links: Edge -> bool): Graph {
    match e
    case OnJoin(key, webrtc, offerParses) => Join(f, key, webrtc, offerParses, links)
    case OnPad(key, tee) => PadAdded(f, key, tee, links)
    case OnLeave(key) => Leave(f, key)
  }

  /** `links[i]` says which elements can be linked at the time of the i-th event. */
  ghost predicate IsRun(fs: seq<Graph>, es: seq<Event>, links: seq<Edge -> bool>) {
    && |fs| == |es| + 1 && |links| == |es|
    && fs[0] == EMPTY
    && forall i | 0 <= i < |es| :: fs[i + 1] == Step(fs[i], es[i], links[i])
  }

  // ----- The complete graph ------------------------------------------------

  /** Two different leaves of the routing plan, the first one flowing. */
  predicate Due(f: Graph, e: Edge) {
    e.src != e.sub && e.src in f.routing && e.sub in f.routing && e.src in f.leaves && f.leaves[e.src].tee.Some?
  }

  /** Every branch is due, and ends in its subscriber's present connection. */
  ghost predicate Inv(f: Graph) {
    && f.routing <= f.leaves.Keys
    && forall e | e in f.branches :: Due(f, e) && f.branches[e].webrtc == f.leaves[e.sub].webrtc
  }

  /** Every due edge has its branch. */
  ghost predicate Complete(f: Graph) {
    forall e | Due(f, e) :: e in f.branches
  }

  /** Every branch comes from its source's present tee. */
  ghost predicate Current(f: Graph) {
    forall e | e in f.branches && e.src in f.leaves :: Some(f.branches[e].tee) == f.leaves[e.src].tee
  }

  /** The edges that an event tries to link. */
  predicate Tries(f: Graph, ev: Event, e: Edge) {
    match ev
    case OnJoin(key, webrtc, offerParses) =>
      key !in f.leaves && webrtc.Some? && offerParses && e.sub == key && e.src != key && e.src in f.routing
      && e.src in f.leaves && f.leaves[e.src].tee.Some?
    case OnPad(key, tee) =>
      tee.Some? && key in f.routing && e.src == key && e.sub != key && e.sub in f.routing && e !in f.branches
    case OnLeave(_) => false
  }

  ghost predicate LinksHold(f: Graph, ev: Event, links: Edge -> bool) {
    forall e | Tries(f, ev, e) :: links(e)
  }

  /** A stream that arrives again, in a new tee, for a source that is relayed already. */
  predicate Rearrives(f: Graph, ev: Event) {
    ev.OnPad? && ev.tee.Some? && ev.key in f.leaves && f.leaves[ev.key].tee != ev.tee
    && exists e | e in f.branches :: e.src == ev.key
  }

  lemma WiredKeeps(f: Graph, edges: set<Edge>, links: Edge -> bool)
    requires Inv(f) && forall e | e in edges :: e.src in f.routing && e.sub in f.routing
    ensures Inv(Wired(f, edges, links))
  {
    var f' := Wired(f, edges, links);
    forall e | e in f'.branches
      ensures Due(f', e) && f'.branches[e].webrtc == f'.leaves[e.sub].webrtc
    {
      if e in f.branches {
        assert f'.branches[e] == f.branches[e];
      }
    }
  }

  lemma StepKeeps(f: Graph, ev: Event, links: Edge -> bool)
    requires Inv(f)
    ensures Inv(Step(f, ev, links))
  {
    hide Wired;
    match ev
    case OnJoin(key, webrtc, offerParses) =>
      if key !in f.leaves && webrtc.Some? && offerParses {
        var f2 := f.(leaves := f.leaves[key := Leaf(webrtc.value, None)], routing := f.routing + {key});
        WiredKeeps(f2, EdgesInto(f2, key), links);
      }
    case OnPad(key, tee) =>
      if tee.Some? && key in f.leaves {
        var f1 := f.(leaves := f.leaves[key := f.leaves[key].(tee := tee)]);
        WiredKeeps(f1, EdgesFrom(f1, key), links);
      }
    case OnLeave(key) =>
  }

  /** Completeness survives an event exactly when every link it tries succeeds. */
  lemma CompleteIff(f: Graph, ev: Event, links: Edge -> bool)
    requires Inv(f) && Complete(f)
    ensures Complete(Step(f, ev, links)) <==> LinksHold(f, ev, links)
  {
    var f' := Step(f, ev, links);
    forall e
      ensures Due(f', e) && e !in f'.branches <==> Tries(f, ev, e) && !links(e)
    {
    }
  }

  /** The branches stay on the sources' present tees exactly until a relayed stream arrives again. */
  lemma CurrentIff(f: Graph, ev: Event, links: Edge -> bool)
    requires Inv(f) && Current(f)
    ensures Current(Step(f, ev, links)) <==> !Rearrives(f, ev)
  {
    var f' := Step(f, ev, links);
    if Rearrives(f, ev) {
      var e :| e in f.branches && e.src == ev.key;
      assert e in f'.branches && f'.branches[e] == f.branches[e];
    } else {
      forall e | e in f'.branches && e.src in f'.leaves
        ensures Some(f'.branches[e].tee) == f'.leaves[e.src].tee
      {
        if e in f.branches {
          assert f'.branches[e] == f.branches[e];
        }
      }
    }
  }

  lemma {:induction false} RunKeeps(fs: seq<Graph>, es: seq<Event>, links: seq<Edge -> bool>, n: nat)
    requires IsRun(fs, es, links) && n < |fs|
    ensures Inv(fs[n])
  {
    if n > 0 {
      RunKeeps(fs, es, links, n - 1);
      StepKeeps(fs[n - 1], es[n - 1], links[n - 1]);
    }
  }

  /**
   Over every sequence of joins, stream arrivals and leaves in which no link fails, the branches
   are exactly the pairs of different joined leaves whose first is flowing.
   */
  lemma {:induction false} BranchesAreTheGraph(fs: seq<Graph>, es: seq<Event>, links: seq<Edge -> bool>, n: nat)
    requires IsRun(fs, es, links) && n < |fs|
    requires forall i | 0 <= i < n :: LinksHold(fs[i], es[i], links[i])
    ensures forall e :: e in fs[n].branches <==> Due(fs[n], e)
  {
    RunKeeps(fs, es, links, n);
    if n > 0 {
      BranchesAreTheGraph(fs, es, links, n - 1);
      RunKeeps(fs, es, links, n - 1);
      CompleteIff(fs[n - 1], es[n - 1], links[n - 1]);
    }
  }

  // ----- Told from the events ----------------------------------------------

  /** What the events of one leaf make of it. */
  datatype Presence = Absent | Present(webrtc: nat, parsed: bool, tee: Option<nat>)

  function PresenceAfter(p: Presence, ev: Event, key: Pub): Presence {
    if ev.key != key then p
    else
      match ev
      case OnJoin(_, webrtc, offerParses) =>
        if p.Absent? && webrtc.Some? then Present(webrtc.value, offerParses, None) else p
      case OnPad(_, tee) => if p.Present? && tee.Some? then p.(tee := tee) else p
      case OnLeave(_) => Absent
  }

  function PresenceOf(es: seq<Event>, key: Pub): Presence {
    if es == [] then Absent else PresenceAfter(PresenceOf(es[..|es| - 1], key), es[|es| - 1], key)
  }

  ghost predicate Matches(f: Graph, p: Presence, key: Pub) {
    && (key in f.leaves <==> p.Present?)
    && (key in f.leaves ==> f.leaves[key] == Leaf(p.webrtc, p.tee))
    && (key in f.routing <==> p.Present? && p.parsed)
  }

  lemma StepMatches(f: Graph, p: Presence, ev: Event, links: Edge -> bool, key: Pub)
    requires Matches(f, p, key)
    ensures Matches(Step(f, ev, links), PresenceAfter(p, ev, key), key)
  {
  }

  /** Who is known, with which connection and stream, and who is in the plan depends on each leaf's own events alone. */
  lemma {:induction false} LeavesAreTheirEvents(
    fs: seq<Graph>, es: seq<Event>, links: seq<Edge -> bool>, n: nat, key: Pub)
    requires IsRun(fs, es, links) && n < |fs|
    ensures Matches(fs[n], PresenceOf(es[..n], key), key)
  {
    if n > 0 {
      LeavesAreTheirEvents(fs, es, links, n - 1, key);
      assert es[..n][..n - 1] == es[..n - 1];
      StepMatches(fs[n - 1], PresenceOf(es[..n - 1], key), es[n - 1], links[n - 1], key);
      hide Step;
    }
  }

  /**
   So when every link holds, there is a branch between two different leaves exactly when both have
   joined with a good offer and not left, and the first one's stream has arrived since.
   */
  lemma BranchesAreTheirEvents(fs: seq<Graph>, es: seq<Event>, links: seq<Edge -> bool>, n: nat, e: Edge)
    requires IsRun(fs, es, links) && n < |fs|
    requires forall i | 0 <= i < n :: LinksHold(fs[i], es[i], links[i])
    ensures var p, q := PresenceOf(es[..n], e.src), PresenceOf(es[..n], e.sub);
            e in fs[n].branches <==> e.src != e.sub && p.Present? && p.parsed && p.tee.Some? && q.Present? && q.parsed
  {
    hide PresenceOf, IsRun, LinksHold;
    BranchesAreTheGraph(fs, es, links, n);
    LeavesAreTheirEvents(fs, es, links, n, e.src);
    LeavesAreTheirEvents(fs, es, links, n, e.sub);
  }

  /** Whatever fails to link, no branch touches a leaf that is gone or never got into the plan. */
  lemma NoBranchTouchesOutsiders(fs: seq<Graph>, es: seq<Event>, links: seq<Edge -> bool>, n: nat, key: Pub)
    requires IsRun(fs, es, links) && n < |fs| && key !in fs[n].routing
    ensures forall e | e in fs[n].branches :: !Touches(e, key)
  {
    RunKeeps(fs, es, links, n);
  }

  // ----- Leaves that never get in ------------------------------------------

  /** The joined leaves and the plan part exactly when an offer does not parse. */
  lemma PlanIsLeavesIff(f: Graph, ev: Event, links: Edge -> bool)
    requires Inv(f) && f.leaves.Keys == f.routing
    ensures var f' := Step(f, ev, links);
            f'.leaves.Keys == f'.routing <==> !(ev.OnJoin? && ev.key !in f.leaves && ev.webrtc.Some? && !ev.offerParses)
  {
    var f' := Step(f, ev, links);
    if ev.OnJoin? && ev.key !in f.leaves && ev.webrtc.Some? && !ev.offerParses {
      assert ev.key in f'.leaves.Keys && ev.key !in f'.routing;
    } else if ev.OnJoin? && ev.key !in f.leaves && ev.webrtc.Some? {
      assert f'.leaves.Keys == f.leaves.Keys + {ev.key};
    }
  }

  /** Such a leaf is stuck: until it leaves, joining again does nothing and it is not relayed. */
  lemma {:induction false} StuckUntilItLeaves(
    fs: seq<Graph>, es: seq<Event>, links: seq<Edge -> bool>, m: nat, n: nat, key: Pub)
    requires IsRun(fs, es, links) && m <= n < |fs| && key in fs[m].leaves && key !in fs[m].routing
    requires OnLeave(key) !in es[m..n]
    ensures key in fs[n].leaves && key !in fs[n].routing && forall e | e in fs[n].branches :: !Touches(e, key)
  {
    RunKeeps(fs, es, links, n);
    if m < n {
      assert es[m..n] == es[m..n - 1] + [es[n - 1]];
      StuckUntilItLeaves(fs, es, links, m, n - 1, key);
    }
  }

  // ----- Runs that fall short ----------------------------------------------

  /** Two leaves join, the first flows, and its stream arrives again: the branch is still on the old tee. */
  lemma StreamArrivesAgain(a: Pub, b: Pub) returns (fs: seq<Graph>, es: seq<Event>, links: seq<Edge -> bool>)
    requires a != b
    ensures IsRun(fs, es, links) && |es| == 4 && Current(fs[3]) && !Current(fs[4])
    ensures var f := fs[4];
            Edge(a, b) in f.branches && f.branches[Edge(a, b)].tee == 2 && a in f.leaves && f.leaves[a].tee == Some(3)
  {
    hide Step, LinksHold, Wired, Rearrives;
    var ok: Edge -> bool := _ => true;
    var f1, f2, f3 := SecondFlows(a, b, ok);
    es := [OnJoin(a, Some(0), true), OnJoin(b, Some(1), true), OnPad(a, Some(2)), OnPad(a, Some(3))];
    links := [ok, ok, ok, ok];
    fs := [EMPTY, f1, f2, f3, Step(f3, es[3], ok)];
    AllLink(fs, es, links, ok);
    BranchesAreTheGraph(fs, es, links, 3);
    assert Due(f3, Edge(a, b));
    CurrentSoFar(fs, es, links, 3);
    RunKeeps(fs, es, links, 3);
    CurrentIff(f3, es[3], ok);
    KeepsOldTee(f3, a, Edge(a, b), ok);
  }

  /** Two leaves join and the first flows: nothing was relayed before it did. */
  lemma SecondFlows(a: Pub, b: Pub, ok: Edge -> bool) returns (f1: Graph, f2: Graph, f3: Graph)
    requires a != b
    ensures f1 == Step(EMPTY, OnJoin(a, Some(0), true), ok) && f2 == Step(f1, OnJoin(b, Some(1), true), ok)
    ensures f3 == Step(f2, OnPad(a, Some(2)), ok)
    ensures f3.routing == {a, b} && a in f3.leaves && b in f3.leaves && f3.leaves[a].tee == Some(2)
    ensures !Rearrives(EMPTY, OnJoin(a, Some(0), true)) && !Rearrives(f1, OnJoin(b, Some(1), true))
    ensures !Rearrives(f2, OnPad(a, Some(2)))
  {
    f1 := Step(EMPTY, OnJoin(a, Some(0), true), ok);
    assert f1.branches == map[] && f1.routing == {a} && f1.leaves == map[a := Leaf(0, None)];
    f2 := Step(f1, OnJoin(b, Some(1), true), ok);
    assert f2.branches == map[];
    f3 := Step(f2, OnPad(a, Some(2)), ok);
  }

  lemma AllLink(fs: seq<Graph>, es: seq<Event>, links: seq<Edge -> bool>, ok: Edge -> bool)
    requires |fs| == |es| + 1 && |links| == |es| && (forall i | 0 <= i < |es| :: links[i] == ok) && forall e :: ok(e)
    ensures forall i | 0 <= i < |es| :: LinksHold(fs[i], es[i], links[i])
  {
  }

  /** Until a source that is relayed already flows again, the branches are current. */
  lemma {:induction false} CurrentSoFar(fs: seq<Graph>, es: seq<Event>, links: seq<Edge -> bool>, n: nat)
    requires IsRun(fs, es, links) && n < |fs| && forall i | 0 <= i < n :: !Rearrives(fs[i], es[i])
    ensures Current(fs[n])
  {
    if n > 0 {
      CurrentSoFar(fs, es, links, n - 1);
      RunKeeps(fs, es, links, n - 1);
      hide Step, Rearrives, Current;
      CurrentIff(fs[n - 1], es[n - 1], links[n - 1]);
    }
  }

  lemma KeepsOldTee(f: Graph, a: Pub, e: Edge, ok: Edge -> bool)
    requires Inv(f) && Current(f) && e in f.branches && e.src == a && f.leaves[a].tee == Some(2)
    ensures var f' := Step(f, OnPad(a, Some(3)), ok);
            && e in f'.branches && f'.branches[e].tee == 2 && a in f'.leaves && f'.leaves[a].tee == Some(3)
            && Rearrives(f, OnPad(a, Some(3)))
  {
  }

  /** A leaf whose offer does not parse, and which then offers again properly, is known but never in the plan. */
  lemma BadOfferSticks(a: Pub) returns (fs: seq<Graph>, es: seq<Event>, links: seq<Edge -> bool>)
    ensures IsRun(fs, es, links) && |es| == 2 && es[1] == OnJoin(a, Some(1), true)
    ensures a in fs[2].leaves && a !in fs[2].routing && fs[2].leaves.Keys != fs[2].routing
  {
    var ok: Edge -> bool := _ => true;
    es, links := [OnJoin(a, Some(0), false), OnJoin(a, Some(1), true)], [ok, ok];
    var f1 := Step(EMPTY, es[0], ok);
    fs := [EMPTY, f1, Step(f1, es[1], ok)];
    assert a in fs[2].leaves.Keys;
  }

  // ----- The object --------------------------------------------------------

  class RoomForwarder {
    var leaves: map<Pub, Leaf>
    var routing: set<Pub>
    var branches: map<Edge, Branch>

    ghost function View(): Graph
      reads this
    {
      Graph(leaves, routing, branches)
    }

    constructor ()
      ensures View() == EMPTY
    {
      leaves, routing, branches := map[], {}, map[];
    }

    method WireEdge(e: Edge, links: Edge -> bool)
      modifies this`branches
      ensures View() == Wired(old(View()), {e}, links)
    {
      if e.src != e.sub && e.src in leaves && e.sub in leaves && leaves[e.src].tee.Some? && e !in branches && links(e) {
        branches := branches[e := Branch(leaves[e.src].tee.value, leaves[e.sub].webrtc)];
        assert branches == Wired(old(View()), {e}, links).branches;
      } else {
        assert branches == Wired(old(View()), {e}, links).branches;
      }
    }

    method TearEdge(e: Edge)
      modifies this`branches
      ensures branches == old(branches) - {e}
    {
      branches := branches - {e};
    }

    method AddLeaf(key: Pub, webrtc: Option<nat>, offerParses: bool, links: Edge -> bool)
      modifies this
      ensures View() == Join(old(View()), key, webrtc, offerParses, links)
    {
      if key in leaves || webrtc.None? { return; }
      leaves := leaves[key := Leaf(webrtc.value, None)];
      if !offerParses { return; }
      var others := routing - {key};
      routing := routing + {key};
      ghost var f := View();
      ghost var done: set<Edge> := {};
      while others != {}
        invariant others <= f.routing - {key}
        invariant done == set src | src in f.routing && src != key && src !in others :: Edge(src, key)
        invariant View() == Wired(f, done, links)
      {
        var src :| src in others;
        WireEdge(Edge(src, key), links);
        WiredAgain(f, done, Edge(src, key), links);
        others := others - {src};
        done := done + {Edge(src, key)};
      }
      assert done == EdgesInto(f, key);
    }

    method OnPadAdded(key: Pub, tee: Option<nat>, links: Edge -> bool)
      modifies this
      ensures View() == PadAdded(old(View()), key, tee, links)
    {
      if tee.None? || key !in leaves { return; }
      leaves := leaves[key := leaves[key].(tee := tee)];
      ghost var f := View();
      ghost var done: set<Edge> := {};
      var subs := if key in routing then routing - {key} else {};
      while subs != {}
        invariant key in f.routing || subs == {}
        invariant subs <= f.routing - {key}
        invariant done == set sub | key in f.routing && sub in f.routing && sub != key && sub !in subs :: Edge(key, sub)
        invariant View() == Wired(f, done, links)
      {
        var sub :| sub in subs;
        WireEdge(Edge(key, sub), links);
        WiredAgain(f, done, Edge(key, sub), links);
        subs := subs - {sub};
        done := done + {Edge(key, sub)};
      }
      assert done == EdgesFrom(f, key);
    }

    method RemoveLeaf(key: Pub)
      modifies this
      ensures View() == Leave(old(View()), key)
    {
      if key !in leaves { return; }
      ghost var f := View();
      if key in routing {
        routing := routing - {key};
        ghost var torn: set<Edge> := {};
        var others := routing;
        while others != {}
          invariant others <= routing && routing == f.routing - {key} && leaves == f.leaves
          invariant torn == (set o | o in routing && o !in others :: Edge(key, o))
                            + (set o | o in routing && o !in others :: Edge(o, key))
          invariant branches == f.branches - torn
        {
          var o :| o in others;
          TearEdge(Edge(key, o));
          TearEdge(Edge(o, key));
          others := others - {o};
          torn := torn + {Edge(key, o), Edge(o, key)};
        }
        assert torn == EdgesInto(f, key) + EdgesFrom(f, key);
      }
      leaves := leaves - {key};
    }
  }

  /** Wiring edges one after the other wires them all. */
  lemma WiredAgain(f: Graph, edges: set<Edge>, e: Edge, links: Edge -> bool)
    ensures Wired(Wired(f, edges, links), {e}, links) == Wired(f, edges + {e}, links)
  {
    var w := Wired(f, edges, links);
    assert Ready(w, e) <==> Ready(f, e);
    var one, all := Wired(w, {e}, links).branches, Wired(f, edges + {e}, links).branches;
    forall x
      ensures x in one <==> x in all
      ensures x in one ==> one[x] == all[x]
    {
    }
    assert one == all;
  }
}
