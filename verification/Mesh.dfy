/** Voice rooms: who forwards, whom a client dials, and what a new roster changes. */
module Mesh {
  import opened Common

  // ----- Key order ---------------------------------------------------------

  /** Lexicographic order on byte strings. */
  predicate Less(a: Bytes, b: Bytes) {
    if b == [] then false
    else if a == [] then true
    else a[0] < b[0] || (a[0] == b[0] && Less(a[1..], b[1..]))
  }

  lemma {:induction false} LessTotal(a: Bytes, b: Bytes)
    ensures a == b || Less(a, b) || Less(b, a)
  {
    if a != [] && b != [] && a[0] == b[0] {
      LessTotal(a[1..], b[1..]);
      assert a == [a[0]] + a[1..] && b == [b[0]] + b[1..];
    }
  }

  lemma {:induction false} LessAsymmetric(a: Bytes, b: Bytes)
    requires Less(a, b)
    ensures !Less(b, a)
  {
    if a != [] && a[0] == b[0] {
      LessAsymmetric(a[1..], b[1..]);
    }
  }

  lemma {:induction false} LessTransitive(a: Bytes, b: Bytes, c: Bytes)
    requires Less(a, b) && Less(b, c)
    ensures Less(a, c)
  {
    if a != [] && a[0] == b[0] && b[0] == c[0] {
      LessTransitive(a[1..], b[1..], c[1..]);
    }
  }

  /** The strings agree before position `i`, and there the first one ends or has the smaller byte. */
  ghost predicate SmallerAt(a: Bytes, b: Bytes, i: nat) {
    && i <= |a| && i < |b| && (forall k | 0 <= k < i :: a[k] == b[k])
    && (i < |a| ==> a[i] < b[i])
  }

  lemma {:induction false} LessIs(a: Bytes, b: Bytes)
    ensures Less(a, b) <==> exists i: nat :: SmallerAt(a, b, i)
  {
    if b != [] && a != [] && a[0] == b[0] {
      LessIs(a[1..], b[1..]);
      if Less(a[1..], b[1..]) {
        var i: nat :| SmallerAt(a[1..], b[1..], i);
        assert forall k | 0 < k < i + 1 :: a[k] == a[1..][k - 1] && b[k] == b[1..][k - 1];
        assert SmallerAt(a, b, i + 1);
      } else if i: nat :| SmallerAt(a, b, i) {
        assert SmallerAt(a[1..], b[1..], i - 1);
      }
    } else if Less(a, b) {
      assert SmallerAt(a, b, 0);
    }
  }

  // ----- Election ----------------------------------------------------------

  datatype Participant = Participant(key: Bytes, uplink: int)

  const MESH_THRESHOLD := 6

  /** `c` is a better relay than `d`: a better uplink, or the smaller key at the same uplink. */
  predicate Better(c: Participant, d: Participant) {
    c.uplink > d.uplink || (c.uplink == d.uplink && Less(c.key, d.key))
  }

  /** `c` can relay, and no candidate that can is better. */
  ghost predicate IsBest(cs: seq<Participant>, c: Participant) {
    c in cs && c.uplink > 0 && forall d | d in cs && d.uplink > 0 :: !Better(d, c)
  }

  ghost predicate Elects(cs: seq<Participant>, r: Option<Bytes>) {
    if |cs| < MESH_THRESHOLD || forall c | c in cs :: c.uplink <= 0 then r.None?
    else r.Some? && exists c :: IsBest(cs, c) && c.key == r.value
  }

  /** The elected one has the best uplink of all, and of those who share it the smallest key. */
  lemma ElectedIs(cs: seq<Participant>, key: Bytes)
    requires Elects(cs, Some(key))
    ensures |cs| >= 6
    ensures exists c :: c in cs && c.key == key && c.uplink > 0 &&
              forall d | d in cs :: d.uplink < c.uplink || (d.uplink == c.uplink && (d.key == key || Less(key, d.key)))
  {
    var c :| IsBest(cs, c) && c.key == key;
    forall d | d in cs
      ensures d.uplink < c.uplink || (d.uplink == c.uplink && (d.key == key || Less(key, d.key)))
    {
      LessTotal(d.key, key);
    }
  }

  lemma BetterTransitive(a: Participant, b: Participant, c: Participant)
    requires Better(a, b) && !Better(c, b)
    ensures !Better(c, a)
  {
    if Better(c, a) {
      if c.uplink == a.uplink && a.uplink == b.uplink {
        LessTransitive(c.key, a.key, b.key);
      }
    }
  }

  method ElectForwarder(cs: seq<Participant>) returns (r: Option<Bytes>)
    ensures Elects(cs, r)
  {
    if |cs| < MESH_THRESHOLD { return None; }
    var best: Option<Participant> := None;
    var i := 0;
    while i < |cs|
      invariant 0 <= i <= |cs|
      invariant best.None? ==> forall c | c in cs[..i] :: c.uplink <= 0
      invariant best.Some? ==> IsBest(cs[..i], best.value)
    {
      var c := cs[i];
      assert forall d :: d in cs[..i + 1] <==> d in cs[..i] || d == c;
      if c.uplink > 0 && (best.None? || Better(c, best.value)) {
        forall d | d in cs[..i] && d.uplink > 0
          ensures !Better(d, c)
        {
          BetterTransitive(c, best.value, d);
        }
        if Less(c.key, c.key) { LessAsymmetric(c.key, c.key); }
        best := Some(c);
      }
      i := i + 1;
    }
    assert cs[..i] == cs;
    r := if best.Some? then Some(best.value.key) else None;
  }

  /** The winner does not depend on the order of the candidates. */
  lemma ElectionAgrees(cs: seq<Participant>, ds: seq<Participant>, r: Option<Bytes>, q: Option<Bytes>)
    requires multiset(cs) == multiset(ds) && Elects(cs, r) && Elects(ds, q)
    ensures r == q
  {
    SameElements(cs, ds);
    if r.Some? && q.Some? {
      var c :| IsBest(cs, c) && c.key == r.value;
      var d :| IsBest(ds, d) && d.key == q.value;
      LessTotal(c.key, d.key);
    }
  }

  lemma SameElements(cs: seq<Participant>, ds: seq<Participant>)
    requires multiset(cs) == multiset(ds)
    ensures |cs| == |ds| && forall c :: c in cs <==> c in ds
  {
    assert |multiset(cs)| == |multiset(ds)|;
    assert forall c :: c in cs <==> c in multiset(cs);
    assert forall c :: c in ds <==> c in multiset(ds);
  }

  // ----- Rosters -----------------------------------------------------------

  /** The other participants with a well-formed key. */
  function Peers(me: Pub, cs: seq<Participant>): set<Pub> {
    set c | c in cs && |c.key| == 32 && c.key != me :: var p: Pub := c.key; p
  }

  function WellFormed(cs: seq<Participant>): (r: seq<Participant>)
    ensures forall c :: c in r <==> c in cs && |c.key| == 32
  {
    if cs == [] then []
    else
      var rest := WellFormed(cs[..|cs| - 1]);
      assert forall c :: c in cs <==> c in cs[..|cs| - 1] || c == cs[|cs| - 1];
      if |cs[|cs| - 1].key| == 32 then rest + [cs[|cs| - 1]] else rest
  }

  lemma {:induction false} WellFormedCount(cs: seq<Participant>, c: Participant)
    ensures multiset(WellFormed(cs))[c] == if |c.key| == 32 then multiset(cs)[c] else 0
  {
    if cs != [] {
      assert cs == cs[..|cs| - 1] + [cs[|cs| - 1]];
      WellFormedCount(cs[..|cs| - 1], c);
    }
  }

  /** However the roster is ordered, every participant elects the same forwarder, or none. */
  lemma AllElectTheSame(cs: seq<Participant>, ds: seq<Participant>, r: Option<Bytes>, q: Option<Bytes>)
    requires multiset(cs) == multiset(ds) && Elects(WellFormed(cs), r) && Elects(WellFormed(ds), q)
    ensures r == q
  {
    forall c
      ensures multiset(WellFormed(cs))[c] == multiset(WellFormed(ds))[c]
    {
      WellFormedCount(cs, c);
      WellFormedCount(ds, c);
    }
    ElectionAgrees(WellFormed(cs), WellFormed(ds), r, q);
  }

  /** The peers a client must call itself: of each pair, the one with the greater key dials. */
  function Dialed(me: Pub, peers: set<Pub>): set<Pub> {
    set p | p in peers && Less(p, me)
  }

  datatype Outcome = Outcome(meshed: set<Pub>, dials: set<Pub>, drops: set<Pub>)

  /** What a roster with these peers does in mesh mode. */
  function MeshStep(me: Pub, meshed: set<Pub>, peers: set<Pub>): Outcome {
    Outcome(peers, Dialed(me, peers - meshed), meshed - peers)
  }

  /** What a roster does when it is another participant that forwards. */
  function LeafStep(meshed: set<Pub>, fwd: Pub): Outcome {
    Outcome(meshed + {fwd}, {fwd} - meshed, {})
  }

  /** What a roster does to a client that dials forwarders, given whom it elects. */
  function RosterStep(me: Pub, meshed: set<Pub>, peers: set<Pub>, fwd: Option<Pub>): Outcome {
    if fwd.None? then MeshStep(me, meshed, peers)
    else if fwd.value == me then Outcome(meshed, {}, {})
    else LeafStep(meshed, fwd.value)
  }

  /** A client's part in one voice room. */
  class RoomMesh {
    const me: Pub
    const forwarderDial: bool
    var meshed: set<Pub>
    var forwarder: Option<Pub>

    constructor (me: Pub, forwarderDial: bool)
      ensures this.me == me && this.forwarderDial == forwarderDial && meshed == {} && forwarder == None
    {
      this.me, this.forwarderDial := me, forwarderDial;
      meshed, forwarder := {}, None;
    }

    /** Collect the peers of a roster. */
    method ReadRoster(cs: seq<Participant>) returns (peers: set<Pub>, candidates: seq<Participant>)
      ensures peers == Peers(me, cs) && candidates == WellFormed(cs)
    {
      peers, candidates := {}, [];
      var i := 0;
      while i < |cs|
        invariant 0 <= i <= |cs|
        invariant peers == Peers(me, cs[..i]) && candidates == WellFormed(cs[..i])
      {
        var c := cs[i];
        assert cs[..i + 1][..i] == cs[..i];
        assert forall d :: d in cs[..i + 1] <==> d in cs[..i] || d == c;
        if |c.key| == 32 {
          candidates := candidates + [c];
          if c.key != me { peers := peers + {c.key}; }
        }
        i := i + 1;
      }
      assert cs[..i] == cs;
    }

    /** Full mesh: forget those who left, dial the newcomers that are this client's to dial. */
    method Reconcile(peers: set<Pub>) returns (dials: set<Pub>, drops: set<Pub>)
      modifies this`meshed
      ensures Outcome(meshed, dials, drops) == MeshStep(me, old(meshed), peers)
    {
      drops := {};
      var todo := meshed;
      while todo != {}
        invariant todo <= meshed
        invariant drops == meshed - todo - peers
      {
        var p :| p in todo;
        if p !in peers { drops := drops + {p}; }
        todo := todo - {p};
      }
      meshed := meshed - drops;
      dials, todo := {}, peers;
      while todo != {}
        invariant todo <= peers
        invariant meshed == (old(meshed) * peers) + (peers - todo)
        invariant dials == Dialed(me, peers - todo - old(meshed))
      {
        var p :| p in todo;
        todo := todo - {p};
        if p !in meshed {
          meshed := meshed + {p};
          if Less(p, me) { dials := dials + {p}; }
        }
      }
    }

    /** A roster arrived: dial the forwarder alone when there is one to use, otherwise keep the mesh. */
    method ApplyRoster(cs: seq<Participant>) returns (fwd: Option<Bytes>, dials: set<Pub>, drops: set<Pub>)
      modifies this
      ensures Elects(WellFormed(cs), fwd) && (fwd.Some? ==> |fwd.value| == 32)
      ensures Outcome(meshed, dials, drops) ==
              RosterStep(me, old(meshed), Peers(me, cs),
                if forwarderDial && fwd.Some? then (var f: Pub := fwd.value; Some(f)) else None)
      ensures forwarder == if forwarderDial && fwd.Some? && fwd.value != me then fwd else old(forwarder)
    {
      var peers, candidates := ReadRoster(cs);
      fwd := ElectForwarder(candidates);
      dials, drops := {}, {};
      if forwarderDial && fwd.Some? {
        if fwd.value == me { return; }
        forwarder := fwd;
        if fwd.value !in meshed {
          meshed := meshed + {fwd.value};
          dials := {fwd.value};
        }
        return;
      }
      dials, drops := Reconcile(peers);
    }
  }

  // ----- Rooms -------------------------------------------------------------

  datatype Call = Call(dialer: Pub, dialed: Pub)

  /** All the calls that clients with empty mesh sets make when they apply the roster `room`. */
  function Calls(room: set<Pub>): set<Call> {
    set a, b | a in room && b in MeshStep(a, {}, room - {a}).dials :: Call(a, b)
  }

  /** The same roster again dials and drops nobody. */
  lemma ReapplyDoesNothing(me: Pub, meshed: set<Pub>, peers: set<Pub>)
    ensures var once := MeshStep(me, meshed, peers);
            once.meshed == peers && MeshStep(me, once.meshed, peers) == Outcome(peers, {}, {})
  {
    assert Dialed(me, peers - peers) == {};
  }

  /**
   Two participants that apply the same roster never both dial. The pair gets its call exactly
   when the one with the greater key does not believe it has the other in its mesh already.
   */
  lemma PairDialedIff(room: set<Pub>, a: Pub, b: Pub, ma: set<Pub>, mb: set<Pub>)
    requires a in room && b in room && a != b
    ensures var ab, ba := b in MeshStep(a, ma, room - {a}).dials, a in MeshStep(b, mb, room - {b}).dials;
            !(ab && ba) && (ab || ba <==> if Less(b, a) then b !in ma else a !in mb)
  {
    LessTotal(a, b);
    if Less(a, b) {
      LessAsymmetric(a, b);
    }
  }

  /** From empty mesh sets each pair has exactly one dialer. */
  lemma OneDialerPerPair(room: set<Pub>, a: Pub, b: Pub)
    requires a in room && b in room && a != b
    ensures Call(a, b) in Calls(room) <==> Call(b, a) !in Calls(room)
  {
    PairDialedIff(room, a, b, {}, {});
  }

  // ----- A room over time --------------------------------------------------

  /**
   A client's mesh set after the first `n` rosters of a room, when it applies every roster it is on
   and a leave erases the set. How the clients' turns interleave does not matter to it.
   */
  function MeshAfter(rooms: seq<set<Pub>>, me: Pub, n: nat): set<Pub>
    requires n <= |rooms|
  {
    if n == 0 || me !in rooms[n - 1] then {}
    else MeshStep(me, MeshAfter(rooms, me, n - 1), rooms[n - 1] - {me}).meshed
  }

  /** Whom it dials when it applies roster `k`. */
  function DialsAt(rooms: seq<set<Pub>>, me: Pub, k: nat): set<Pub>
    requires k < |rooms|
  {
    if me !in rooms[k] then {} else MeshStep(me, MeshAfter(rooms, me, k), rooms[k] - {me}).dials
  }

  predicate Together(rooms: seq<set<Pub>>, a: Pub, b: Pub, k: nat)
    requires k < |rooms|
  {
    a in rooms[k] && b in rooms[k]
  }

  /** Roster `k` has both, and the one before it did not. */
  predicate Meet(rooms: seq<set<Pub>>, a: Pub, b: Pub, k: nat)
    requires k < |rooms|
  {
    Together(rooms, a, b, k) && (k == 0 || !Together(rooms, a, b, k - 1))
  }

  /** The calls the two make to each other at roster `k`, in either direction. */
  function PairCalls(rooms: seq<set<Pub>>, a: Pub, b: Pub, k: nat): set<Call>
    requires k < |rooms|
  {
    (if b in DialsAt(rooms, a, k) then {Call(a, b)} else {}) + (if a in DialsAt(rooms, b, k) then {Call(b, a)} else {})
  }

  /** How many calls the two make at the rosters from `m` up to `n`. */
  function CallsOver(rooms: seq<set<Pub>>, a: Pub, b: Pub, m: nat, n: nat): nat
    requires m <= n <= |rooms|
    decreases n
  {
    if m == n then 0 else CallsOver(rooms, a, b, m, n - 1) + |PairCalls(rooms, a, b, n - 1)|
  }

  /** Two participants make one call at the rosters that bring them together, and none at any other. */
  lemma CallsWhenTheyMeet(rooms: seq<set<Pub>>, a: Pub, b: Pub, k: nat)
    requires k < |rooms| && a != b
    ensures |PairCalls(rooms, a, b, k)| == if Meet(rooms, a, b, k) then 1 else 0
  {
    if Together(rooms, a, b, k) {
      PairDialedIff(rooms[k], a, b, MeshAfter(rooms, a, k), MeshAfter(rooms, b, k));
    }
  }

  lemma {:induction false} NoCallsWhileTogether(rooms: seq<set<Pub>>, a: Pub, b: Pub, m: nat, n: nat)
    requires m <= n <= |rooms| && a != b && forall i | m <= i < n :: !Meet(rooms, a, b, i)
    ensures CallsOver(rooms, a, b, m, n) == 0
  {
    if m < n {
      assert !Meet(rooms, a, b, n - 1);
      hide PairCalls, Meet, Together, MeshAfter, DialsAt;
      NoCallsWhileTogether(rooms, a, b, m, n - 1);
      CallsWhenTheyMeet(rooms, a, b, n - 1);
    }
  }

  lemma {:induction false} CallsSum(rooms: seq<set<Pub>>, a: Pub, b: Pub, l: nat, m: nat, n: nat)
    requires l <= m <= n <= |rooms|
    ensures CallsOver(rooms, a, b, l, n) == CallsOver(rooms, a, b, l, m) + CallsOver(rooms, a, b, m, n)
  {
    if m < n {
      CallsSum(rooms, a, b, l, m, n - 1);
    }
  }

  /** The roster at which a pair that is together now was brought together. */
  function LastMet(rooms: seq<set<Pub>>, a: Pub, b: Pub, n: nat): (k: nat)
    requires n < |rooms| && Together(rooms, a, b, n)
    ensures k <= n && Meet(rooms, a, b, k)
    ensures forall i | k <= i <= n :: Together(rooms, a, b, i)
  {
    if n == 0 || !Together(rooms, a, b, n - 1) then n else LastMet(rooms, a, b, n - 1)
  }

  /**
   Over any rosters that come and go, a pair on the last one has made exactly one call since it was
   last apart, whoever of the two came or came back.
   */
  lemma OneCallSinceTheyMet(rooms: seq<set<Pub>>, a: Pub, b: Pub, n: nat)
    requires n < |rooms| && a != b && Together(rooms, a, b, n)
    ensures CallsOver(rooms, a, b, LastMet(rooms, a, b, n), n + 1) == 1
  {
    hide PairCalls;
    var k := LastMet(rooms, a, b, n);
    CallsWhenTheyMeet(rooms, a, b, k);
    NoCallsWhileTogether(rooms, a, b, k + 1, n + 1);
    CallsSum(rooms, a, b, k, k + 1, n + 1);
    assert CallsOver(rooms, a, b, k, k + 1) == CallsOver(rooms, a, b, k, k) + |PairCalls(rooms, a, b, k)|;
  }

  /** The rosters below `n` at which the two are brought together. */
  ghost function Meetings(rooms: seq<set<Pub>>, a: Pub, b: Pub, n: nat): set<nat>
    requires n <= |rooms|
  {
    set k: nat | k < n && Meet(rooms, a, b, k)
  }

  lemma NextMeeting(rooms: seq<set<Pub>>, a: Pub, b: Pub, n: nat)
    requires n < |rooms|
    ensures |Meetings(rooms, a, b, n + 1)| == |Meetings(rooms, a, b, n)| + if Meet(rooms, a, b, n) then 1 else 0
  {
    hide Meet;
    var before := Meetings(rooms, a, b, n);
    if Meet(rooms, a, b, n) {
      assert Meetings(rooms, a, b, n + 1) == before + {n};
    } else {
      assert Meetings(rooms, a, b, n + 1) == before;
    }
  }

  /** Over the whole history of a room a pair makes as many calls as it was brought together. */
  lemma {:induction false} OneCallPerMeeting(rooms: seq<set<Pub>>, a: Pub, b: Pub, n: nat)
    requires n <= |rooms| && a != b
    ensures CallsOver(rooms, a, b, 0, n) == |Meetings(rooms, a, b, n)|
  {
    if n > 0 {
      OneCallPerMeeting(rooms, a, b, n - 1);
      hide PairCalls, Meetings, Meet;
      CallsWhenTheyMeet(rooms, a, b, n - 1);
      NextMeeting(rooms, a, b, n - 1);
    }
  }

  /** Two clients hang up on each other at the rosters that keep the one and not the other. */
  lemma DropsWhenTheyPart(rooms: seq<set<Pub>>, a: Pub, b: Pub, k: nat)
    requires k < |rooms| && a != b && a in rooms[k]
    ensures b in MeshStep(a, MeshAfter(rooms, a, k), rooms[k] - {a}).drops <==>
            k > 0 && Together(rooms, a, b, k - 1) && b !in rooms[k]
  {
  }

  /** A client's peers are the participants with a well-formed key, without itself. */
  lemma PeersAreTheRoom(me: Pub, cs: seq<Participant>, p: Pub)
    ensures p in Peers(me, cs) <==> p != me && exists c :: c in cs && c.key == p
  {
    if p in Peers(me, cs) {
      var c :| c in cs && |c.key| == 32 && c.key != me && p == c.key;
    }
    if c :| c in cs && c.key == p && p != me {
      assert |c.key| == 32;
    }
  }

  // ----- Rooms with a forwarder --------------------------------------------

  /** A roster as the clients see it: who is there, and whom they elect. */
  datatype Plan = Plan(room: set<Pub>, fwd: Option<Pub>)

  function SetAfter(plans: seq<Plan>, me: Pub, n: nat): set<Pub>
    requires n <= |plans|
  {
    if n == 0 || me !in plans[n - 1].room then {}
    else RosterStep(me, SetAfter(plans, me, n - 1), plans[n - 1].room - {me}, plans[n - 1].fwd).meshed
  }

  function OutcomeAt(plans: seq<Plan>, me: Pub, k: nat): Outcome
    requires k < |plans| && me in plans[k].room
  {
    RosterStep(me, SetAfter(plans, me, k), plans[k].room - {me}, plans[k].fwd)
  }

  /** The rosters from `m` up to `n` all have the client and elect the same forwarder. */
  predicate Elected(plans: seq<Plan>, me: Pub, fwd: Pub, m: nat, n: nat) {
    m <= n <= |plans| && forall k | m <= k < n :: me in plans[k].room && plans[k].fwd == Some(fwd)
  }

  lemma {:induction false} LeafSet(plans: seq<Plan>, me: Pub, fwd: Pub, m: nat, n: nat)
    requires Elected(plans, me, fwd, m, n) && me != fwd && m < n
    ensures SetAfter(plans, me, n) == SetAfter(plans, me, m) + {fwd}
  {
    if m + 1 < n {
      LeafSet(plans, me, fwd, m, n - 1);
    }
  }

  /**
   While the same forwarder is elected, a leaf dials it at the first of those rosters unless it was
   in a call with it already, dials it never again and nobody else at all, and hangs up on nobody.
   */
  lemma LeafDialsOnce(plans: seq<Plan>, me: Pub, fwd: Pub, m: nat, n: nat, k: nat)
    requires Elected(plans, me, fwd, m, n) && me != fwd && m <= k < n
    ensures var o := OutcomeAt(plans, me, k);
            && o.dials == (if k == m && fwd !in SetAfter(plans, me, m) then {fwd} else {})
            && o.drops == {} && o.meshed == SetAfter(plans, me, m) + {fwd}
  {
    if m < k {
      LeafSet(plans, me, fwd, m, k);
    }
  }

  /** The forwarder itself dials nobody, hangs up on nobody, and forgets nobody. */
  lemma ForwarderOnlyListens(plans: seq<Plan>, me: Pub, k: nat)
    requires k < |plans| && me in plans[k].room && plans[k].fwd == Some(me)
    ensures var o := OutcomeAt(plans, me, k); o == Outcome(SetAfter(plans, me, k), {}, {})
  {
  }

  /** Without a forwarder the rosters do what they do in a mesh. */
  lemma {:induction false} NoForwarderIsMesh(plans: seq<Plan>, rooms: seq<set<Pub>>, me: Pub, n: nat)
    requires |rooms| == |plans| && n <= |plans|
    requires forall k | 0 <= k < n :: plans[k] == Plan(rooms[k], None)
    ensures SetAfter(plans, me, n) == MeshAfter(rooms, me, n)
  {
    if n > 0 {
      NoForwarderIsMesh(plans, rooms, me, n - 1);
    }
  }

  /** The calls that `x` has with the others, whoever dials. */
  function CallsWith(room: set<Pub>, x: Pub): set<Call> {
    set b | b in room && b != x :: if Less(b, x) then Call(x, b) else Call(b, x)
  }

  lemma {:induction false} CallsWithSize(room: set<Pub>, x: Pub)
    requires x !in room
    ensures |CallsWith(room, x)| == |room|
    decreases |room|
  {
    hide Less;
    if room != {} {
      var b :| b in room;
      CallsWithSize(room - {b}, x);
      var c := if Less(b, x) then Call(x, b) else Call(b, x);
      assert CallsWith(room, x) == CallsWith(room - {b}, x) + {c};
      assert c !in CallsWith(room - {b}, x);
    }
  }

  lemma CallsSplit(room: set<Pub>, x: Pub)
    requires x in room
    ensures Calls(room) == Calls(room - {x}) + CallsWith(room - {x}, x)
    ensures Calls(room - {x}) !! CallsWith(room - {x}, x)
  {
    forall c: Call
      ensures c in Calls(room) <==> c in Calls(room - {x}) || c in CallsWith(room - {x}, x)
    {
      LessTotal(c.dialer, c.dialed);
      if Less(c.dialed, c.dialer) { LessAsymmetric(c.dialed, c.dialer); }
      if c in CallsWith(room - {x}, x) {
        var b :| b in room - {x} && b != x && c == if Less(b, x) then Call(x, b) else Call(b, x);
        LessTotal(b, x);
      }
    }
  }

  lemma CallsGrow(room: set<Pub>, x: Pub)
    requires x in room
    ensures |Calls(room)| == |Calls(room - {x})| + |room - {x}|
  {
    hide Calls, CallsWith;
    CallsSplit(room, x);
    CallsWithSize(room - {x}, x);
    UnionSize(Calls(room - {x}), CallsWith(room - {x}, x));
  }

  lemma UnionSize(a: set<Call>, b: set<Call>)
    requires a !! b
    ensures |a + b| == |a| + |b|
  {
  }

  function Pairs(n: nat): nat {
    if n == 0 then 0 else Pairs(n - 1) + n - 1
  }

  lemma {:induction false} PairsFormula(n: nat)
    ensures 2 * Pairs(n) == n * (n - 1)
  {
    if n > 0 {
      PairsFormula(n - 1);
    }
  }

  lemma {:induction false} CallsArePairs(room: set<Pub>)
    ensures |Calls(room)| == Pairs(|room|)
    decreases |room|
  {
    if room == {} {
      assert Calls(room) == {};
    } else {
      hide Calls;
      var x :| x in room;
      CallsArePairs(room - {x});
      CallsGrow(room, x);
    }
  }

  /** N clients that enter a room make N(N-1)/2 calls. */
  lemma CallCount(room: set<Pub>)
    ensures 2 * |Calls(room)| == |room| * (|room| - 1)
  {
    CallsArePairs(room);
    PairsFormula(|room|);
  }
}
