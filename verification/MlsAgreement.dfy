/**
 A channel with one committer and any number of other clients: proposals, commits and
 Welcomes arrive late, twice, in any order or not at all.
 */
module MlsAgreement {
  import opened Common
  import opened Mls

  /** A client's part in the channel: its group, and the key package of a join it has pending. */
  datatype Part = Part(group: Option<Group>, pending: Option<KeyPackage>)

  datatype Message = SentProposal(proposal: Proposal) | SentCommit(commit: Commit) | SentWelcome(welcome: Welcome)

  /** What all members of an epoch must agree on. */
  datatype Point = Point(roster: seq<KeyPackage>, chain: seq<Secret>)

  /**
   `head` is the committer's group. `history[e]` is what it was in epoch `e` and `commits[e]`
   led from there to `history[e + 1]`; `net` is everything ever sent.
   */
  datatype System = System(
    head: Group,
    history: seq<Point>,
    commits: seq<Commit>,
    net: set<Message>,
    clients: map<Pub, Part>)

  function Start(kp: KeyPackage, secret: Secret): System {
    System(Created(kp, secret), [Point([kp], [secret])], [], {}, map[])
  }

  /** How far the committer gets with a key package before something throws. */
  datatype Reached = ProposalNotStored | CommitThrew | CommitNotStored | Done

  datatype Event =
    | StartJoin(id: Pub, kp: KeyPackage)
    | OnKeyPackage(kp: KeyPackage, secret: Secret, reached: Reached)
    | OnProposal(id: Pub, proposal: Proposal)
    | OnCommit(id: Pub, commit: Commit, refused: bool)
    | OnWelcome(id: Pub, welcome: Welcome)
    | OnOwnProposal(proposal: Proposal)
    | OnOwnCommit(commit: Commit)

  /** Only what was sent can arrive. */
  predicate Possible(s: System, e: Event) {
    match e
    case OnProposal(_, p) => SentProposal(p) in s.net
    case OnCommit(_, c, _) => SentCommit(c) in s.net
    case OnWelcome(_, w) => SentWelcome(w) in s.net
    case OnOwnProposal(p) => SentProposal(p) in s.net
    case OnOwnCommit(c) => SentCommit(c) in s.net
    case _ => true
  }

  function ClientOf(s: System, id: Pub): Part {
    if id in s.clients then s.clients[id] else Part(None, None)
  }

  function SetGroup(s: System, id: Pub, g: Group): System {
    s.(clients := s.clients[id := ClientOf(s, id).(group := Some(g))])
  }

  /** Propose, tell the members, commit, then send the Welcome and the commit. */
  function AddMember(s: System, kp: KeyPackage, secret: Secret, reached: Reached): System {
    var proposed := ProposeAdd(s.head, kp);
    if !proposed.ok then s
    else
      var g := proposed.group;
      var s1 := s.(head := g);
      if reached == ProposalNotStored then s1
      else
        var s2 := s1.(net := s1.net + {SentProposal(Proposal(g.epoch, kp))});
        if reached == CommitThrew then s2
        else
          var g' := CommitPending(g, secret).group;
          var s3 := s2.(head := g', history := s2.history + [Point(g'.roster, g'.chain)],
            commits := s2.commits + [CommitFor(g, secret)]);
          if reached == CommitNotStored then s3
          else s3.(net := s3.net + {SentWelcome(WelcomeFor(g, secret)), SentCommit(CommitFor(g, secret))})
  }

  function Step(s: System, e: Event): System {
    match e
    case StartJoin(id, kp) =>
      var c := ClientOf(s, id);
      if c.pending.Some? then s else s.(clients := s.clients[id := c.(pending := Some(kp))])
    case OnKeyPackage(kp, secret, reached) => AddMember(s, kp, secret, reached)
    case OnProposal(id, p) =>
      var c := ClientOf(s, id);
      if c.group.None? then s else SetGroup(s, id, HandleProposal(c.group.value, WireProposal(p)).group)
    case OnCommit(id, commit, refused) =>
      var c := ClientOf(s, id);
      if c.group.None? || refused then s else SetGroup(s, id, ApplyCommit(c.group.value, WireCommit(commit)).group)
    case OnWelcome(id, w) =>
      var c := ClientOf(s, id);
      if c.pending.None? then s
      else
        var g := Complete(c.pending.value, w);
        if g.None? then s else s.(clients := s.clients[id := Part(g, None)])
    case OnOwnProposal(p) => s.(head := HandleProposal(s.head, WireProposal(p)).group)
    case OnOwnCommit(c) => s.(head := ApplyCommit(s.head, WireCommit(c)).group)
  }

  ghost predicate IsRun(ss: seq<System>, es: seq<Event>) {
    && |ss| == |es| + 1
    && (exists kp, secret :: ss[0] == Start(kp, secret))
    && forall i | 0 <= i < |es| :: Possible(ss[i], es[i]) && ss[i + 1] == Step(ss[i], es[i])
  }

  // ----- The invariant -----------------------------------------------------

  /** The group is in the state the committer's was in that epoch. */
  ghost predicate OnHistory(h: seq<Point>, epoch: nat, roster: seq<KeyPackage>, chain: seq<Secret>) {
    epoch < |h| && h[epoch] == Point(roster, chain)
  }

  /** A key package is a member from epoch `entry` on, and not before. */
  ghost predicate MemberSince(h: seq<Point>, kp: KeyPackage, entry: nat) {
    entry < |h| && forall e | 0 <= e < |h| :: kp in h[e].roster <==> e >= entry
  }

  ghost predicate Extends(h: seq<Point>, commits: seq<Commit>) {
    && |h| == |commits| + 1
    && forall e | 0 <= e < |commits| ::
         && commits[e].epoch == e
         && h[e + 1] == Point(h[e].roster + Adds(commits[e].refs), h[e].chain + [commits[e].secret])
         && (forall p | p in commits[e].refs :: p.epoch == e && p.kp !in h[e].roster)
  }

  ghost predicate HeadOk(s: System) {
    && s.head.epoch == |s.commits|
    && OnHistory(s.history, s.head.epoch, s.head.roster, s.head.chain)
    && forall p | p in s.head.staged :: p.epoch == s.head.epoch && p.kp !in s.head.roster
  }

  ghost predicate MessageOk(s: System, m: Message) {
    match m
    case SentProposal(p) =>
      && p.epoch < |s.history|
      && (p.epoch == s.head.epoch ==> p in s.head.staged)
    case SentCommit(c) => c in s.commits
    case SentWelcome(w) =>
      && OnHistory(s.history, w.epoch, w.roster, w.chain)
      && forall kp | kp in w.joiners :: MemberSince(s.history, kp, w.epoch)
  }

  ghost predicate MemberOk(s: System, g: Group) {
    && OnHistory(s.history, g.epoch, g.roster, g.chain)
    && (exists entry: nat :: entry <= g.epoch && MemberSince(s.history, g.own, entry))
    && forall p | p in g.staged :: p.epoch == g.epoch && SentProposal(p) in s.net
  }

  ghost predicate Inv(s: System) {
    && Extends(s.history, s.commits)
    && HeadOk(s)
    && (forall m | m in s.net :: MessageOk(s, m))
    && (forall id | id in s.clients && s.clients[id].group.Some? :: MemberOk(s, s.clients[id].group.value))
  }

  // ----- Preservation ------------------------------------------------------

  /** Rosters only grow. */
  lemma {:induction false} RosterGrows(h: seq<Point>, commits: seq<Commit>, i: nat, j: nat)
    requires Extends(h, commits) && i <= j < |h|
    ensures h[i].roster <= h[j].roster
  {
    if i < j {
      RosterGrows(h, commits, i, j - 1);
    }
  }

  lemma SinceExtends(h: seq<Point>, kp: KeyPackage, entry: nat, p: Point)
    requires MemberSince(h, kp, entry) && h[|h| - 1].roster <= p.roster
    ensures MemberSince(h + [p], kp, entry)
  {
    assert kp in h[|h| - 1].roster;
  }

  /** A key package that a commit adds is a member from the next epoch on. */
  lemma NewMemberSince(h: seq<Point>, commits: seq<Commit>, p: Point, kp: KeyPackage)
    requires Extends(h, commits) && kp !in h[|h| - 1].roster && kp in p.roster
    ensures MemberSince(h + [p], kp, |h|)
  {
    forall e | 0 <= e < |h|
      ensures kp !in h[e].roster
    {
      RosterGrows(h, commits, e, |h| - 1);
    }
  }

  /** The new message, and everything sent before, once the committer has moved on. */
  lemma AdvanceKeeps(s: System, secret: Secret)
    requires Inv(s)
    ensures var g' := CommitPending(s.head, secret).group;
            Inv(s.(head := g', history := s.history + [Point(g'.roster, g'.chain)],
              commits := s.commits + [CommitFor(s.head, secret)]))
  {
    var g' := CommitPending(s.head, secret).group;
    var p := Point(g'.roster, g'.chain);
    var s' := s.(head := g', history := s.history + [p], commits := s.commits + [CommitFor(s.head, secret)]);
    assert s.history[|s.history| - 1].roster <= p.roster;
    forall m | m in s.net
      ensures MessageOk(s', m)
    {
      if m.SentWelcome? {
        forall kp | kp in m.welcome.joiners
          ensures MemberSince(s'.history, kp, m.welcome.epoch)
        {
          SinceExtends(s.history, kp, m.welcome.epoch, p);
        }
      }
    }
    forall id | id in s.clients && s.clients[id].group.Some?
      ensures MemberOk(s', s.clients[id].group.value)
    {
      var g := s.clients[id].group.value;
      var entry: nat :| entry <= g.epoch && MemberSince(s.history, g.own, entry);
      SinceExtends(s.history, g.own, entry, p);
    }
  }

  lemma StagedKeeps(s: System, kp: KeyPackage, told: bool)
    requires Inv(s) && ProposeAdd(s.head, kp).ok
    ensures var g := ProposeAdd(s.head, kp).group;
            Inv(s.(head := g, net := if told then s.net + {SentProposal(Proposal(g.epoch, kp))} else s.net))
  {
    var g := ProposeAdd(s.head, kp).group;
    var s' := s.(head := g, net := if told then s.net + {SentProposal(Proposal(g.epoch, kp))} else s.net);
    assert forall m | m in s.net :: MessageOk(s', m);
    forall id | id in s.clients && s.clients[id].group.Some?
      ensures MemberOk(s', s.clients[id].group.value)
    {
      assert MemberOk(s, s.clients[id].group.value);
    }
  }

  lemma SendKeeps(s: System, ms: set<Message>)
    requires Inv(s) && forall m | m in ms :: MessageOk(s, m)
    ensures Inv(s.(net := s.net + ms))
  {
    var s' := s.(net := s.net + ms);
    assert forall m | m in s'.net :: MessageOk(s, m) && MessageOk(s', m);
    forall id | id in s.clients && s.clients[id].group.Some?
      ensures MemberOk(s', s.clients[id].group.value)
    {
      assert MemberOk(s, s.clients[id].group.value);
    }
  }

  lemma AddMemberKeeps(s: System, kp: KeyPackage, secret: Secret, reached: Reached)
    requires Inv(s)
    ensures Inv(AddMember(s, kp, secret, reached))
  {
    hide Inv;
    var proposed := ProposeAdd(s.head, kp);
    if proposed.ok {
      var g := proposed.group;
      StagedKeeps(s, kp, reached != ProposalNotStored);
      if reached == CommitNotStored || reached == Done {
        var s2 := s.(head := g, net := s.net + {SentProposal(Proposal(g.epoch, kp))});
        AdvanceKeeps(s2, secret);
        var g' := CommitPending(g, secret).group;
        var s3 := s2.(head := g', history := s2.history + [Point(g'.roster, g'.chain)],
          commits := s2.commits + [CommitFor(g, secret)]);
        WelcomeOk(s2, s3, secret);
        SendKeeps(s3, {SentWelcome(WelcomeFor(g, secret)), SentCommit(CommitFor(g, secret))});
      }
    }
  }

  /**
   What is left where an add stops. The proposal is staged in any case, and told unless it was not
   stored; the group has moved on once the commit was made, and only a commit that was stored is sent,
   together with the Welcome.
   */
  lemma AddMemberDoes(s: System, kp: KeyPackage, secret: Secret, reached: Reached)
    requires kp !in s.head.roster
    ensures var s', p := AddMember(s, kp, secret, reached), Proposal(s.head.epoch, kp);
            var made := reached == CommitNotStored || reached == Done;
            var staged := if p in s.head.staged then s.head.staged else s.head.staged + [p];
            var c := Commit(s.head.epoch, staged, secret);
            && s'.clients == s.clients
            && (if made
                then s'.head.epoch == s.head.epoch + 1 && s'.head.staged == [] && s'.commits == s.commits + [c]
                     && s'.head.chain == s.head.chain + [secret]
                else s'.head == s.head.(staged := staged) && s'.commits == s.commits)
            && (forall m :: m in s'.net <==>
                  || m in s.net
                  || (m == SentProposal(p) && reached != ProposalNotStored)
                  || (m == SentCommit(c) && reached == Done)
                  || (m.SentWelcome? && reached == Done && m.welcome == Welcome(
                        Adds(staged), s.head.epoch + 1, s.head.roster + Adds(staged), s.head.chain + [secret])))
  {
  }

  lemma WelcomeOk(s: System, s': System, secret: Secret)
    requires Inv(s)
    requires var g' := CommitPending(s.head, secret).group;
             s' == s.(head := g', history := s.history + [Point(g'.roster, g'.chain)],
               commits := s.commits + [CommitFor(s.head, secret)])
    ensures MessageOk(s', SentWelcome(WelcomeFor(s.head, secret)))
            && MessageOk(s', SentCommit(CommitFor(s.head, secret)))
  {
    var w := WelcomeFor(s.head, secret);
    var p := s'.history[|s.history|];
    forall kp | kp in w.joiners
      ensures MemberSince(s'.history, kp, w.epoch)
    {
      var i :| 0 <= i < |w.joiners| && w.joiners[i] == kp;
      assert s.head.staged[i].kp == kp && s.head.staged[i] in s.head.staged;
      assert p.roster[|s.head.roster| + i] == kp;
      NewMemberSince(s.history, s.commits, p, kp);
    }
  }

  /** Only the client's own part changed, and its group still is on the history. */
  lemma ClientKeeps(s: System, id: Pub, c: Part)
    requires Inv(s) && (c.group.Some? ==> MemberOk(s, c.group.value))
    ensures Inv(s.(clients := s.clients[id := c]))
  {
    var s' := s.(clients := s.clients[id := c]);
    assert forall m | m in s.net :: MessageOk(s, m) ==> MessageOk(s', m);
    forall i | i in s'.clients && s'.clients[i].group.Some?
      ensures MemberOk(s', s'.clients[i].group.value)
    {
      if i != id {
        assert MemberOk(s, s.clients[i].group.value);
      } else {
        assert MemberOk(s, c.group.value);
      }
    }
  }

  /** A commit that applies takes a member to the next point of the history. */
  lemma CommitFollows(s: System, g: Group, c: Commit)
    requires Inv(s) && MemberOk(s, g) && SentCommit(c) in s.net
    ensures MemberOk(s, ApplyCommit(g, WireCommit(c)).group)
  {
    assert MessageOk(s, SentCommit(c));
    if CommitApplies(g, c) {
      assert s.commits[c.epoch] == c;
    }
  }

  lemma ProposalStages(s: System, g: Group, p: Proposal)
    requires MemberOk(s, g) && SentProposal(p) in s.net
    ensures MemberOk(s, HandleProposal(g, WireProposal(p)).group)
  {
  }

  lemma StepKeeps(s: System, e: Event)
    requires Inv(s) && Possible(s, e)
    ensures Inv(Step(s, e))
  {
    hide MemberOk, HeadOk, MessageOk, Extends;
    match e
    case StartJoin(id, kp) => ClientKeeps(s, id, ClientOf(s, id).(pending := Some(kp)));
    case OnKeyPackage(kp, secret, reached) => AddMemberKeeps(s, kp, secret, reached);
    case OnProposal(id, p) =>
      var c := ClientOf(s, id);
      if c.group.Some? {
        ProposalStages(s, c.group.value, p);
        ClientKeeps(s, id, c.(group := Some(HandleProposal(c.group.value, WireProposal(p)).group)));
      }
    case OnCommit(id, commit, refused) =>
      var c := ClientOf(s, id);
      if c.group.Some? && !refused {
        CommitFollows(s, c.group.value, commit);
        ClientKeeps(s, id, c.(group := Some(ApplyCommit(c.group.value, WireCommit(commit)).group)));
      }
    case OnWelcome(id, w) =>
      var c := ClientOf(s, id);
      if c.pending.Some? && Complete(c.pending.value, w).Some? {
        JoinOk(s, c.pending.value, w);
        ClientKeeps(s, id, Part(Complete(c.pending.value, w), None));
      }
    case OnOwnProposal(p) => OwnProposalKeeps(s, p);
    case OnOwnCommit(c) => OwnCommitRefused(s, c);
  }

  lemma JoinOk(s: System, kp: KeyPackage, w: Welcome)
    requires Inv(s) && SentWelcome(w) in s.net && kp in w.joiners
    ensures MemberOk(s, Complete(kp, w).value)
  {
    assert MessageOk(s, SentWelcome(w));
  }

  /** The committer has always moved past its own commits. */
  lemma OwnCommitRefused(s: System, c: Commit)
    requires Inv(s) && SentCommit(c) in s.net
    ensures ApplyCommit(s.head, WireCommit(c)) == Effect(s.head, false)
  {
    assert MessageOk(s, SentCommit(c));
  }

  /** A proposal of its own that comes back is either stale or already staged. */
  lemma OwnProposalKeeps(s: System, p: Proposal)
    requires Inv(s) && SentProposal(p) in s.net
    ensures HandleProposal(s.head, WireProposal(p)).group == s.head
  {
    assert MessageOk(s, SentProposal(p));
  }

  // ----- Theorems ----------------------------------------------------------

  lemma {:induction false} RunKeeps(ss: seq<System>, es: seq<Event>, n: nat)
    requires IsRun(ss, es) && n < |ss|
    ensures Inv(ss[n])
  {
    if n == 0 {
      var kp, secret :| ss[0] == Start(kp, secret);
    } else {
      RunKeeps(ss, es, n - 1);
      StepKeeps(ss[n - 1], es[n - 1]);
    }
  }

  /**
   In every reachable state every member's epoch, roster and key schedule are a point the
   committer itself was at, and the member is on the roster it sees.
   */
  lemma EveryMemberIsOnHistory(ss: seq<System>, es: seq<Event>, n: nat, id: Pub)
    requires IsRun(ss, es) && n < |ss| && ClientOf(ss[n], id).group.Some?
    ensures var g := ClientOf(ss[n], id).group.value;
            && g.epoch <= ss[n].head.epoch
            && OnHistory(ss[n].history, g.epoch, g.roster, g.chain)
            && g.own in g.roster
            && (g.epoch == ss[n].head.epoch ==> g.roster == ss[n].head.roster && g.chain == ss[n].head.chain)
  {
    RunKeeps(ss, es, n);
  }

  /** Two members of the same epoch agree. */
  lemma MembersAgree(ss: seq<System>, es: seq<Event>, n: nat, a: Pub, b: Pub)
    requires IsRun(ss, es) && n < |ss|
    requires ClientOf(ss[n], a).group.Some? && ClientOf(ss[n], b).group.Some?
    ensures var g, h := ClientOf(ss[n], a).group.value, ClientOf(ss[n], b).group.value;
            && (g.epoch == h.epoch ==> g.roster == h.roster && g.chain == h.chain)
            && (g.epoch <= h.epoch ==> g.roster <= h.roster)
  {
    RunKeeps(ss, es, n);
    var g, h := ClientOf(ss[n], a).group.value, ClientOf(ss[n], b).group.value;
    if g.epoch <= h.epoch {
      RosterGrows(ss[n].history, ss[n].commits, g.epoch, h.epoch);
    }
  }

  /** A join that completes enters at the epoch the Welcome was made for, which is the epoch that added it. */
  lemma JoinsAtItsWelcome(ss: seq<System>, es: seq<Event>, n: nat, id: Pub, w: Welcome)
    requires IsRun(ss, es) && n < |es| && es[n] == OnWelcome(id, w)
    requires ClientOf(ss[n], id).pending.Some? && ClientOf(ss[n], id).pending.value in w.joiners
    ensures var g := ClientOf(ss[n + 1], id).group;
            && g.Some? && g.value.epoch == w.epoch && g.value.own == ClientOf(ss[n], id).pending.value
            && OnHistory(ss[n + 1].history, w.epoch, g.value.roster, g.value.chain)
            && MemberSince(ss[n + 1].history, g.value.own, w.epoch)
  {
    RunKeeps(ss, es, n);
    assert MessageOk(ss[n], SentWelcome(w));
  }

  // ----- Catching up -------------------------------------------------------

  /** The commit that ended epoch `e` was sent, and so was every proposal it names. */
  predicate Deliverable(s: System, e: nat)
    requires e < |s.commits|
  {
    SentCommit(s.commits[e]) in s.net && forall p | p in s.commits[e].refs :: SentProposal(p) in s.net
  }

  function FeedProposals(g: Group, ps: seq<Proposal>): Group {
    if ps == [] then g else HandleProposal(FeedProposals(g, ps[..|ps| - 1]), WireProposal(ps[|ps| - 1])).group
  }

  lemma {:induction false} FedAreStaged(g: Group, ps: seq<Proposal>)
    requires forall p | p in ps :: p.epoch == g.epoch && p.kp !in g.roster
    ensures var f := FeedProposals(g, ps);
            f == g.(staged := f.staged) && forall p | p in ps :: p in f.staged
  {
    if ps != [] {
      FedAreStaged(g, ps[..|ps| - 1]);
      assert forall p | p in ps :: p in ps[..|ps| - 1] || p == ps[|ps| - 1];
    }
  }

  /** A member that is given the next commit after the proposals it names is at the next point. */
  lemma NextPoint(s: System, g: Group)
    requires Inv(s) && OnHistory(s.history, g.epoch, g.roster, g.chain) && g.epoch < |s.commits|
    ensures var c := s.commits[g.epoch];
            var f := ApplyCommit(FeedProposals(g, c.refs), WireCommit(c)).group;
            f.epoch == g.epoch + 1 && OnHistory(s.history, f.epoch, f.roster, f.chain)
  {
    hide FeedProposals, HeadOk, MessageOk, MemberOk;
    FedAreStaged(g, s.commits[g.epoch].refs);
  }

  /** What a sequence of events does from a given state, and that each of them can happen. */
  function After(s: System, es: seq<Event>): System {
    if es == [] then s else Step(After(s, es[..|es| - 1]), es[|es| - 1])
  }

  predicate AllPossible(s: System, es: seq<Event>) {
    es == [] || (AllPossible(s, es[..|es| - 1]) && Possible(After(s, es[..|es| - 1]), es[|es| - 1]))
  }

  /** No Welcome is given to the member. */
  predicate Unwelcomed(es: seq<Event>, id: Pub) {
    forall e | e in es :: !(e.OnWelcome? && e.id == id)
  }

  ghost predicate Reaches(s: System, s': System, id: Pub) {
    exists es :: AllPossible(s, es) && Unwelcomed(es, id) && After(s, es) == s'
  }

  lemma ReachesItself(s: System, id: Pub)
    ensures Reaches(s, s, id)
  {
    assert AllPossible(s, []) && Unwelcomed([], id) && After(s, []) == s;
  }

  lemma ReachesNext(s: System, s': System, id: Pub, e: Event)
    requires Reaches(s, s', id) && Possible(s', e) && !(e.OnWelcome? && e.id == id)
    ensures Reaches(s, Step(s', e), id)
  {
    var es :| AllPossible(s, es) && Unwelcomed(es, id) && After(s, es) == s';
    assert (es + [e])[..|es|] == es;
    assert AllPossible(s, es + [e]) && Unwelcomed(es + [e], id) && After(s, es + [e]) == Step(s', e);
  }

  lemma {:induction false} ReachesFed(s: System, s': System, id: Pub, ps: seq<Proposal>)
    requires Reaches(s, s', id) && ClientOf(s', id).group.Some? && forall p | p in ps :: SentProposal(p) in s'.net
    ensures Reaches(s, SetGroup(s', id, FeedProposals(ClientOf(s', id).group.value, ps)), id)
  {
    hide Reaches;
    var g := ClientOf(s', id).group.value;
    if ps == [] {
      assert SetGroup(s', id, g) == s';
    } else {
      var ps0, p := ps[..|ps| - 1], ps[|ps| - 1];
      ReachesFed(s, s', id, ps0);
      var s0 := SetGroup(s', id, FeedProposals(g, ps0));
      ReachesNext(s, s0, id, OnProposal(id, p));
      assert Step(s0, OnProposal(id, p)) == SetGroup(s', id, FeedProposals(g, ps));
    }
  }

  /**
   When all that ended the epochs since its own was sent, some deliveries bring a member to where
   the committer is.
   */
  lemma {:induction false} CatchesUp(s: System, id: Pub, g: Group, k: nat)
    requires Inv(s) && Reaches(s, SetGroup(s, id, g), id)
    requires OnHistory(s.history, g.epoch, g.roster, g.chain) && g.epoch + k == |s.commits|
    requires forall e | g.epoch <= e < |s.commits| :: Deliverable(s, e)
    ensures exists f: Group ::
              && Reaches(s, SetGroup(s, id, f), id)
              && f.epoch == s.head.epoch && f.roster == s.head.roster && f.chain == s.head.chain
    decreases k
  {
    hide Reaches, FeedProposals, ApplyCommit;
    if k == 0 {
      assert g.epoch == s.head.epoch && g.roster == s.head.roster && g.chain == s.head.chain;
    } else {
      hide Inv;
      var c := s.commits[g.epoch];
      assert Deliverable(s, g.epoch);
      var s0 := SetGroup(s, id, g);
      ReachesFed(s, s0, id, c.refs);
      var fed := FeedProposals(g, c.refs);
      var s1 := SetGroup(s, id, fed);
      assert SetGroup(s0, id, fed) == s1;
      ReachesNext(s, s1, id, OnCommit(id, c, false));
      var next := ApplyCommit(fed, WireCommit(c)).group;
      assert Step(s1, OnCommit(id, c, false)) == SetGroup(s, id, next);
      NextPoint(s, g);
      CatchesUp(s, id, next, k - 1);
    }
  }

  /** Some epoch from the member's own on is over, and something that ended it was never sent. */
  predicate Gap(s: System, id: Pub, e: nat) {
    var g := ClientOf(s, id).group;
    g.Some? && g.value.epoch <= e < |s.commits| && !Deliverable(s, e)
  }

  /** One step of `StuckForever`. */
  lemma StaysBehind(s: System, ev: Event, id: Pub, e: nat)
    requires Inv(s) && Possible(s, ev) && Gap(s, id, e)
    requires !(ev.OnWelcome? && ev.id == id)
    ensures Gap(Step(s, ev), id, e)
    ensures ClientOf(s, id).group.value.epoch <= ClientOf(Step(s, ev), id).group.value.epoch
  {
    var g := ClientOf(s, id).group.value;
    assert MemberOk(s, g);
    match ev
    case OnKeyPackage(kp, secret, reached) =>
      SentLater(s, kp, secret, reached, e);
    case OnCommit(i, c, refused) =>
      if CommitApplies(g, c) {
        NeedsBoth(s, g, c);
      }
    case _ =>
  }

  lemma NeedsBoth(s: System, g: Group, c: Commit)
    requires Inv(s) && MemberOk(s, g) && SentCommit(c) in s.net && CommitApplies(g, c)
    ensures g.epoch < |s.commits| && Deliverable(s, g.epoch)
  {
    assert MessageOk(s, SentCommit(c));
  }

  /**
   Once the commit that ended an epoch, or a proposal that commit names, was not sent, only a new
   Welcome takes a member past that epoch; when the epoch is its own it does not move at all.
   */
  lemma {:induction false} StuckForever(ss: seq<System>, es: seq<Event>, m: nat, n: nat, id: Pub, e: nat)
    requires IsRun(ss, es) && m <= n < |ss| && Gap(ss[m], id, e)
    requires forall i | m <= i < n :: !(es[i].OnWelcome? && es[i].id == id)
    ensures Gap(ss[n], id, e)
    ensures ClientOf(ss[m], id).group.value.epoch <= ClientOf(ss[n], id).group.value.epoch <= e
  {
    if m < n {
      StuckForever(ss, es, m, n - 1, id, e);
      RunKeeps(ss, es, n - 1);
      hide Step;
      StaysBehind(ss[n - 1], es[n - 1], id, e);
    }
  }

  /** The same from any state and over any events that can follow it. */
  lemma {:induction false} GapStays(s: System, es: seq<Event>, id: Pub, e: nat)
    requires Inv(s) && AllPossible(s, es) && Unwelcomed(es, id) && Gap(s, id, e)
    ensures Inv(After(s, es)) && Gap(After(s, es), id, e)
  {
    if es != [] {
      var es0, ev := es[..|es| - 1], es[|es| - 1];
      GapStays(s, es0, id, e);
      hide Step, Inv;
      StepKeeps(After(s, es0), ev);
      StaysBehind(After(s, es0), ev, id, e);
    }
  }

  /** Without a new Welcome the member can still come to the epoch the committer is in. */
  ghost predicate CanCatchUp(s: System, id: Pub) {
    exists s' ::
      && Reaches(s, s', id)
      && ClientOf(s', id).group.Some? && ClientOf(s', id).group.value.epoch >= s.head.epoch
  }

  /**
   In every reachable state a member can catch up without a new Welcome if and only if, for each
   epoch from its own to the present one, the commit that ended it and the proposals that commit
   names were sent; and then some deliveries take it to the committer's very roster and secrets.
   */
  lemma CatchesUpIff(ss: seq<System>, es: seq<Event>, n: nat, id: Pub)
    requires IsRun(ss, es) && n < |ss| && ClientOf(ss[n], id).group.Some?
    ensures ss[n].head.epoch == |ss[n].commits|
    ensures CanCatchUp(ss[n], id) <==>
            forall e | ClientOf(ss[n], id).group.value.epoch <= e < ss[n].head.epoch :: Deliverable(ss[n], e)
    ensures CanCatchUp(ss[n], id) ==>
              exists f: Group ::
                && Reaches(ss[n], SetGroup(ss[n], id, f), id)
                && f.epoch == ss[n].head.epoch && f.roster == ss[n].head.roster && f.chain == ss[n].head.chain
  {
    RunKeeps(ss, es, n);
    var s := ss[n];
    var g := ClientOf(s, id).group.value;
    assert MemberOk(s, g) && s.head.epoch == |s.commits|;
    if forall e | g.epoch <= e < |s.commits| :: Deliverable(s, e) {
      ReachesItself(s, id);
      assert SetGroup(s, id, g) == s;
      CatchesUp(s, id, g, |s.commits| - g.epoch);
      var f: Group :| Reaches(s, SetGroup(s, id, f), id) && f.epoch == s.head.epoch && f.roster == s.head.roster
        && f.chain == s.head.chain;
      assert ClientOf(SetGroup(s, id, f), id).group == Some(f);
    } else {
      var e: nat :| g.epoch <= e < |s.commits| && !Deliverable(s, e);
      assert Gap(s, id, e);
      forall s' | Reaches(s, s', id)
        ensures Gap(s', id, e)
      {
        var later :| AllPossible(s, later) && Unwelcomed(later, id) && After(s, later) == s';
        GapStays(s, later, id, e);
      }
    }
  }

  /** The committer of a state with nothing staged adds a member and gets through. */
  lemma AddMemberIs(s: System, kp: KeyPackage, secret: Secret)
    requires s.head.staged == [] && kp !in s.head.roster
    ensures var g, p := s.head, Proposal(s.head.epoch, kp);
            var w := Welcome([kp], g.epoch + 1, g.roster + [kp], g.chain + [secret]);
            AddMember(s, kp, secret, Done) == System(
              Group(g.own, g.epoch + 1, g.roster + [kp], g.chain + [secret], []),
              s.history + [Point(g.roster + [kp], g.chain + [secret])],
              s.commits + [Commit(g.epoch, [p], secret)],
              s.net + {SentProposal(p), SentWelcome(w), SentCommit(Commit(g.epoch, [p], secret))},
              s.clients)
  {
    var g := ProposeAdd(s.head, kp).group;
    assert g.staged == [Proposal(s.head.epoch, kp)];
    assert Adds(g.staged) == [kp];
  }

  /** The committer adds one member, which takes its Welcome. */
  lemma FirstMember(id: Pub, own: KeyPackage, kp: KeyPackage, s0: Secret, s1: Secret)
    returns (ss: seq<System>, es: seq<Event>)
    requires own != kp
    ensures IsRun(ss, es) && |es| == 3 && |ss[3].commits| == 1
    ensures ClientOf(ss[3], id).group.Some? && ClientOf(ss[3], id).group.value.epoch == 1
    ensures ss[3].head == Group(own, 1, [own, kp], [s0, s1], [])
    ensures forall p | SentProposal(p) in ss[3].net :: p.epoch == 0
  {
    hide AddMember;
    var a := Start(own, s0);
    var b := Step(a, StartJoin(id, kp));
    AddMemberIs(b, kp, s1);
    var c := Step(b, OnKeyPackage(kp, s1, Done));
    assert [own] + [kp] == [own, kp] && [s0] + [s1] == [s0, s1];
    var w := Welcome([kp], 1, [own, kp], [s0, s1]);
    es := [StartJoin(id, kp), OnKeyPackage(kp, s1, Done), OnWelcome(id, w)];
    ss := [a, b, c, Step(c, es[2])];
  }

  /** A commit that names a proposal nobody was told of. */
  lemma UntoldIsCommitted(s: System, x: KeyPackage, y: KeyPackage, sx: Secret, sy: Secret)
    requires s.head.staged == [] && x != y && x !in s.head.roster && y !in s.head.roster
    requires SentProposal(Proposal(s.head.epoch, x)) !in s.net
    ensures var s1 := AddMember(s, x, sx, ProposalNotStored);
            var s2 := AddMember(s1, y, sy, Done);
            && s2.clients == s.clients
            && (exists c :: s2.commits == s.commits + [c] && Proposal(s.head.epoch, x) in c.refs)
            && SentProposal(Proposal(s.head.epoch, x)) !in s2.net
  {
    var p, q := Proposal(s.head.epoch, x), Proposal(s.head.epoch, y);
    var s1 := AddMember(s, x, sx, ProposalNotStored);
    assert s1 == s.(head := s.head.(staged := [p]));
    var s2 := AddMember(s1, y, sy, Done);
    var refs := [p] + [q];
    assert s2.commits == s.commits + [Commit(s.head.epoch, refs, sy)] && refs[0] == p;
  }

  /**
   An add whose proposal was staged but not stored leaves a proposal that nobody is told of. The
   next add, which gets through, commits it too: the member is then left behind for good.
   */
  lemma StrandedRun(id: Pub, ks: seq<KeyPackage>, s0: Secret, s1: Secret, sx: Secret, sy: Secret)
    returns (ss: seq<System>, es: seq<Event>)
    requires |ks| == 4 && forall i, j | 0 <= i < j < 4 :: ks[i] != ks[j]
    ensures IsRun(ss, es) && |es| == 5
    ensures es[3..] == [OnKeyPackage(ks[2], sx, ProposalNotStored), OnKeyPackage(ks[3], sy, Done)]
    ensures ClientOf(ss[3], id).group.Some? && ClientOf(ss[3], id).group.value.epoch == ss[3].head.epoch
    ensures ClientOf(ss[5], id) == ClientOf(ss[3], id) && !CanCatchUp(ss[5], id)
  {
    hide AddMember, CanCatchUp;
    var ss0, es0 := FirstMember(id, ks[0], ks[1], s0, s1);
    es := es0 + [OnKeyPackage(ks[2], sx, ProposalNotStored), OnKeyPackage(ks[3], sy, Done)];
    var d := Step(ss0[3], es[3]);
    ss := ss0 + [d, Step(d, es[4])];
    UntoldIsCommitted(ss0[3], ks[2], ks[3], sx, sy);
    assert !Deliverable(ss[5], 1);
    CatchesUpIff(ss, es, 5, id);
  }

  /** Nothing of an epoch that is over is sent any more. */
  lemma SentLater(s: System, kp: KeyPackage, secret: Secret, reached: Reached, e: nat)
    requires Inv(s) && e < |s.commits|
    ensures var s' := AddMember(s, kp, secret, reached);
            e < |s'.commits| && s'.clients == s.clients && Deliverable(s', e) == Deliverable(s, e)
  {
    var s' := AddMember(s, kp, secret, reached);
    assert s'.commits[e] == s.commits[e];
    assert SentCommit(s.commits[e]) in s'.net <==> SentCommit(s.commits[e]) in s.net;
    forall p | p in s.commits[e].refs
      ensures SentProposal(p) in s'.net <==> SentProposal(p) in s.net
    {
      assert p.epoch == e;
    }
  }

  // ----- Two committers ----------------------------------------------------

  /** Deliver each commit after the proposals it names. */
  function Follow(g: Group, cs: seq<Commit>): Group {
    if cs == [] then g
    else
      var c := cs[|cs| - 1];
      ApplyCommit(FeedProposals(Follow(g, cs[..|cs| - 1]), c.refs), WireCommit(c)).group
  }

  /** Any commits a member applies afterwards only append to its roster. */
  lemma {:induction false} FollowAppends(g: Group, cs: seq<Commit>)
    ensures g.roster <= Follow(g, cs).roster && g.epoch <= Follow(g, cs).epoch
  {
    if cs != [] {
      FollowAppends(g, cs[..|cs| - 1]);
      FeedKeeps(Follow(g, cs[..|cs| - 1]), cs[|cs| - 1].refs);
    }
  }

  lemma {:induction false} FeedKeeps(g: Group, ps: seq<Proposal>)
    ensures var f := FeedProposals(g, ps); f == g.(staged := f.staged)
  {
    if ps != [] {
      FeedKeeps(g, ps[..|ps| - 1]);
    }
  }

  /**
   With two committers agreement fails: members in the same state that each add someone else
   are then in the same epoch with different rosters, refuse each other's commit, and no
   later commits bring their rosters together.
   */
  lemma TwoCommittersFork(
    g: Group, a: Group, x: KeyPackage, y: KeyPackage, sx: Secret, sy: Secret, cs: seq<Commit>, ds: seq<Commit>)
    requires a == g.(own := a.own) && g.staged == [] && x != y && x !in g.roster && y !in g.roster
    ensures var gx, ay := ProposeAdd(g, x).group, ProposeAdd(a, y).group;
            var g', a' := CommitPending(gx, sx).group, CommitPending(ay, sy).group;
            && g'.epoch == a'.epoch && g'.roster != a'.roster
            && !ApplyCommit(g', WireCommit(CommitFor(ay, sy))).ok
            && !ApplyCommit(a', WireCommit(CommitFor(gx, sx))).ok
            && Follow(g', cs).roster != Follow(a', ds).roster
  {
    var g' := CommitPending(ProposeAdd(g, x).group, sx).group;
    var a' := CommitPending(ProposeAdd(a, y).group, sy).group;
    FollowAppends(g', cs);
    FollowAppends(a', ds);
    assert g'.roster[|g.roster|] == x && a'.roster[|g.roster|] == y;
  }
}
