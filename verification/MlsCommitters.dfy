/**
 A channel in which any member commits, as every client that holds a group does when a key
 package arrives. Agreement then is a matter of the commits that were made.
 */
module MlsCommitters {
  import opened Common
  import opened Mls
  import opened MlsAgreement

  /** `made` is every commit ever made, sent or not. */
  datatype World = World(clients: map<Pub, Part>, net: set<Message>, made: set<Commit>)

  datatype Move =
    | Begin(id: Pub, kp: KeyPackage)
    | Add(id: Pub, kp: KeyPackage, secret: Secret, reached: Reached)
    | TakeProposal(id: Pub, proposal: Proposal)
    | TakeCommit(id: Pub, commit: Commit, refused: bool)
    | TakeWelcome(id: Pub, welcome: Welcome)

  function Creation(id: Pub, kp: KeyPackage, secret: Secret): World {
    World(map[id := Part(Some(Created(kp, secret)), None)], {}, {})
  }

  function Of(w: World, id: Pub): Part {
    if id in w.clients then w.clients[id] else Part(None, None)
  }

  function Set(w: World, id: Pub, g: Group): World {
    w.(clients := w.clients[id := Of(w, id).(group := Some(g))])
  }

  predicate CanMove(w: World, m: Move) {
    match m
    case TakeProposal(_, p) => SentProposal(p) in w.net
    case TakeCommit(_, c, _) => SentCommit(c) in w.net
    case TakeWelcome(_, x) => SentWelcome(x) in w.net
    case _ => true
  }

  /** The inviter's handler at any client: propose, tell, commit, send. */
  function AddAt(w: World, id: Pub, kp: KeyPackage, secret: Secret, reached: Reached): World {
    var c := Of(w, id);
    if c.group.None? || !ProposeAdd(c.group.value, kp).ok then w
    else
      var g := ProposeAdd(c.group.value, kp).group;
      var w1 := Set(w, id, g);
      if reached == ProposalNotStored then w1
      else
        var w2 := w1.(net := w1.net + {SentProposal(Proposal(g.epoch, kp))});
        if reached == CommitThrew then w2
        else
          var commit := CommitFor(g, secret);
          var w3 := Set(w2, id, CommitPending(g, secret).group).(made := w2.made + {commit});
          if reached == CommitNotStored then w3
          else w3.(net := w3.net + {SentWelcome(WelcomeFor(g, secret)), SentCommit(commit)})
  }

  function Moved(w: World, m: Move): World {
    match m
    case Begin(id, kp) =>
      if Of(w, id).pending.Some? then w else w.(clients := w.clients[id := Of(w, id).(pending := Some(kp))])
    case Add(id, kp, secret, reached) => AddAt(w, id, kp, secret, reached)
    case TakeProposal(id, p) =>
      var c := Of(w, id);
      if c.group.None? then w else Set(w, id, HandleProposal(c.group.value, WireProposal(p)).group)
    case TakeCommit(id, commit, refused) =>
      var c := Of(w, id);
      if c.group.None? || refused then w else Set(w, id, ApplyCommit(c.group.value, WireCommit(commit)).group)
    case TakeWelcome(id, x) =>
      var c := Of(w, id);
      if c.pending.None? || Complete(c.pending.value, x).None? then w
      else w.(clients := w.clients[id := Part(Complete(c.pending.value, x), None)])
  }

  ghost predicate IsHistory(ws: seq<World>, ms: seq<Move>) {
    && |ws| == |ms| + 1
    && (exists id: Pub, kp: KeyPackage, secret: Secret :: ws[0] == Creation(id, kp, secret))
    && forall i | 0 <= i < |ms| :: CanMove(ws[i], ms[i]) && ws[i + 1] == Moved(ws[i], ms[i])
  }

  ghost predicate OnePerEpoch(made: set<Commit>) {
    forall c, d | c in made && d in made && c.epoch == d.epoch :: c == d
  }

  predicate Same(g: Group, h: Group) {
    g.epoch == h.epoch ==> g.roster == h.roster && g.chain == h.chain
  }

  /** Any two groups ever held in the same epoch, by whomever and whenever, agree. */
  ghost predicate Agreement(ws: seq<World>) {
    forall i, j, a, b | 0 <= i < |ws| && 0 <= j < |ws| && Of(ws[i], a).group.Some? && Of(ws[j], b).group.Some? ::
      Same(Of(ws[i], a).group.value, Of(ws[j], b).group.value)
  }

  /** At whatever client it runs, the handler does to the client's group and to the network what it does at the head. */
  lemma AddAtIsAddMember(w: World, s: System, id: Pub, kp: KeyPackage, secret: Secret, reached: Reached)
    requires Of(w, id).group == Some(s.head) && s.net == w.net
    ensures var w', s' := AddAt(w, id, kp, secret, reached), AddMember(s, kp, secret, reached);
            && Of(w', id).group == Some(s'.head) && w'.net == s'.net
            && (forall i | i != id :: Of(w', i) == Of(w, i))
            && (forall c :: c in w'.made <==> c in w.made || c in s'.commits[|s.commits|..])
  {
    var w', s' := AddAt(w, id, kp, secret, reached), AddMember(s, kp, secret, reached);
    if |s'.commits| == |s.commits| {
      assert s'.commits[|s.commits|..] == [];
    } else {
      var c := CommitFor(ProposeAdd(s.head, kp).group, secret);
      assert s'.commits[|s.commits|..] == [c];
    }
  }

  // ----- One commit per epoch is enough ------------------------------------

  ghost predicate Ended(made: set<Commit>, e: nat) {
    exists c :: c in made && c.epoch == e
  }

  /** All the epochs before `e` were ended by a commit. */
  ghost predicate Leads(made: set<Commit>, e: nat) {
    forall i: nat | i < e :: Ended(made, i)
  }

  ghost function CommitOf(made: set<Commit>, e: nat): (c: Commit)
    requires Ended(made, e)
    ensures c in made && c.epoch == e
  {
    var c :| c in made && c.epoch == e;
    c
  }

  /** Where the commits lead from the point `start`. */
  ghost function PointOf(start: Point, made: set<Commit>, e: nat): Point
    requires Leads(made, e)
  {
    if e == 0 then start
    else
      var p, c := PointOf(start, made, e - 1), CommitOf(made, e - 1);
      Point(p.roster + Adds(c.refs), p.chain + [c.secret])
  }

  /** The group is where the commits lead. */
  ghost predicate OnPath(start: Point, made: set<Commit>, epoch: nat, roster: seq<KeyPackage>, chain: seq<Secret>) {
    Leads(made, epoch) && PointOf(start, made, epoch) == Point(roster, chain)
  }

  /** Seen from the end of the history, when `made` is complete. */
  ghost predicate Followed(start: Point, made: set<Commit>, w: World) {
    && w.made <= made
    && (forall c | SentCommit(c) in w.net :: c in made)
    && (forall x | SentWelcome(x) in w.net :: OnPath(start, made, x.epoch, x.roster, x.chain))
    && (forall id | id in w.clients && w.clients[id].group.Some? ::
          var g := w.clients[id].group.value;
          OnPath(start, made, g.epoch, g.roster, g.chain))
  }

  lemma PathStep(start: Point, made: set<Commit>, g: Group, c: Commit)
    requires OnePerEpoch(made) && c in made && c.epoch == g.epoch && OnPath(start, made, g.epoch, g.roster, g.chain)
    ensures var h := Advance(g, c.refs, c.secret); OnPath(start, made, h.epoch, h.roster, h.chain)
  {
    assert Leads(made, g.epoch + 1);
    assert CommitOf(made, g.epoch) == c;
  }

  lemma SetFollows(start: Point, made: set<Commit>, w: World, id: Pub, g: Group)
    requires Followed(start, made, w) && OnPath(start, made, g.epoch, g.roster, g.chain)
    ensures Followed(start, made, Set(w, id, g))
  {
    hide OnPath;
  }

  lemma MoveFollows(start: Point, made: set<Commit>, w: World, m: Move)
    requires OnePerEpoch(made) && Followed(start, made, w) && CanMove(w, m) && Moved(w, m).made <= made
    ensures Followed(start, made, Moved(w, m))
  {
    hide OnPath, OnePerEpoch;
    match m
    case Begin(id, kp) =>
    case Add(id, kp, secret, reached) => AddFollows(start, made, w, id, kp, secret, reached);
    case TakeProposal(id, p) =>
      var c := Of(w, id);
      if c.group.Some? {
        SetFollows(start, made, w, id, HandleProposal(c.group.value, WireProposal(p)).group);
      }
    case TakeCommit(id, commit, refused) =>
      var c := Of(w, id);
      if c.group.Some? && !refused {
        if CommitApplies(c.group.value, commit) {
          PathStep(start, made, c.group.value, commit);
        }
        SetFollows(start, made, w, id, ApplyCommit(c.group.value, WireCommit(commit)).group);
      }
    case TakeWelcome(id, x) =>
  }

  lemma AddFollows(start: Point, made: set<Commit>, w: World, id: Pub, kp: KeyPackage, secret: Secret, reached: Reached)
    requires OnePerEpoch(made) && Followed(start, made, w) && AddAt(w, id, kp, secret, reached).made <= made
    ensures Followed(start, made, AddAt(w, id, kp, secret, reached))
  {
    hide OnPath, OnePerEpoch;
    var c := Of(w, id);
    if c.group.Some? && ProposeAdd(c.group.value, kp).ok {
      var g := ProposeAdd(c.group.value, kp).group;
      SetFollows(start, made, w, id, g);
      if reached == CommitNotStored || reached == Done {
        var commit := CommitFor(g, secret);
        assert commit in made;
        PathStep(start, made, g, commit);
        var w2 := Set(w, id, g).(net := w.net + {SentProposal(Proposal(g.epoch, kp))});
        SetFollows(start, made, w2, id, CommitPending(g, secret).group);
      }
    }
  }

  lemma {:induction false} HistoryFollows(ws: seq<World>, ms: seq<Move>, start: Point, n: nat)
    requires IsHistory(ws, ms) && n < |ws| && OnePerEpoch(ws[|ms|].made)
    requires exists id: Pub, kp: KeyPackage, secret: Secret ::
               ws[0] == Creation(id, kp, secret) && start == Point([kp], [secret])
    ensures Followed(start, ws[|ms|].made, ws[n])
  {
    MadeGrows(ws, ms, n, |ms|);
    if n > 0 {
      HistoryFollows(ws, ms, start, n - 1);
      hide Followed, OnePerEpoch;
      MoveFollows(start, ws[|ms|].made, ws[n - 1], ms[n - 1]);
    }
  }

  lemma {:induction false} MadeGrows(ws: seq<World>, ms: seq<Move>, i: nat, j: nat)
    requires IsHistory(ws, ms) && i <= j < |ws|
    ensures ws[i].made <= ws[j].made
  {
    if i < j {
      MadeGrows(ws, ms, i, j - 1);
    }
  }

  // ----- And it is needed --------------------------------------------------

  /** Staged proposals are of the group's own epoch. */
  ghost predicate Tidy(w: World) {
    forall id, p | id in w.clients && w.clients[id].group.Some? && p in w.clients[id].group.value.staged ::
      p.epoch == w.clients[id].group.value.epoch
  }

  lemma MoveTidy(w: World, m: Move)
    requires Tidy(w)
    ensures Tidy(Moved(w, m))
  {
    var w' := Moved(w, m);
    forall id | id in w'.clients && (id !in w.clients || w'.clients[id] != w.clients[id])
      ensures id == m.id
    {
    }
    if Of(w', m.id).group.Some? {
      assert forall p | p in Of(w', m.id).group.value.staged :: p.epoch == Of(w', m.id).group.value.epoch;
    }
  }

  lemma {:induction false} HistoryTidy(ws: seq<World>, ms: seq<Move>, n: nat)
    requires IsHistory(ws, ms) && n < |ws|
    ensures Tidy(ws[n])
  {
    if n > 0 {
      HistoryTidy(ws, ms, n - 1);
      MoveTidy(ws[n - 1], ms[n - 1]);
      hide Moved;
    }
  }

  /** The commit takes a client from its own epoch to the next. */
  ghost predicate MadeBy(w: World, w': World, id: Pub, c: Commit) {
    && Of(w, id).group.Some? && Of(w', id).group.Some?
    && var g, h := Of(w, id).group.value, Of(w', id).group.value;
       && g.epoch == c.epoch && h.epoch == c.epoch + 1
       && h.roster == g.roster + Adds(c.refs) && h.chain == g.chain + [c.secret]
       && forall p | p in c.refs :: p.epoch == c.epoch
  }

  /** How a commit came about: some client was in its epoch, and was in the next one right after. */
  ghost predicate MadeAt(ws: seq<World>, i: nat, id: Pub, c: Commit) {
    i + 1 < |ws| && MadeBy(ws[i], ws[i + 1], id, c)
  }

  lemma MadeNow(w: World, m: Move, c: Commit)
    requires Tidy(w) && c !in w.made && c in Moved(w, m).made
    ensures MadeBy(w, Moved(w, m), m.id, c)
  {
  }

  lemma {:induction false} WasMade(ws: seq<World>, ms: seq<Move>, n: nat, c: Commit) returns (i: nat, id: Pub)
    requires IsHistory(ws, ms) && n < |ws| && c in ws[n].made
    ensures MadeAt(ws, i, id, c)
  {
    if c in ws[n - 1].made {
      i, id := WasMade(ws, ms, n - 1, c);
    } else {
      HistoryTidy(ws, ms, n - 1);
      hide Moved, MadeBy;
      MadeNow(ws[n - 1], ms[n - 1], c);
      i, id := n - 1, ms[n - 1].id;
    }
  }

  /** Two commits that lead from one point to one point are the same commit. */
  lemma SameCommit(c: Commit, d: Commit)
    requires c.epoch == d.epoch && c.secret == d.secret && Adds(c.refs) == Adds(d.refs)
    requires (forall p | p in c.refs :: p.epoch == c.epoch) && (forall p | p in d.refs :: p.epoch == d.epoch)
    ensures c == d
  {
    forall i | 0 <= i < |c.refs|
      ensures c.refs[i] == d.refs[i]
    {
      assert c.refs[i] in c.refs && d.refs[i] in d.refs && c.refs[i].kp == Adds(c.refs)[i];
    }
  }

  lemma MadeAlike(ws: seq<World>, i: nat, a: Pub, c: Commit, j: nat, b: Pub, d: Commit)
    requires Agreement(ws) && MadeAt(ws, i, a, c) && MadeAt(ws, j, b, d) && c.epoch == d.epoch
    ensures c == d
  {
    var g, h := Of(ws[i], a).group.value, Of(ws[j], b).group.value;
    var g', h' := Of(ws[i + 1], a).group.value, Of(ws[j + 1], b).group.value;
    assert Same(g, h) && Same(g', h');
    assert c.secret == g'.chain[|g.chain|] && d.secret == h'.chain[|h.chain|];
    assert Adds(c.refs) == g'.roster[|g.roster|..] && Adds(d.refs) == h'.roster[|h.roster|..];
    SameCommit(c, d);
  }

  /**
   With any number of committers, all members always agree if and only if at most one commit is
   ever made per epoch.
   */
  lemma AgreementIff(ws: seq<World>, ms: seq<Move>)
    requires IsHistory(ws, ms)
    ensures Agreement(ws) <==> OnePerEpoch(ws[|ms|].made)
  {
    if OnePerEpoch(ws[|ms|].made) {
      OneIsEnough(ws, ms);
    }
    if Agreement(ws) {
      forall c, d | c in ws[|ms|].made && d in ws[|ms|].made && c.epoch == d.epoch
        ensures c == d
      {
        var i, a := WasMade(ws, ms, |ms|, c);
        var j, b := WasMade(ws, ms, |ms|, d);
        MadeAlike(ws, i, a, c, j, b, d);
      }
    }
  }

  lemma OneIsEnough(ws: seq<World>, ms: seq<Move>)
    requires IsHistory(ws, ms) && OnePerEpoch(ws[|ms|].made)
    ensures Agreement(ws)
  {
    var id: Pub, kp: KeyPackage, secret: Secret :| ws[0] == Creation(id, kp, secret);
    var start := Point([kp], [secret]);
    forall n | 0 <= n < |ws|
      ensures Followed(start, ws[|ms|].made, ws[n])
    {
      HistoryFollows(ws, ms, start, n);
    }
    forall i, j, a, b | 0 <= i < |ws| && 0 <= j < |ws| && Of(ws[i], a).group.Some? && Of(ws[j], b).group.Some?
      ensures Same(Of(ws[i], a).group.value, Of(ws[j], b).group.value)
    {
      assert Followed(start, ws[|ms|].made, ws[i]) && Followed(start, ws[|ms|].made, ws[j]);
    }
  }

  // ----- A fork ------------------------------------------------------------

  /** Neither is a prefix of the other. */
  predicate Apart(r: seq<KeyPackage>, q: seq<KeyPackage>) {
    !(r <= q) && !(q <= r)
  }

  /** Both have a group, and neither group can have come from the other. */
  predicate Forked(w: World, a: Pub, b: Pub) {
    && Of(w, a).group.Some? && Of(w, b).group.Some?
    && Apart(Of(w, a).group.value.roster, Of(w, b).group.value.roster)
  }

  /** Each of the two has a commit from the network that it refuses. */
  ghost predicate Refuse(w: World, a: Pub, b: Pub, c: Commit, d: Commit) {
    && Of(w, a).group.Some? && Of(w, b).group.Some?
    && SentCommit(c) in w.net && SentCommit(d) in w.net && c.epoch == d.epoch
    && !ApplyCommit(Of(w, a).group.value, WireCommit(d)).ok && !ApplyCommit(Of(w, b).group.value, WireCommit(c)).ok
  }

  /** A member with nothing staged that answers a new key package and gets through. */
  lemma AddIs(w: World, id: Pub, g: Group, kp: KeyPackage, secret: Secret)
    requires Of(w, id).group == Some(g) && g.staged == [] && kp !in g.roster
    ensures var w' := AddAt(w, id, kp, secret, Done);
            && Of(w', id).group == Some(Group(g.own, g.epoch + 1, g.roster + [kp], g.chain + [secret], []))
            && (forall i | i != id :: Of(w', i) == Of(w, i))
            && w'.made == w.made + {Commit(g.epoch, [Proposal(g.epoch, kp)], secret)}
            && SentWelcome(Welcome([kp], g.epoch + 1, g.roster + [kp], g.chain + [secret])) in w'.net
            && SentCommit(Commit(g.epoch, [Proposal(g.epoch, kp)], secret)) in w'.net && w.net <= w'.net
  {
    var h := ProposeAdd(g, kp).group;
    assert h.staged == [Proposal(g.epoch, kp)];
    assert Adds(h.staged) == [kp];
  }

  /** The creator adds a second member, which takes its Welcome. */
  lemma TwoMembers(a: Pub, b: Pub, ka: KeyPackage, kb: KeyPackage, s0: Secret, s1: Secret)
    returns (ws: seq<World>, ms: seq<Move>)
    requires a != b && ka != kb
    ensures IsHistory(ws, ms) && |ms| == 3
    ensures Of(ws[3], a).group == Some(Group(ka, 1, [ka, kb], [s0, s1], []))
    ensures Of(ws[3], b).group == Some(Group(kb, 1, [ka, kb], [s0, s1], []))
  {
    hide AddAt;
    var w0 := Creation(a, ka, s0);
    var w1 := Moved(w0, Begin(b, kb));
    AddIs(w1, a, Created(ka, s0), kb, s1);
    var w2 := Moved(w1, Add(a, kb, s1, Done));
    assert [ka] + [kb] == [ka, kb] && [s0] + [s1] == [s0, s1];
    var w := Welcome([kb], 1, [ka, kb], [s0, s1]);
    ms := [Begin(b, kb), Add(a, kb, s1, Done), TakeWelcome(b, w)];
    ws := [w0, w1, w2, Moved(w2, TakeWelcome(b, w))];
  }

  /**
   Two members of one epoch that each answer a key package fork the channel: five moves after its
   creation two commits end epoch 1, and the two are in epoch 2 with different rosters and refuse
   each other's commit.
   */
  lemma ForkRun(a: Pub, b: Pub, ks: seq<KeyPackage>, s0: Secret, s1: Secret, sx: Secret, sy: Secret)
    returns (ws: seq<World>, ms: seq<Move>)
    requires a != b && |ks| == 4 && forall i, j | 0 <= i < j < 4 :: ks[i] != ks[j]
    ensures IsHistory(ws, ms) && |ms| == 5
    ensures Forked(ws[5], a, b) && Of(ws[5], a).group.value.epoch == Of(ws[5], b).group.value.epoch == 2
    ensures !OnePerEpoch(ws[5].made) && !Agreement(ws)
    ensures Refuse(ws[5], a, b, Commit(1, [Proposal(1, ks[2])], sx), Commit(1, [Proposal(1, ks[3])], sy))
  {
    hide AddAt, OnePerEpoch, Agreement;
    var x, y := ks[2], ks[3];
    var ws0, ms0 := TwoMembers(a, b, ks[0], ks[1], s0, s1);
    ms := ms0 + [Add(a, x, sx, Done), Add(b, y, sy, Done)];
    var w4 := Moved(ws0[3], ms[3]);
    ws := ws0 + [w4, Moved(w4, ms[4])];
    SecondAdds(ws0[3], a, b, x, sx, y, sy);
    assert IsHistory(ws, ms);
    AgreementIff(ws, ms);
  }

  /** Two members in the same state each add someone else. */
  lemma SecondAdds(w: World, a: Pub, b: Pub, x: KeyPackage, sx: Secret, y: KeyPackage, sy: Secret)
    requires a != b && x != y && Of(w, a).group.Some? && Of(w, b).group.Some?
    requires var g, h := Of(w, a).group.value, Of(w, b).group.value;
             h == g.(own := h.own) && g.staged == [] && x !in g.roster && y !in g.roster
    ensures var w' := Moved(Moved(w, Add(a, x, sx, Done)), Add(b, y, sy, Done));
            var e := Of(w, a).group.value.epoch;
            && Forked(w', a, b) && Of(w', a).group.value.epoch == Of(w', b).group.value.epoch == e + 1
            && !OnePerEpoch(w'.made)
            && Refuse(w', a, b, Commit(e, [Proposal(e, x)], sx), Commit(e, [Proposal(e, y)], sy))
  {
    hide AddAt;
    var g, h := Of(w, a).group.value, Of(w, b).group.value;
    AddIs(w, a, g, x, sx);
    var w1 := Moved(w, Add(a, x, sx, Done));
    AddIs(w1, b, h, y, sy);
    var w2 := Moved(w1, Add(b, y, sy, Done));
    var c, d := Commit(g.epoch, [Proposal(g.epoch, x)], sx), Commit(g.epoch, [Proposal(g.epoch, y)], sy);
    assert c in w2.made && d in w2.made && c.refs[0] != d.refs[0];
    assert (g.roster + [x])[|g.roster|] == x && (g.roster + [y])[|g.roster|] == y;
  }

  /** A member's roster only ever grows at the end, unless it enters the channel anew. */
  lemma RosterExtends(w: World, m: Move, id: Pub)
    requires Of(w, id).group.Some? && !(m.TakeWelcome? && m.id == id)
    ensures Of(Moved(w, m), id).group.Some?
    ensures Of(w, id).group.value.roster <= Of(Moved(w, m), id).group.value.roster
  {
  }

  lemma ApartStays(r: seq<KeyPackage>, q: seq<KeyPackage>, r': seq<KeyPackage>, q': seq<KeyPackage>)
    requires Apart(r, q) && r <= r' && q <= q'
    ensures Apart(r', q')
  {
    var i :| 0 <= i < |r| && i < |q| && r[i] != q[i];
    assert r'[i] == r[i] && q'[i] == q[i];
  }

  /** What has forked stays forked, whatever is delivered, until one of the two takes a new Welcome. */
  lemma {:induction false} ForkStays(ws: seq<World>, ms: seq<Move>, m: nat, n: nat, a: Pub, b: Pub)
    requires IsHistory(ws, ms) && m <= n < |ws| && Forked(ws[m], a, b)
    requires forall i | m <= i < n :: !(ms[i].TakeWelcome? && ms[i].id in {a, b})
    ensures Forked(ws[n], a, b)
  {
    if m < n {
      ForkStays(ws, ms, m, n - 1, a, b);
      hide Moved, Apart;
      RosterExtends(ws[n - 1], ms[n - 1], a);
      RosterExtends(ws[n - 1], ms[n - 1], b);
      ApartStays(Of(ws[n - 1], a).group.value.roster, Of(ws[n - 1], b).group.value.roster,
        Of(ws[n], a).group.value.roster, Of(ws[n], b).group.value.roster);
    }
  }
}
