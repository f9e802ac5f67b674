/**
 The operation log of an MLS channel: a seed saved once, one row for each mutator that
 returned, and a restart that replays them.
 */
module MlsLog {
  import opened Common
  import opened Mls

  datatype Seed = CreatorSeed(kp: KeyPackage, secret: Secret) | JoinerSeed(kp: KeyPackage, welcome: Welcome)

  datatype Op =
    | OpProposeAdd(kp: KeyPackage)
    | OpHandleProposal(wire: Wire)
    | OpCommitPending(secret: Secret)
    | OpApplyCommit(wire: Wire)

  datatype Row = Row(seqNo: nat, op: Op)

  /** A channel: the live group and its next sequence number, and what the store holds for it. */
  datatype Channel = Channel(group: Option<Group>, nextSeq: nat, seed: Option<Seed>, rows: seq<Row>)

  function FromSeed(seed: Seed): Option<Group> {
    match seed
    case CreatorSeed(kp, secret) => Some(Created(kp, secret))
    case JoinerSeed(kp, welcome) => Complete(kp, welcome)
  }

  function RunOp(g: Group, op: Op): Effect {
    match op
    case OpProposeAdd(kp) => ProposeAdd(g, kp)
    case OpHandleProposal(wire) => HandleProposal(g, wire)
    case OpCommitPending(secret) => CommitPending(g, secret)
    case OpApplyCommit(wire) => ApplyCommit(g, wire)
  }

  /** Replay stops with an exception at the first operation that throws. */
  function Replay(g: Group, rows: seq<Row>): Option<Group> {
    if rows == [] then Some(g)
    else
      var before := Replay(g, rows[..|rows| - 1]);
      if before.None? then None
      else
        var e := RunOp(before.value, rows[|rows| - 1].op);
        if e.ok then Some(e.group) else None
  }

  /** The stored rows are in ascending order of their sequence numbers, which are a key. */
  predicate Ascending(rows: seq<Row>) {
    forall i, j | 0 <= i < j < |rows| :: rows[i].seqNo < rows[j].seqNo
  }

  predicate Stored(rows: seq<Row>, seqNo: nat) {
    exists i | 0 <= i < |rows| :: rows[i].seqNo == seqNo
  }

  /** Insert into a table ordered by its key. */
  function Inserted(rows: seq<Row>, row: Row): (r: seq<Row>)
    requires Ascending(rows) && !Stored(rows, row.seqNo)
    ensures Ascending(r) && |r| == |rows| + 1
    ensures forall x :: x in r <==> x in rows || x == row
  {
    var n := |rows| - 1;
    if rows == [] || rows[n].seqNo < row.seqNo then rows + [row]
    else
      assert forall x | x in rows[..n] :: x.seqNo < rows[n].seqNo;
      assert forall x :: x in rows <==> x in rows[..n] || x == rows[n];
      Inserted(rows[..n], row) + [rows[n]]
  }

  /** Appending fails when the store cannot write, or already has the number. */
  predicate Appends(c: Channel, written: bool) {
    written && !Stored(c.rows, c.nextSeq)
  }

  /** Run one mutator on the live group; when it returns, append it to the log. */
  function Mutate(c: Channel, op: Op, written: bool): Channel
    requires Ascending(c.rows)
  {
    if c.group.None? then c
    else
      var e := RunOp(c.group.value, op);
      var c1 := c.(group := Some(e.group));
      if e.ok && Appends(c, written)
      then c1.(rows := Inserted(c.rows, Row(c.nextSeq, op)), nextSeq := c.nextSeq + 1)
      else c1
  }

  /** A channel is created, or joined by a Welcome: a new live group and a new seed; the rows stay. */
  function Reseed(c: Channel, seed: Seed): Channel {
    var g := FromSeed(seed);
    if g.None? then c else c.(group := g, nextSeq := 0, seed := Some(seed))
  }

  /** What the store gives back. */
  function Restart(c: Channel): Channel {
    var none := c.(group := None, nextSeq := 0);
    if c.seed.None? then none
    else
      var g := FromSeed(c.seed.value);
      if g.None? || Replay(g.value, c.rows).None? then none
      else c.(group := Replay(g.value, c.rows), nextSeq := if c.rows == [] then 0 else c.rows[|c.rows| - 1].seqNo + 1)
  }

  /** The stored numbers are 0, 1, ... and replaying seed and rows gives the live group. */
  ghost predicate Refines(c: Channel) {
    && c.nextSeq == |c.rows|
    && (forall i | 0 <= i < |c.rows| :: c.rows[i].seqNo == i)
    && c.seed.Some?
    && FromSeed(c.seed.value).Some?
    && c.group.Some?
    && Replay(FromSeed(c.seed.value).value, c.rows) == c.group
  }

  // ----- One operation -----------------------------------------------------

  predicate Stageable(g: Group, p: Proposal) {
    p.epoch == g.epoch && p.kp !in g.roster && p !in g.staged
  }

  /** The operations that leave another group behind. */
  predicate Changes(g: Group, op: Op) {
    match op
    case OpProposeAdd(kp) => Stageable(g, Proposal(g.epoch, kp))
    case OpHandleProposal(wire) => wire.WireProposal? && Stageable(g, wire.proposal)
    case OpCommitPending(_) => true
    case OpApplyCommit(wire) =>
      || (wire.WireProposal? && Stageable(g, wire.proposal))
      || (wire.WireCommit? && CommitApplies(g, wire.commit))
  }

  /** A commit payload that carries a proposal: the only mutator that throws and yet changes the group. */
  predicate MisfiledProposal(g: Group, op: Op) {
    op.OpApplyCommit? && op.wire.WireProposal? && Stageable(g, op.wire.proposal)
  }

  lemma StageChanges(g: Group, p: Proposal)
    ensures Stage(g, p).group != g <==> Stageable(g, p)
    ensures Stageable(g, p) ==> Stage(g, p).ok
  {
    if Stageable(g, p) {
      assert |Stage(g, p).group.staged| == |g.staged| + 1;
    }
  }

  /** An operation changes the group exactly when its guard says so; one that throws does so only when misfiled. */
  lemma EffectOf(g: Group, op: Op)
    ensures RunOp(g, op).group != g <==> Changes(g, op)
    ensures !RunOp(g, op).ok && RunOp(g, op).group != g <==> MisfiledProposal(g, op)
  {
    match op
    case OpProposeAdd(kp) => StageChanges(g, Proposal(g.epoch, kp));
    case OpHandleProposal(wire) =>
      if wire.WireProposal? { StageChanges(g, wire.proposal); }
    case OpCommitPending(_) =>
      assert CommitPending(g, op.secret).group.epoch == g.epoch + 1;
    case OpApplyCommit(wire) =>
      if wire.WireProposal? { StageChanges(g, wire.proposal); }
  }

  // ----- What each operation does ------------------------------------------

  /** The group has the proposal staged last, and is otherwise as it was. */
  ghost predicate StagedLast(g: Group, g': Group, p: Proposal) {
    && g'.own == g.own && g'.epoch == g.epoch && g'.roster == g.roster && g'.chain == g.chain
    && |g'.staged| == |g.staged| + 1 && g'.staged[..|g.staged|] == g.staged && g'.staged[|g.staged|] == p
  }

  /** The next epoch: the proposals' key packages are on the roster, the secret is mixed in, nothing is staged. */
  ghost predicate NextEpoch(g: Group, g': Group, refs: seq<Proposal>, secret: Secret) {
    && g'.own == g.own && g'.epoch == g.epoch + 1 && g'.staged == []
    && |g'.chain| == |g.chain| + 1 && g'.chain[..|g.chain|] == g.chain && g'.chain[|g.chain|] == secret
    && |g'.roster| == |g.roster| + |refs| && g'.roster[..|g.roster|] == g.roster
    && forall i | 0 <= i < |refs| :: g'.roster[|g.roster| + i] == refs[i].kp
  }

  /** Proposing stages an add of this epoch for anybody who is not a member and not staged yet. */
  lemma ProposeAddDoes(c: Channel, kp: KeyPackage, written: bool)
    requires Ascending(c.rows) && c.group.Some?
    ensures var g, g', p := c.group.value, Mutate(c, OpProposeAdd(kp), written).group,
            Proposal(c.group.value.epoch, kp);
            && g'.Some?
            && (kp !in g.roster && p !in g.staged ==> StagedLast(g, g'.value, p))
            && (kp in g.roster || p in g.staged ==> g'.value == g)
  {
  }

  /** Handling a proposal stages it if it is of this epoch, new and for a new member; nothing else changes a group. */
  lemma HandleProposalDoes(c: Channel, wire: Wire, written: bool)
    requires Ascending(c.rows) && c.group.Some?
    ensures var g, g' := c.group.value, Mutate(c, OpHandleProposal(wire), written).group;
            && g'.Some?
            && (wire.WireProposal? && Stageable(g, wire.proposal) ==> StagedLast(g, g'.value, wire.proposal))
            && (!(wire.WireProposal? && Stageable(g, wire.proposal)) ==> g'.value == g)
  {
  }

  /** Committing leads to the next epoch with all that was staged and the fresh secret. */
  lemma CommitPendingDoes(c: Channel, secret: Secret, written: bool)
    requires Ascending(c.rows) && c.group.Some?
    ensures var g' := Mutate(c, OpCommitPending(secret), written).group;
            g'.Some? && NextEpoch(c.group.value, g'.value, c.group.value.staged, secret)
  {
  }

  /**
   Applying a commit of this epoch whose proposals are all staged leads to the next epoch with them
   and its secret; a proposal in its place is staged; everything else is refused.
   */
  lemma ApplyCommitDoes(c: Channel, wire: Wire, written: bool)
    requires Ascending(c.rows) && c.group.Some?
    ensures var g, g' := c.group.value, Mutate(c, OpApplyCommit(wire), written).group;
            && g'.Some?
            && (wire.WireCommit? ==>
                  if wire.commit.epoch == g.epoch && forall p | p in wire.commit.refs :: p in g.staged
                  then NextEpoch(g, g'.value, wire.commit.refs, wire.commit.secret)
                  else g'.value == g)
            && (wire.WireProposal? ==>
                  if Stageable(g, wire.proposal) then StagedLast(g, g'.value, wire.proposal) else g'.value == g)
            && (wire.Garbage? ==> g'.value == g)
  {
  }

  /**
   Two channels of one epoch that agree on roster and secrets: when one commits what it has staged
   and the other, which has all of that staged, applies the commit, they agree in the next epoch.
   */
  lemma CommitterAndMemberAgree(c: Channel, d: Channel, secret: Secret, written: bool, written': bool)
    requires Ascending(c.rows) && c.group.Some? && Ascending(d.rows) && d.group.Some?
    requires var g, h := c.group.value, d.group.value;
             && g.epoch == h.epoch && g.roster == h.roster && g.chain == h.chain
             && forall p | p in g.staged :: p in h.staged
    ensures var g' := Mutate(c, OpCommitPending(secret), written).group;
            var h' := Mutate(d, OpApplyCommit(WireCommit(CommitFor(c.group.value, secret))), written').group;
            && g'.Some? && h'.Some?
            && g'.value.epoch == h'.value.epoch == c.group.value.epoch + 1
            && g'.value.roster == h'.value.roster && g'.value.chain == h'.value.chain
            && g'.value.staged == h'.value.staged == []
  {
    var g, h := c.group.value, d.group.value;
    CommitPendingDoes(c, secret, written);
    ApplyCommitDoes(d, WireCommit(CommitFor(g, secret)), written');
    hide Mutate;
    var g' := Mutate(c, OpCommitPending(secret), written).group.value;
    var h' := Mutate(d, OpApplyCommit(WireCommit(CommitFor(g, secret))), written').group.value;
    SameNext(g, h, g', h', g.staged, secret);
  }

  lemma SameNext(g: Group, h: Group, g': Group, h': Group, refs: seq<Proposal>, secret: Secret)
    requires NextEpoch(g, g', refs, secret) && NextEpoch(h, h', refs, secret)
    requires g.roster == h.roster && g.chain == h.chain
    ensures g'.roster == h'.roster && g'.chain == h'.chain
  {
    forall i | 0 <= i < |g'.roster|
      ensures g'.roster[i] == h'.roster[i]
    {
      if i < |g.roster| {
        assert g'.roster[i] == g'.roster[..|g.roster|][i] && h'.roster[i] == h'.roster[..|h.roster|][i];
      } else {
        assert g'.roster[|g.roster| + (i - |g.roster|)] == refs[i - |g.roster|].kp;
      }
    }
    assert g'.chain == g'.chain[..|g.chain|] + [secret] && h'.chain == h'.chain[..|h.chain|] + [secret];
  }

  /** The operations that return: a second copy of a staged proposal does, a member's or another epoch's does not. */
  predicate Returns(g: Group, op: Op) {
    match op
    case OpProposeAdd(kp) => kp !in g.roster
    case OpHandleProposal(wire) =>
      || (wire.WireProposal? && wire.proposal.epoch == g.epoch && wire.proposal.kp !in g.roster)
      || (wire.WireCommit? && CommitApplies(g, wire.commit))
    case OpCommitPending(_) => true
    case OpApplyCommit(wire) => wire.WireCommit? && CommitApplies(g, wire.commit)
  }

  /** Exactly the operations that return are stored, under the next number, if the store takes them. */
  lemma StoredIff(c: Channel, op: Op, written: bool)
    requires Ascending(c.rows) && c.group.Some?
    ensures var c' := Mutate(c, op, written);
            && (if Returns(c.group.value, op) && written && !Stored(c.rows, c.nextSeq)
                then c'.nextSeq == c.nextSeq + 1 && |c'.rows| == |c.rows| + 1 && Row(c.nextSeq, op) in c'.rows
                     && forall x | x in c.rows :: x in c'.rows
                else c'.nextSeq == c.nextSeq && c'.rows == c.rows)
            && c'.seed == c.seed
  {
    hide Ascending, Stored, Inserted;
    var r := if Returns(c.group.value, op) && written && !Stored(c.rows, c.nextSeq)
      then Inserted(c.rows, Row(c.nextSeq, op)) else c.rows;
    assert Row(c.nextSeq, op) in r || r == c.rows;
  }

  /** A row that throws when it is replayed: no channel is restored, whatever rows follow. */
  lemma ThrowingRowRestoresNothing(c: Channel, n: nat)
    requires c.seed.Some? && FromSeed(c.seed.value).Some? && n < |c.rows|
    requires var g := Replay(FromSeed(c.seed.value).value, c.rows[..n]); g.Some? && !Returns(g.value, c.rows[n].op)
    ensures Restart(c) == c.(group := None, nextSeq := 0)
  {
    var g := FromSeed(c.seed.value).value;
    assert c.rows[..n + 1][..n] == c.rows[..n];
    assert Replay(g, c.rows[..n + 1]).None?;
    ReplayThrows(g, c.rows, n + 1);
  }

  /** A creator is alone in epoch 0. */
  lemma CreatorStarts(c: Channel, kp: KeyPackage, secret: Secret)
    ensures var g := Reseed(c, CreatorSeed(kp, secret)).group;
            g.Some? && g.value == Group(kp, 0, [kp], [secret], [])
  {
  }

  /** Whoever the committer's Welcome was made for enters where the committer then is, and nobody else enters. */
  lemma JoinerAndCommitterAgree(c: Channel, d: Channel, kp: KeyPackage, secret: Secret, written: bool)
    requires Ascending(c.rows) && c.group.Some?
    ensures var g := c.group.value;
            var g' := Mutate(c, OpCommitPending(secret), written).group;
            var d' := Reseed(d, JoinerSeed(kp, WelcomeFor(g, secret)));
            if exists i | 0 <= i < |g.staged| :: g.staged[i].kp == kp
            then g'.Some? && d'.group == Some(g'.value.(own := kp)) && d'.nextSeq == 0
            else d' == d
  {
    var g := c.group.value;
    var w := WelcomeFor(g, secret);
    assert kp in w.joiners <==> exists i | 0 <= i < |w.joiners| :: w.joiners[i] == kp;
  }

  lemma AppendRow(c: Channel, op: Op)
    requires Refines(c)
    ensures c.group.Some? && Ascending(c.rows) && !Stored(c.rows, c.nextSeq) && Appends(c, true) && !Appends(c, false)
    ensures Inserted(c.rows, Row(c.nextSeq, op)) == c.rows + [Row(c.nextSeq, op)]
  {
  }

  /**
   The log keeps refining the live group exactly when the operation is appended or changes
   nothing: it fails for a change the store did not take, and for a misfiled proposal.
   */
  lemma RefinesIff(c: Channel, op: Op, written: bool)
    requires Refines(c)
    ensures c.group.Some? && Ascending(c.rows)
    ensures Refines(Mutate(c, op, written)) <==>
            Changes(c.group.value, op) ==> written && !MisfiledProposal(c.group.value, op)
  {
    hide RunOp, Changes, MisfiledProposal, Refines, Ascending, Appends, Inserted;
    AppendRow(c, op);
    var g := c.group.value;
    EffectOf(g, op);
    var e := RunOp(g, op);
    if e.ok && Appends(c, written) {
      LoggedRefines(c, op);
    } else {
      UnloggedRefinesIff(c, e.group);
    }
  }

  lemma LoggedRefines(c: Channel, op: Op)
    requires Refines(c) && RunOp(c.group.value, op).ok
    ensures Refines(Channel(Some(RunOp(c.group.value, op).group), c.nextSeq + 1, c.seed, c.rows + [Row(c.nextSeq, op)]))
  {
    hide RunOp;
    var rows := c.rows + [Row(c.nextSeq, op)];
    assert rows[..|c.rows|] == c.rows;
  }

  lemma UnloggedRefinesIff(c: Channel, g: Group)
    requires Refines(c)
    ensures Refines(c.(group := Some(g))) <==> g == c.group.value
  {
    hide Replay;
  }

  /** A restart of a channel whose log refines it gives back the very same channel. */
  lemma RestartIsIdentity(c: Channel)
    requires Refines(c)
    ensures Restart(c) == c
  {
  }

  // ----- Runs --------------------------------------------------------------

  datatype Event = Run(op: Op, written: bool) | Restarted

  ghost predicate Sound(c: Channel, e: Event) {
    e.Run? && c.group.Some? && Changes(c.group.value, e.op) ==> e.written && !MisfiledProposal(c.group.value, e.op)
  }

  function Next(c: Channel, e: Event): Channel
    requires Ascending(c.rows)
  {
    match e
    case Run(op, written) => Mutate(c, op, written)
    case Restarted => Restart(c)
  }

  ghost predicate IsRun(cs: seq<Channel>, es: seq<Event>) {
    && |cs| == |es| + 1
    && forall i | 0 <= i < |es| :: Ascending(cs[i].rows) && cs[i + 1] == Next(cs[i], es[i])
  }

  /**
   A channel seeded over an empty log: whatever mutators return or throw, and however often it
   restarts, seed and log give the live group, as long as no changing operation was refused by
   the store or misfiled.
   */
  lemma {:induction false} LogRefinesGroup(cs: seq<Channel>, es: seq<Event>, n: nat)
    requires IsRun(cs, es) && n < |cs| && Refines(cs[0])
    requires forall i | 0 <= i < n :: Sound(cs[i], es[i])
    ensures Refines(cs[n])
  {
    if n > 0 {
      LogRefinesGroup(cs, es, n - 1);
      match es[n - 1]
      case Run(op, written) => RefinesIff(cs[n - 1], op, written);
      case Restarted => RestartIsIdentity(cs[n - 1]);
    }
  }

  /** A channel just created, over an empty log. */
  function NewChannel(kp: KeyPackage, secret: Secret): Channel {
    Reseed(Channel(None, 0, None, []), CreatorSeed(kp, secret))
  }

  /**
   A commit payload that carries a proposal leaves the group of a new channel ahead of its log:
   the proposal is staged, and a restart forgets it.
   */
  lemma MisfiledProposalIsForgotten(
    kp: KeyPackage, secret: Secret, x: KeyPackage) returns (cs: seq<Channel>, es: seq<Event>)
    requires x != kp
    ensures IsRun(cs, es) && |es| == 2 && Refines(cs[0]) && !Refines(cs[1])
    ensures cs[1].group.Some? && cs[1].group.value.staged == [Proposal(0, x)] && cs[2] == cs[0]
  {
    var c := NewChannel(kp, secret);
    ReseedIff(Channel(None, 0, None, []), CreatorSeed(kp, secret));
    var op := OpApplyCommit(WireProposal(Proposal(0, x)));
    RefinesIff(c, op, true);
    es := [Run(op, true), Restarted];
    var c1 := Next(c, es[0]);
    cs := [c, c1, Next(c1, es[1])];
  }

  /** So does a mutator whose row the store does not take. */
  lemma FailedAppendIsForgotten(
    kp: KeyPackage, secret: Secret, x: KeyPackage) returns (cs: seq<Channel>, es: seq<Event>)
    requires x != kp
    ensures IsRun(cs, es) && |es| == 2 && Refines(cs[0]) && !Refines(cs[1])
    ensures cs[1].group.Some? && cs[1].group.value.staged == [Proposal(0, x)] && cs[2] == cs[0]
  {
    var c := NewChannel(kp, secret);
    ReseedIff(Channel(None, 0, None, []), CreatorSeed(kp, secret));
    RefinesIff(c, OpProposeAdd(x), false);
    es := [Run(OpProposeAdd(x), false), Restarted];
    var c1 := Next(c, es[0]);
    cs := [c, c1, Next(c1, es[1])];
  }

  // ----- Seeding twice -----------------------------------------------------

  /** A new seed goes with the rows that are there, so it refines the new group exactly when there were none. */
  lemma ReseedIff(c: Channel, seed: Seed)
    requires FromSeed(seed).Some?
    ensures Refines(Reseed(c, seed)) <==> c.rows == []
  {
  }

  /** After a second seeding no operation is ever stored again: number 0 is taken and stays the next one. */
  lemma {:induction false} ReseededNeverLogs(c: Channel, seed: Seed, cs: seq<Channel>, es: seq<Event>, n: nat)
    requires Refines(c) && FromSeed(seed).Some? && c.rows != []
    requires IsRun(cs, es) && cs[0] == Reseed(c, seed) && n < |cs| && Restarted !in es[..n]
    ensures cs[n].rows == c.rows && cs[n].nextSeq == 0 && cs[n].seed == Some(seed)
  {
    if n > 0 {
      assert es[..n][..n - 1] == es[..n - 1] && es[..n][n - 1] == es[n - 1];
      ReseededNeverLogs(c, seed, cs, es, n - 1);
      assert Stored(c.rows, 0) by {
        assert c.rows[0].seqNo == 0;
      }
    }
  }

  // ----- The object --------------------------------------------------------

  class MlsChannel {
    var group: Option<Group>
    var opLog: seq<Op>
    var nextSeq: nat
    var seed: Option<Seed>
    var rows: seq<Row>

    ghost predicate Valid()
      reads this
    {
      Ascending(rows)
    }

    ghost function View(): Channel
      reads this
    {
      Channel(group, nextSeq, seed, rows)
    }

    constructor ()
      ensures Valid() && View() == Channel(None, 0, None, [])
    {
      group, opLog, nextSeq, seed, rows := None, [], 0, None, [];
    }

    /** Save the bootstrap seed of the group just created or joined. */
    method PersistSeed(s: Seed)
      requires Valid()
      modifies this`nextSeq, this`seed
      ensures Valid() && View() == old(View()).(nextSeq := 0, seed := Some(s))
    {
      seed := Some(s);
      nextSeq := 0;
    }

    method Bootstrap(s: Seed) returns (ok: bool)
      requires Valid()
      modifies this
      ensures Valid() && View() == Reseed(old(View()), s) && ok == FromSeed(s).Some?
    {
      var g := FromSeed(s);
      if g.None? { return false; }
      group, opLog := g, [];
      PersistSeed(s);
      return true;
    }

    method HasRow(seqNo: nat) returns (found: bool)
      ensures found == Stored(rows, seqNo)
    {
      var i := 0;
      while i < |rows|
        invariant 0 <= i <= |rows|
        invariant forall k | 0 <= k < i :: rows[k].seqNo != seqNo
      {
        if rows[i].seqNo == seqNo { return true; }
        i := i + 1;
      }
      return false;
    }

    /** Append the most recent operation; the exception of a failed insert leaves everything as it was. */
    method PersistLastOp(written: bool) returns (ok: bool)
      requires Valid() && opLog != []
      modifies this`rows, this`nextSeq
      ensures Valid() && ok == Appends(old(View()), written)
      ensures !ok ==> View() == old(View())
      ensures ok ==> View() == old(View()).(
                       rows := Inserted(old(rows), Row(old(nextSeq), opLog[|opLog| - 1])), nextSeq := old(nextSeq) + 1)
    {
      var taken := HasRow(nextSeq);
      if !written || taken { return false; }
      rows := Inserted(rows, Row(nextSeq, opLog[|opLog| - 1]));
      nextSeq := nextSeq + 1;
      return true;
    }

    /** A mutator of the live group, then the append of what it logged. */
    method Apply(op: Op, written: bool) returns (ok: bool)
      requires Valid()
      modifies this
      ensures Valid() && View() == Mutate(old(View()), op, written)
    {
      if group.None? { return false; }
      var e := RunOp(group.value, op);
      group := Some(e.group);
      if !e.ok { return false; }
      opLog := opLog + [op];
      ok := PersistLastOp(written);
    }

    /** Rebuild the group from what is stored. */
    method Restore() returns (ok: bool)
      requires Valid()
      modifies this
      ensures Valid() && View() == Restart(old(View())) && ok == group.Some?
      ensures ok ==> |opLog| == |rows| && forall k | 0 <= k < |rows| :: opLog[k] == rows[k].op
    {
      hide RunOp, Ascending, FromSeed;
      group, opLog, nextSeq := None, [], 0;
      if seed.None? { return false; }
      var g := FromSeed(seed.value);
      if g.None? { return false; }
      var live, log, i := g.value, [], 0;
      while i < |rows|
        invariant 0 <= i <= |rows|
        invariant Replay(g.value, rows[..i]) == Some(live)
        invariant |log| == i && forall k | 0 <= k < i :: log[k] == rows[k].op
      {
        var e := RunOp(live, rows[i].op);
        assert rows[..i + 1][..i] == rows[..i];
        if !e.ok {
          ReplayThrows(g.value, rows, i + 1);
          return false;
        }
        live := e.group;
        log := log + [rows[i].op];
        i := i + 1;
      }
      assert rows[..i] == rows;
      group, opLog := Some(live), log;
      nextSeq := if rows == [] then 0 else rows[|rows| - 1].seqNo + 1;
      return true;
    }
  }

  /** An operation that throws stops the whole replay. */
  lemma {:induction false} ReplayThrows(g: Group, rows: seq<Row>, n: nat)
    requires n <= |rows| && Replay(g, rows[..n]).None?
    ensures Replay(g, rows).None?
    decreases |rows|
  {
    if n < |rows| {
      assert rows[..|rows| - 1][..n] == rows[..n];
      ReplayThrows(g, rows[..|rows| - 1], n);
    } else {
      assert rows[..n] == rows;
    }
  }
}
