/**
 The MLS group behind a channel: what its mutators do, as the group library's callers see them.
 A mutator that throws may still have changed the group.
 */
module Mls {
  import opened Common

  type KeyPackage = Bytes

  type Secret = Bytes

  /** An add proposal; its reference is its content. */
  datatype Proposal = Proposal(epoch: nat, kp: KeyPackage)

  /** A commit names the proposals it applies by reference and brings a fresh secret. */
  datatype Commit = Commit(epoch: nat, refs: seq<Proposal>, secret: Secret)

  /** Made for the key packages `joiners`, it carries the group they enter. */
  datatype Welcome = Welcome(joiners: seq<KeyPackage>, epoch: nat, roster: seq<KeyPackage>, chain: seq<Secret>)

  /** `chain` stands for the key schedule: the secrets mixed in, one for each epoch. */
  datatype Group = Group(
    own: KeyPackage, epoch: nat, roster: seq<KeyPackage>, chain: seq<Secret>, staged: seq<Proposal>)

  /** What a peer can put in a proposal or commit payload. */
  datatype Wire = WireProposal(proposal: Proposal) | WireCommit(commit: Commit) | Garbage

  /** A mutator's effect: the group it leaves, and whether it returned or threw. */
  datatype Effect = Effect(group: Group, ok: bool)

  function Adds(refs: seq<Proposal>): (kps: seq<KeyPackage>)
    ensures |kps| == |refs|
    ensures forall i | 0 <= i < |refs| :: kps[i] == refs[i].kp
  {
    seq(|refs|, i requires 0 <= i < |refs| => refs[i].kp)
  }

  function Created(kp: KeyPackage, secret: Secret): Group {
    Group(kp, 0, [kp], [secret], [])
  }

  function Advance(g: Group, refs: seq<Proposal>, secret: Secret): Group {
    Group(g.own, g.epoch + 1, g.roster + Adds(refs), g.chain + [secret], [])
  }

  /** Cache a proposal of this epoch for a key package that is not yet a member; a second copy changes nothing. */
  function Stage(g: Group, p: Proposal): Effect {
    if p.epoch != g.epoch || p.kp in g.roster then Effect(g, false)
    else if p in g.staged then Effect(g, true)
    else Effect(g.(staged := g.staged + [p]), true)
  }

  predicate CommitApplies(g: Group, c: Commit) {
    c.epoch == g.epoch && forall p | p in c.refs :: p in g.staged
  }

  function ProposeAdd(g: Group, kp: KeyPackage): Effect {
    Stage(g, Proposal(g.epoch, kp))
  }

  /** The library processes whatever message it is given, and the state a commit would lead to is thrown away. */
  function HandleProposal(g: Group, wire: Wire): Effect {
    match wire
    case WireProposal(p) => Stage(g, p)
    case WireCommit(c) => Effect(g, CommitApplies(g, c))
    case Garbage => Effect(g, false)
  }

  function CommitFor(g: Group, secret: Secret): Commit {
    Commit(g.epoch, g.staged, secret)
  }

  function WelcomeFor(g: Group, secret: Secret): Welcome {
    Welcome(Adds(g.staged), g.epoch + 1, g.roster + Adds(g.staged), g.chain + [secret])
  }

  function CommitPending(g: Group, secret: Secret): Effect {
    Effect(Advance(g, g.staged, secret), true)
  }

  /** A proposal in place of a commit is staged before the missing new state is noticed. */
  function ApplyCommit(g: Group, wire: Wire): Effect {
    match wire
    case WireProposal(p) => Effect(Stage(g, p).group, false)
    case WireCommit(c) => if CommitApplies(g, c) then Effect(Advance(g, c.refs, c.secret), true) else Effect(g, false)
    case Garbage => Effect(g, false)
  }

  /** A Welcome is only of use to the holder of one of its key packages. */
  function Complete(kp: KeyPackage, w: Welcome): Option<Group> {
    if kp in w.joiners then Some(Group(kp, w.epoch, w.roster, w.chain, [])) else None
  }
}
