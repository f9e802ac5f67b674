/**
 A media call's signalling: the offer that waits for the user, the candidates that wait for a
 connection, and what reaches the connection in which order.
 */
module MediaCall {
  import opened Common

  datatype State = Idle | Ringing | Connecting | Live | Closed

  /** A candidate message; only a JSON object with a non-empty candidate is well formed. */
  datatype Candidate = Candidate(wellFormed: bool, body: Bytes)

  /** What a connection element is told. */
  datatype Entry = Described | Applied(candidate: Candidate)

  /**
   `element` is the log of the connection in use; `received` all candidates that came in since
   the call object was made.
   */
  datatype Call = Call(
    state: State,
    isCaller: bool,
    pipeline: bool,
    element: Option<seq<Entry>>,
    pendingIce: seq<Candidate>,
    received: seq<Candidate>)

  const NEW := Call(Idle, false, false, None, [], [])

  datatype Event =
    | StartOutgoing(built: bool)
    | ReceiveOffer
    | AcceptIncoming(built: bool, parses: bool)
    | ReceiveAnswer(parses: bool)
    | ReceiveIce(candidate: Candidate)
    | ConnectionState(code: int)
    | Hangup

  function WellFormed(cs: seq<Candidate>): seq<Candidate> {
    if cs == [] then []
    else WellFormed(cs[..|cs| - 1]) + if cs[|cs| - 1].wellFormed then [cs[|cs| - 1]] else []
  }

  function Entries(cs: seq<Candidate>): seq<Entry> {
    if cs == [] then []
    else Entries(cs[..|cs| - 1]) + if cs[|cs| - 1].wellFormed then [Applied(cs[|cs| - 1])] else []
  }

  /** The candidates a connection was given, in order. */
  function AppliedIn(log: seq<Entry>): seq<Candidate> {
    if log == [] then []
    else AppliedIn(log[..|log| - 1]) + if log[|log| - 1].Applied? then [log[|log| - 1].candidate] else []
  }

  function AppliedSoFar(c: Call): seq<Candidate> {
    if c.element.Some? then AppliedIn(c.element.value) else []
  }

  function Step(c: Call, e: Event): Call {
    match e
    case StartOutgoing(built) =>
      if c.state != Idle then c
      else if !built then c.(isCaller := true, pipeline := false, state := Closed)
      else c.(isCaller := true, pipeline := true, element := Some([]), state := Ringing)
    case ReceiveOffer => c.(state := Ringing)
    case AcceptIncoming(built, parses) =>
      if c.state != Ringing || c.isCaller then c
      else if !built then c.(pipeline := false, state := Closed)
      else if !parses then c.(pipeline := true, element := Some([]), state := Closed)
      else c.(pipeline := true, element := Some([Described] + Entries(c.pendingIce)), pendingIce := [],
        state := Connecting)
    case ReceiveAnswer(parses) =>
      if c.element.None? || !parses then c
      else c.(element := Some(c.element.value + [Described] + Entries(c.pendingIce)), pendingIce := [],
        state := Connecting)
    case ReceiveIce(cand) =>
      var c1 := c.(received := c.received + [cand]);
      if c.element.None? then c1.(pendingIce := c.pendingIce + [cand])
      else if !cand.wellFormed then c1
      else c1.(element := Some(c.element.value + [Applied(cand)]))
    case ConnectionState(code) =>
      if c.state == Closed then c
      else if code == CONNECTED then c.(state := Live)
      else if code == FAILED then HungUp(c)
      else c
    case Hangup => HungUp(c)
  }

  const CONNECTED := 2
  const FAILED := 4

  function HungUp(c: Call): Call {
    if c.state == Closed then c
    else c.(pipeline := false, element := if c.pipeline then None else c.element, state := Closed)
  }

  ghost predicate IsRun(cs: seq<Call>, es: seq<Event>) {
    && |cs| == |es| + 1
    && cs[0] == NEW
    && forall i | 0 <= i < |es| :: cs[i + 1] == Step(cs[i], es[i])
  }

  // ----- Order -------------------------------------------------------------

  /** No candidate reaches the connection before a remote description. */
  ghost predicate DescribedFirst(c: Call) {
    c.element.Some? && c.element.value != [] ==> c.element.value[0] == Described
  }

  /** The failing case: a connection is there, undescribed, and a well-formed candidate arrives. */
  predicate TooEarly(c: Call, e: Event) {
    e.ReceiveIce? && e.candidate.wellFormed && c.element == Some([])
  }

  /** For caller and callee alike, the order is kept exactly when no candidate meets an undescribed connection. */
  lemma DescribedFirstIff(c: Call, e: Event)
    requires DescribedFirst(c)
    ensures DescribedFirst(Step(c, e)) <==> !TooEarly(c, e)
  {
  }

  /**
   A caller's connection is undescribed until the answer comes: a candidate that overtakes the
   answer is too early.
   */
  lemma CallerAppliesTooEarly(cand: Candidate)
    requires cand.wellFormed
    ensures var es := [StartOutgoing(true), ReceiveIce(cand), ReceiveAnswer(true)];
            exists cs: seq<Call> :: IsRun(cs, es) && cs[3].element == Some([Applied(cand), Described])
  {
    var c1 := Step(NEW, StartOutgoing(true));
    var c2 := Step(c1, ReceiveIce(cand));
    var c3 := Step(c2, ReceiveAnswer(true));
    var cs := [NEW, c1, c2, c3];
    assert Entries([]) == [];
    assert IsRun(cs, [StartOutgoing(true), ReceiveIce(cand), ReceiveAnswer(true)]);
    assert c3.element.value == [Applied(cand), Described];
  }

  // ----- The callee --------------------------------------------------------

  /** Applied and still waiting make up all that came in; a connection in use is described and nothing waits for it. */
  ghost predicate Inv(c: Call) {
    && WellFormed(c.received) == AppliedSoFar(c) + WellFormed(c.pendingIce)
    && (c.element.Some? ==> c.pendingIce == [] && c.element.value != [] && c.element.value[0] == Described)
    && (c.pipeline ==> c.element.Some?)
  }

  /**
   The events after which that is no longer so: becoming a caller, an accepted offer that does
   not parse, and a second connection or the end of the call once candidates were applied.
   */
  predicate Breaks(c: Call, e: Event) {
    match e
    case StartOutgoing(built) => c.state == Idle && built
    case AcceptIncoming(built, parses) =>
      c.state == Ringing && !c.isCaller && built && (!parses || AppliedSoFar(c) != [])
    case ConnectionState(code) => code == FAILED && c.state != Closed && c.pipeline && AppliedSoFar(c) != []
    case Hangup => c.state != Closed && c.pipeline && AppliedSoFar(c) != []
    case _ => false
  }

  lemma WellFormedStep(cs: seq<Candidate>, c: Candidate)
    ensures WellFormed(cs + [c]) == WellFormed(cs) + if c.wellFormed then [c] else []
  {
    assert (cs + [c])[..|cs|] == cs;
  }

  lemma EntriesStep(cs: seq<Candidate>, c: Candidate)
    ensures Entries(cs + [c]) == Entries(cs) + if c.wellFormed then [Applied(c)] else []
  {
    assert (cs + [c])[..|cs|] == cs;
  }

  lemma AppliedStep(log: seq<Entry>, e: Entry)
    ensures AppliedIn(log + [e]) == AppliedIn(log) + if e.Applied? then [e.candidate] else []
  {
    assert (log + [e])[..|log|] == log;
  }

  /** Draining the buffer applies its well-formed candidates in order. */
  lemma {:induction false} DrainApplies(log: seq<Entry>, cs: seq<Candidate>)
    ensures AppliedIn(log + Entries(cs)) == AppliedIn(log) + WellFormed(cs)
  {
    if cs == [] {
      assert log + Entries(cs) == log;
    } else {
      var n := |cs| - 1;
      DrainApplies(log, cs[..n]);
      if cs[n].wellFormed {
        AppliedStep(log + Entries(cs[..n]), Applied(cs[n]));
        assert log + Entries(cs) == log + Entries(cs[..n]) + [Applied(cs[n])];
      } else {
        assert Entries(cs) == Entries(cs[..n]);
      }
    }
  }

  lemma InvIff(c: Call, e: Event)
    requires Inv(c)
    ensures Inv(Step(c, e)) <==> !Breaks(c, e)
  {
    hide WellFormed, AppliedIn, Entries;
    EmptyLogs();
    match e
    case StartOutgoing(_) =>
    case ReceiveOffer =>
    case AcceptIncoming(_, _) => AcceptIff(c, e);
    case ReceiveAnswer(_) => AnswerKeeps(c, e);
    case ReceiveIce(_) => IceKeeps(c, e);
    case ConnectionState(_) => EndIff(c);
    case Hangup => EndIff(c);
  }

  lemma EmptyLogs()
    ensures WellFormed([]) == [] && AppliedIn([]) == [] && AppliedIn([Described]) == []
  {
    AppliedStep([], Described);
  }

  lemma EndIff(c: Call)
    requires Inv(c)
    ensures Inv(HungUp(c)) <==> !(c.state != Closed && c.pipeline && AppliedSoFar(c) != [])
  {
    hide WellFormed, AppliedIn;
    EmptyLogs();
    var applied := AppliedSoFar(c);
    assert c.element.Some? ==> WellFormed(c.received) == applied + [] == applied;
  }

  lemma AcceptIff(c: Call, e: Event)
    requires Inv(c) && e.AcceptIncoming?
    ensures Inv(Step(c, e)) <==> !Breaks(c, e)
  {
    hide WellFormed, AppliedIn, Entries;
    EmptyLogs();
    var applied, waiting := AppliedSoFar(c), WellFormed(c.pendingIce);
    DrainApplies([Described], c.pendingIce);
    assert [] + waiting == waiting && waiting + [] == waiting && applied + [] == applied;
    if applied != [] {
      assert |applied + waiting| > |waiting|;
    }
  }

  lemma AnswerKeeps(c: Call, e: Event)
    requires Inv(c) && e.ReceiveAnswer?
    ensures Inv(Step(c, e))
  {
    hide WellFormed, AppliedIn, Entries;
    if c.element.Some? && e.parses {
      var log := c.element.value;
      AppliedStep(log, Described);
      DrainApplies(log + [Described], c.pendingIce);
      EmptyLogs();
      assert AppliedIn(log) + [] == AppliedIn(log) && AppliedIn(log + [Described]) + [] == AppliedIn(log + [Described]);
    }
  }

  lemma IceKeeps(c: Call, e: Event)
    requires Inv(c) && e.ReceiveIce?
    ensures Inv(Step(c, e))
  {
    hide WellFormed, AppliedIn;
    WellFormedStep(c.received, e.candidate);
    WellFormedStep(c.pendingIce, e.candidate);
    EmptyLogs();
    if c.element.Some? {
      AppliedStep(c.element.value, Applied(e.candidate));
    }
  }

  /**
   Over every interleaving of candidates with the other events of a callee whose accept
   succeeds: what the connection was given is exactly the well-formed candidates received, in
   order and once each, and its description came first; before the accept they all wait.
   */
  lemma {:induction false} CandidatesAreAppliedInOrder(cs: seq<Call>, es: seq<Event>, n: nat)
    requires IsRun(cs, es) && n < |cs|
    requires forall i | 0 <= i < n :: !Breaks(cs[i], es[i])
    ensures Inv(cs[n])
    ensures match cs[n].element
            case Some(log) => AppliedIn(log) == WellFormed(CandidatesIn(es[..n])) && log != [] && log[0] == Described
            case None => WellFormed(cs[n].pendingIce) == WellFormed(CandidatesIn(es[..n]))
  {
    ReceivedAreTheEvents(cs, es, n);
    if n > 0 {
      CandidatesAreAppliedInOrder(cs, es, n - 1);
      InvIff(cs[n - 1], es[n - 1]);
    }
  }

  // ----- Told from the events ----------------------------------------------

  /** The candidates that came in. */
  function CandidatesIn(es: seq<Event>): seq<Candidate> {
    if es == [] then []
    else
      var e := es[|es| - 1];
      CandidatesIn(es[..|es| - 1]) + if e.ReceiveIce? then [e.candidate] else []
  }

  lemma {:induction false} ReceivedAreTheEvents(cs: seq<Call>, es: seq<Event>, n: nat)
    requires IsRun(cs, es) && n < |cs|
    ensures cs[n].received == CandidatesIn(es[..n])
  {
    if n > 0 {
      ReceivedAreTheEvents(cs, es, n - 1);
      assert es[..n][..n - 1] == es[..n - 1];
    }
  }

  function Ices(xs: seq<Candidate>): seq<Event> {
    seq(|xs|, i requires 0 <= i < |xs| => ReceiveIce(xs[i]))
  }

  function After(c: Call, es: seq<Event>): Call {
    if es == [] then c else Step(After(c, es[..|es| - 1]), es[|es| - 1])
  }

  lemma {:induction false} AfterMore(c: Call, es: seq<Event>, fs: seq<Event>)
    ensures After(c, es + fs) == After(After(c, es), fs)
  {
    if fs == [] {
      assert es + fs == es;
    } else {
      assert (es + fs)[..|es + fs| - 1] == es + fs[..|fs| - 1];
      AfterMore(c, es, fs[..|fs| - 1]);
    }
  }

  /** Candidates wait while there is no connection, and reach it in order once there is one. */
  ghost predicate Fed(c: Call, c': Call, xs: seq<Candidate>) {
    && c' == c.(element := c'.element, pendingIce := c'.pendingIce, received := c.received + xs)
    && (c.element.None? ==> c'.element.None? && c'.pendingIce == c.pendingIce + xs)
    && (c.element.Some? ==> c'.element == Some(c.element.value + Entries(xs)) && c'.pendingIce == c.pendingIce)
  }

  lemma FedNext(c: Call, c': Call, xs: seq<Candidate>, x: Candidate)
    requires Fed(c, c', xs)
    ensures Fed(c, Step(c', ReceiveIce(x)), xs + [x])
  {
    EntriesStep(xs, x);
    hide Entries;
    assert c.received + (xs + [x]) == c.received + xs + [x];
    if c.element.Some? {
      assert c.element.value + (Entries(xs) + [Applied(x)]) == c.element.value + Entries(xs) + [Applied(x)];
      assert Entries(xs) + [] == Entries(xs);
    } else {
      assert c.pendingIce + (xs + [x]) == c.pendingIce + xs + [x];
    }
  }

  lemma {:induction false} AfterIces(c: Call, xs: seq<Candidate>)
    ensures Fed(c, After(c, Ices(xs)), xs)
  {
    if xs == [] {
      assert c.received + [] == c.received && c.pendingIce + [] == c.pendingIce;
      if c.element.Some? {
        assert c.element.value + Entries([]) == c.element.value;
      }
    } else {
      hide Fed, Step;
      var n := |xs| - 1;
      AfterIces(c, xs[..n]);
      assert Ices(xs)[..n] == Ices(xs[..n]);
      FedNext(c, After(c, Ices(xs[..n])), xs[..n], xs[n]);
      assert xs == xs[..n] + [xs[n]];
    }
  }

  /** A callee's whole call: the candidates before and after the accept reach the connection after its description. */
  lemma CalleeCall(xs: seq<Candidate>, ys: seq<Candidate>)
    ensures var c := After(NEW, [ReceiveOffer] + Ices(xs) + [AcceptIncoming(true, true)] + Ices(ys));
            && c.state == Connecting && !c.isCaller && c.pipeline && c.pendingIce == []
            && c.element == Some([Described] + Entries(xs) + Entries(ys))
            && Step(c, ConnectionState(CONNECTED)) == c.(state := Live)
            && Step(c, Hangup) == c.(state := Closed, pipeline := false, element := None)
            && Step(c, ConnectionState(FAILED)) == Step(c, Hangup)
  {
    hide After, Entries, Ices;
    InFourParts(ReceiveOffer, xs, AcceptIncoming(true, true), ys);
    var a := Step(NEW, ReceiveOffer);
    AfterIces(a, xs);
    var b := After(a, Ices(xs));
    assert [] + xs == xs;
    AfterIces(Step(b, AcceptIncoming(true, true)), ys);
  }

  /** Two signals with candidates after each. */
  lemma InFourParts(e: Event, xs: seq<Candidate>, f: Event, ys: seq<Candidate>)
    ensures After(NEW, [e] + Ices(xs) + [f] + Ices(ys)) == After(Step(After(Step(NEW, e), Ices(xs)), f), Ices(ys))
  {
    hide After, Step, Ices;
    AfterMore(NEW, [e] + Ices(xs) + [f], Ices(ys));
    AfterMore(NEW, [e] + Ices(xs), [f]);
    AfterMore(NEW, [e], Ices(xs));
    AfterOne(NEW, e);
    AfterOne(After(Step(NEW, e), Ices(xs)), f);
  }

  lemma AfterOne(c: Call, e: Event)
    ensures After(c, [e]) == Step(c, e)
  {
    assert [e][..0] == [];
    assert After(c, []) == c;
  }

  /** A caller's whole call: what overtakes the answer is applied before the description. */
  lemma CallerCall(xs: seq<Candidate>, ys: seq<Candidate>)
    ensures var c := After(NEW, [StartOutgoing(true)] + Ices(xs) + [ReceiveAnswer(true)] + Ices(ys));
            && c.state == Connecting && c.isCaller && c.pipeline && c.pendingIce == []
            && c.element == Some(Entries(xs) + [Described] + Entries(ys))
  {
    hide After, Entries, Ices;
    InFourParts(StartOutgoing(true), xs, ReceiveAnswer(true), ys);
    var a := Step(NEW, StartOutgoing(true));
    AfterIces(a, xs);
    var b := After(a, Ices(xs));
    NoEntries();
    assert [] + Entries(xs) == Entries(xs);
    var log := Entries(xs) + [Described];
    assert log + [] == log;
    AfterIces(Step(b, ReceiveAnswer(true)), ys);
  }

  lemma NoEntries()
    ensures Entries([]) == []
  {
  }

  /** A closed call is reopened by another offer, or by an answer if its connection is still there. */
  lemma ClosedStaysIff(c: Call, e: Event)
    requires c.state == Closed
    ensures Step(c, e).state == Closed <==> !(e.ReceiveOffer? || (e.ReceiveAnswer? && e.parses && c.element.Some?))
  {
  }

  // ----- The object --------------------------------------------------------

  class MediaCall {
    var state: State
    var isCaller: bool
    var pipeline: bool
    var element: Option<seq<Entry>>
    var pendingOffer: Bytes
    var pendingIce: seq<Candidate>
    ghost var received: seq<Candidate>

    ghost function View(): Call
      reads this
    {
      Call(state, isCaller, pipeline, element, pendingIce, received)
    }

    constructor ()
      ensures View() == NEW
    {
      state, isCaller, pipeline, element := Idle, false, false, None;
      pendingOffer, pendingIce, received := [], [], [];
    }

    method Start(built: bool)
      modifies this
      ensures View() == Step(old(View()), StartOutgoing(built))
    {
      if state != Idle { return; }
      isCaller, pipeline := true, built;
      if !built {
        state := Closed;
        return;
      }
      element := Some([]);
      state := Ringing;
    }

    method OnOffer(sdp: Bytes)
      modifies this`pendingOffer, this`state
      ensures View() == Step(old(View()), ReceiveOffer) && pendingOffer == sdp
    {
      pendingOffer := sdp;
      state := Ringing;
    }

    /** Hand one candidate to the connection, or keep it for later. */
    method Feed(candidate: Candidate)
      modifies this`pendingIce, this`element
      ensures pendingIce == if old(element).None? then old(pendingIce) + [candidate] else old(pendingIce)
      ensures element == if old(element).Some? && candidate.wellFormed
              then Some(old(element).value + [Applied(candidate)]) else old(element)
    {
      if element.None? {
        pendingIce := pendingIce + [candidate];
        return;
      }
      if !candidate.wellFormed { return; }
      element := Some(element.value + [Applied(candidate)]);
    }

    /** Give the buffered candidates to the connection. */
    method DrainIce()
      requires element.Some?
      modifies this`pendingIce, this`element
      ensures element == Some(old(element).value + Entries(old(pendingIce))) && pendingIce == []
    {
      var i := 0;
      assert element.value + [] == element.value;
      while i < |pendingIce|
        invariant 0 <= i <= |pendingIce| && pendingIce == old(pendingIce)
        invariant element == Some(old(element).value + Entries(pendingIce[..i]))
      {
        ghost var log, done := element.value, Entries(pendingIce[..i]);
        Feed(pendingIce[i]);
        EntriesStep(pendingIce[..i], pendingIce[i]);
        ghost var entry := if pendingIce[i].wellFormed then [Applied(pendingIce[i])] else [];
        assert element.value == log + entry == old(element).value + (done + entry);
        assert pendingIce[..i] + [pendingIce[i]] == pendingIce[..i + 1];
        i := i + 1;
      }
      assert pendingIce[..i] == pendingIce;
      pendingIce := [];
    }

    method Accept(built: bool, parses: Bytes -> bool)
      modifies this
      ensures View() == Step(old(View()), AcceptIncoming(built, parses(old(pendingOffer))))
    {
      if state != Ringing || isCaller { return; }
      pipeline := built;
      if !built {
        state := Closed;
        return;
      }
      element := Some([]);
      if !parses(pendingOffer) {
        state := Closed;
        return;
      }
      element := Some([Described]);
      DrainIce();
      state := Connecting;
    }

    method OnAnswer(parses: bool)
      modifies this
      ensures View() == Step(old(View()), ReceiveAnswer(parses))
    {
      if element.None? || !parses { return; }
      element := Some(element.value + [Described]);
      DrainIce();
      state := Connecting;
    }

    method OnIce(candidate: Candidate)
      modifies this
      ensures View() == Step(old(View()), ReceiveIce(candidate))
    {
      received := received + [candidate];
      Feed(candidate);
    }

    method OnConnectionState(code: int)
      modifies this
      ensures View() == Step(old(View()), ConnectionState(code))
    {
      if state == Closed { return; }
      if code == CONNECTED {
        state := Live;
      } else if code == FAILED {
        End();
      }
    }

    method End()
      modifies this
      ensures View() == Step(old(View()), Hangup)
    {
      if state == Closed { return; }
      if pipeline {
        pipeline, element := false, None;
      }
      state := Closed;
    }
  }
}
