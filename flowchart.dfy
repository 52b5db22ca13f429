/**
 * scripts/generate-flowchart.ts: every (state fixture, event fixture) pair
 * is run through the reducer, a pair whose result is a new object becomes
 * an edge, edges with the same (from, to) are merged under one key
 * `${from}|||${to}`, the keys are sorted by the positions of their states
 * in `stateOrder`, and one Mermaid line is written per key. The reducer's
 * throw on a status it has no case for aborts the whole script.
 */
module Flowchart {
  import opened Wrappers
  import opened Constants
  import opened States
  import opened Events
  import opened Reducer

  datatype EventFixture = EventFixture(event: AuthEvent, title: string)
  datatype Edge = Edge(from: string, to: string, event: string)

  /** The outcome of the probing loop: the edges, or the throw and the status that caused it. */
  datatype Probe = Probed(edges: seq<Edge>) | Threw(status: string)

  type Pair = (CoreState, EventFixture)

  /** `stateFixtures`, in the insertion order `Object.entries` visits. */
  function StateFixtures(session: Session, context: Context, error: Error): (r: seq<CoreState>)
    ensures |r| == 10
    ensures r[2] == Authenticating
    ensures forall i, j :: 0 <= i < j < |r| ==> StatusOf(r[i]) != StatusOf(r[j])
  {
    [Start, CheckingSession, Authenticating, ErrorCheckingSession(error), SignedOut,
     ContextLoading(session), ErrorContext(session, error), Initializing(session, context),
     ErrorInitializing(session, context, error), AuthReady(session, context)]
  }

  /** `eventFixtures`: AUTH_CHANGED is probed with and without a session. */
  function EventFixtures(session: Session, context: Context, error: Error): (r: seq<EventFixture>)
    ensures |r| == 10
    ensures r[1].event == AuthChanged(Some(session)) && r[2].event == AuthChanged(None)
    ensures forall i, j :: 0 <= i < j < |r| ==> r[i].title != r[j].title
  {
    [EventFixture(StartEvent, "START"),
     EventFixture(AuthChanged(Some(session)), "AUTH_CHANGED [session]"),
     EventFixture(AuthChanged(None), "AUTH_CHANGED [no session]"),
     EventFixture(AuthInitiated, "AUTH_INITIATED"),
     EventFixture(AuthCancelled, "AUTH_CANCELLED"),
     EventFixture(ContextResolved(context), "CONTEXT_RESOLVED"),
     EventFixture(Initialized, "INITIALIZED"),
     EventFixture(ErrorCheckingEvent(error), "ERROR_CHECKING_SESSION"),
     EventFixture(ErrorContextEvent(error), "ERROR_CONTEXT"),
     EventFixture(ErrorInitializingEvent(error), "ERROR_INITIALIZING")]
  }

  function Name(s: CoreState): string {
    StatusName(StatusOf(s))
  }

  /** The pairs for one state fixture, in event order. */
  function Row(s: CoreState, events: seq<EventFixture>): (r: seq<Pair>)
    ensures |r| == |events|
    ensures forall k :: 0 <= k < |events| ==> r[k] == (s, events[k])
  {
    seq(|events|, k requires 0 <= k < |events| => (s, events[k]))
  }

  /** All pairs, in the order of the two nested loops. */
  function Pairs(states: seq<CoreState>, events: seq<EventFixture>): seq<Pair> {
    if states == [] then [] else Row(states[0], events) + Pairs(states[1..], events)
  }

  /** The reducer throws on a pair exactly when its state is AUTHENTICATING. */
  predicate Throws(p: Pair)
    ensures Throws(p) <==> p.0.Authenticating?
  {
    Reducer.Reducer(p.0, p.1.event).Fatal?
  }

  /** The edge a pair adds: one when the reducer returns a new state object, none otherwise. */
  function EdgeOf(p: Pair): (r: seq<Edge>)
    ensures |r| <= 1
    ensures |r| == 1 <==> Reducer.Reducer(p.0, p.1.event).Changed?
    ensures |r| == 1 ==> r[0] == Edge(Name(p.0), Name(Reducer.Reducer(p.0, p.1.event).next), p.1.title)
  {
    match Reducer.Reducer(p.0, p.1.event)
    case Changed(next) => [Edge(Name(p.0), Name(next), p.1.title)]
    case _ => []
  }

  /** One iteration of the inner loop. */
  function ProbeStep(acc: Probe, p: Pair): Probe {
    match acc
    case Threw(_) => acc
    case Probed(edges) => if Throws(p) then Threw(Name(p.0)) else Probed(edges + EdgeOf(p))
  }

  function ProbeFrom(acc: Probe, ps: seq<Pair>): Probe
    decreases |ps|
  {
    if ps == [] then acc else ProbeFrom(ProbeStep(acc, ps[0]), ps[1..])
  }

  function ProbeAll(states: seq<CoreState>, events: seq<EventFixture>): Probe {
    ProbeFrom(Probed([]), Pairs(states, events))
  }

  /** The edges the pairs contribute, in order, when none throws. */
  function EdgesOf(ps: seq<Pair>): seq<Edge> {
    if ps == [] then [] else EdgeOf(ps[0]) + EdgesOf(ps[1..])
  }

  lemma {:induction false} ThrownStaysThrown(t: string, ps: seq<Pair>)
    ensures ProbeFrom(Threw(t), ps) == Threw(t)
    decreases |ps|
  {
    if ps != [] { ThrownStaysThrown(t, ps[1..]); }
  }

  /** Probing throws exactly when some probed state is AUTHENTICATING, and the throw names that status. */
  lemma {:induction false} ProbeThrowsIff(es: seq<Edge>, ps: seq<Pair>)
    ensures ProbeFrom(Probed(es), ps).Threw? <==> exists k :: 0 <= k < |ps| && ps[k].0.Authenticating?
    ensures ProbeFrom(Probed(es), ps).Threw? ==> ProbeFrom(Probed(es), ps).status == "AUTHENTICATING"
    decreases |ps|
  {
    if ps != [] {
      if Throws(ps[0]) {
        ThrownStaysThrown(Name(ps[0].0), ps[1..]);
      } else {
        ProbeThrowsIff(es + EdgeOf(ps[0]), ps[1..]);
        assert forall k :: 1 <= k < |ps| ==> ps[k] == ps[1..][k - 1];
      }
    }
  }

  /** Without a throw, the edges are exactly those of the pairs the reducer changed, in order. */
  lemma {:induction false} ProbeEdges(es: seq<Edge>, ps: seq<Pair>)
    ensures ProbeFrom(Probed(es), ps).Probed? ==> ProbeFrom(Probed(es), ps).edges == es + EdgesOf(ps)
    decreases |ps|
  {
    if ps != [] {
      if Throws(ps[0]) {
        ThrownStaysThrown(Name(ps[0].0), ps[1..]);
      } else {
        ProbeEdges(es + EdgeOf(ps[0]), ps[1..]);
      }
    }
  }

  /**
   * Probing throws exactly when some probed state is AUTHENTICATING (the
   * status without a case), and the throw names that status; otherwise the
   * edges are exactly those of the pairs the reducer changed, in order.
   */
  lemma ProbeFromCharacterised(es: seq<Edge>, ps: seq<Pair>)
    ensures ProbeFrom(Probed(es), ps).Threw? <==> exists k :: 0 <= k < |ps| && ps[k].0.Authenticating?
    ensures ProbeFrom(Probed(es), ps).Threw? ==> ProbeFrom(Probed(es), ps).status == "AUTHENTICATING"
    ensures ProbeFrom(Probed(es), ps).Probed? ==> ProbeFrom(Probed(es), ps).edges == es + EdgesOf(ps)
  {
    ProbeThrowsIff(es, ps);
    ProbeEdges(es, ps);
  }

  /** An edge is recorded iff some pair's reducer result is a new state object with those names. */
  lemma {:induction false} EdgeRecordedIff(ps: seq<Pair>, e: Edge)
    ensures e in EdgesOf(ps) <==> exists k :: 0 <= k < |ps| && e in EdgeOf(ps[k])
    decreases |ps|
  {
    if ps != [] {
      EdgeRecordedIff(ps[1..], e);
      assert forall k :: 1 <= k < |ps| ==> ps[k] == ps[1..][k - 1];
    }
  }

  lemma {:induction false} PairsCover(states: seq<CoreState>, events: seq<EventFixture>, i: nat, j: nat)
    requires i < |states| && j < |events|
    ensures (states[i], events[j]) in Pairs(states, events)
    decreases |states|
  {
    if i == 0 {
      assert Row(states[0], events)[j] == (states[i], events[j]);
    } else {
      PairsCover(states[1..], events, i - 1, j);
    }
  }

  /** On its own fixtures the script throws: the AUTHENTICATING fixture reaches the reducer's default. */
  lemma FixturesThrow(session: Session, context: Context, error: Error)
    ensures ProbeAll(StateFixtures(session, context, error), EventFixtures(session, context, error)) == Threw("AUTHENTICATING")
  {
    var states := StateFixtures(session, context, error);
    var events := EventFixtures(session, context, error);
    var ps := Pairs(states, events);
    PairsCover(states, events, 2, 0);
    var k :| 0 <= k < |ps| && ps[k] == (states[2], events[0]);
    ProbeFromCharacterised([], ps);
  }

  /** The inner loop over the event fixtures of one state, as a fold. */
  function ProbeRow(acc: Probe, s: CoreState, events: seq<EventFixture>): Probe
    decreases |events|
  {
    if events == [] then acc else ProbeRow(ProbeStep(acc, (s, events[0])), s, events[1..])
  }

  /** The outer loop over the state fixtures, as a fold of inner loops. */
  function ProbeStates(acc: Probe, states: seq<CoreState>, events: seq<EventFixture>): Probe
    decreases |states|
  {
    if states == [] then acc else ProbeStates(ProbeRow(acc, states[0], events), states[1..], events)
  }

  lemma {:induction false} ProbeFromAppend(acc: Probe, a: seq<Pair>, b: seq<Pair>)
    ensures ProbeFrom(acc, a + b) == ProbeFrom(ProbeFrom(acc, a), b)
    decreases |a|
  {
    if a == [] {
      assert a + b == b;
    } else {
      assert (a + b)[1..] == a[1..] + b;
      ProbeFromAppend(ProbeStep(acc, a[0]), a[1..], b);
    }
  }

  lemma {:induction false} ProbeRowIsProbeFrom(acc: Probe, s: CoreState, events: seq<EventFixture>)
    ensures ProbeRow(acc, s, events) == ProbeFrom(acc, Row(s, events))
    decreases |events|
  {
    if events != [] {
      assert Row(s, events)[1..] == Row(s, events[1..]);
      ProbeRowIsProbeFrom(ProbeStep(acc, (s, events[0])), s, events[1..]);
    }
  }

  /** The nested loops visit exactly the pairs, in order. */
  lemma {:induction false} ProbeStatesIsProbeFrom(acc: Probe, states: seq<CoreState>, events: seq<EventFixture>)
    ensures ProbeStates(acc, states, events) == ProbeFrom(acc, Pairs(states, events))
    decreases |states|
  {
    if states != [] {
      ProbeRowIsProbeFrom(acc, states[0], events);
      ProbeFromAppend(acc, Row(states[0], events), Pairs(states[1..], events));
      ProbeStatesIsProbeFrom(ProbeRow(acc, states[0], events), states[1..], events);
    }
  }

  lemma ThrownRowStaysThrown(t: string, s: CoreState, rowEvents: seq<EventFixture>, states: seq<CoreState>, events: seq<EventFixture>)
    ensures ProbeStates(ProbeRow(Threw(t), s, rowEvents), states, events) == Threw(t)
  {
    ProbeRowIsProbeFrom(Threw(t), s, rowEvents);
    ThrownStaysThrown(t, Row(s, rowEvents));
    ProbeStatesIsProbeFrom(Threw(t), states, events);
    ThrownStaysThrown(t, Pairs(states, events));
  }

  lemma StepOfReducer(edges: seq<Edge>, p: Pair)
    ensures var r := Reducer.Reducer(p.0, p.1.event);
      ProbeStep(Probed(edges), p) ==
        if r.Fatal? then Threw(Name(p.0))
        else if r.Changed? then Probed(edges + [Edge(Name(p.0), Name(r.next), p.1.title)])
        else Probed(edges)
  {
  }

  /** The probing loop: the nested `for` over state and event fixtures. */
  method EnumerateEdges(states: seq<CoreState>, events: seq<EventFixture>) returns (r: Probe)
    ensures r == ProbeAll(states, events)
  {
    ProbeStatesIsProbeFrom(Probed([]), states, events);
    var edges: seq<Edge> := [];
    var i := 0;
    assert states[0..] == states;
    while i < |states|
      invariant 0 <= i <= |states|
      invariant ProbeStates(Probed(edges), states[i..], events) == ProbeAll(states, events)
    {
      assert states[i..][1..] == states[i + 1..];
      assert events[0..] == events;
      var j := 0;
      while j < |events|
        invariant 0 <= j <= |events|
        invariant ProbeStates(ProbeRow(Probed(edges), states[i], events[j..]), states[i + 1..], events) == ProbeAll(states, events)
      {
        assert events[j..][1..] == events[j + 1..];
        ghost var step := ProbeStep(Probed(edges), (states[i], events[j]));
        assert ProbeRow(Probed(edges), states[i], events[j..]) == ProbeRow(step, states[i], events[j + 1..]);
        StepOfReducer(edges, (states[i], events[j]));
        var result := Reducer.Reducer(states[i], events[j].event);
        if result.Fatal? {
          ThrownRowStaysThrown(Name(states[i]), states[i], events[j + 1..], states[i + 1..], events);
          return Threw(Name(states[i]));
        }
        if result.Changed? {
          edges := edges + [Edge(Name(states[i]), Name(result.next), events[j].title)];
        }
        j := j + 1;
      }
      assert events[j..] == [];
      i := i + 1;
    }
    r := Probed(edges);
  }

  // ---------------------------------------------------------------------------
  // Rendering: stateIdx, grouping by (from, to), key sort, Mermaid lines
  // ---------------------------------------------------------------------------

  /** `stateOrder`: the display order of the statuses. */
  const StateOrder: seq<string> :=
    [StatusName(AuthStateStatus.START), StatusName(AuthStateStatus.CHECKING_SESSION),
     StatusName(AuthStateStatus.SIGNED_OUT), StatusName(AuthStateStatus.AUTHENTICATING),
     StatusName(AuthStateStatus.CONTEXT_LOADING), StatusName(AuthStateStatus.INITIALIZING),
     StatusName(AuthStateStatus.AUTH_READY), StatusName(AuthStateStatus.ERROR_CHECKING_SESSION),
     StatusName(AuthStateStatus.ERROR_CONTEXT), StatusName(AuthStateStatus.ERROR_INITIALIZING)]

  /** `Array.prototype.indexOf`: the first position of `x`, or -1. */
  function IndexOf(xs: seq<string>, x: string): (r: int)
    ensures -1 <= r < |xs|
    ensures r == -1 <==> x !in xs
    ensures r >= 0 ==> xs[r] == x && x !in xs[..r]
  {
    if xs == [] then -1
    else if xs[0] == x then 0
    else
      var i := IndexOf(xs[1..], x);
      assert xs[1..] == xs[1..][..] && (i >= 0 ==> xs[..i + 1] == [xs[0]] + xs[1..][..i]);
      if i == -1 then -1 else i + 1
  }

  /** `stateIdx`: an unknown status sorts after every known one. */
  function StateIdx(name: string): (r: nat)
    ensures r <= |StateOrder|
    ensures r == |StateOrder| <==> name !in StateOrder
    ensures r < |StateOrder| ==> StateOrder[r] == name
  {
    var i := IndexOf(StateOrder, name);
    if i == -1 then |StateOrder| else i
  }

  lemma StatusRanked(a: AuthStateStatus)
    ensures StatusName(a) in StateOrder
  {
    match a
    case START => assert StateOrder[0] == StatusName(a);
    case CHECKING_SESSION => assert StateOrder[1] == StatusName(a);
    case SIGNED_OUT => assert StateOrder[2] == StatusName(a);
    case AUTHENTICATING => assert StateOrder[3] == StatusName(a);
    case CONTEXT_LOADING => assert StateOrder[4] == StatusName(a);
    case INITIALIZING => assert StateOrder[5] == StatusName(a);
    case AUTH_READY => assert StateOrder[6] == StatusName(a);
    case ERROR_CHECKING_SESSION => assert StateOrder[7] == StatusName(a);
    case ERROR_CONTEXT => assert StateOrder[8] == StatusName(a);
    case ERROR_INITIALIZING => assert StateOrder[9] == StatusName(a);
  }

  /** Every status has its own place in the display order. */
  lemma StateOrderRanksEveryStatus(a: AuthStateStatus, b: AuthStateStatus)
    ensures StateIdx(StatusName(a)) < |StateOrder|
    ensures StateIdx(StatusName(a)) == StateIdx(StatusName(b)) <==> a == b
  {
    StatusRanked(a);
    StatusRanked(b);
    if StateIdx(StatusName(a)) == StateIdx(StatusName(b)) {
      StatusNameInjective(a, b);
    }
  }

  /** Keys built from two different status pairs never tie in the sort. */
  lemma StatusKeyRanksDistinct(a: AuthStateStatus, b: AuthStateStatus, c: AuthStateStatus, d: AuthStateStatus)
    requires (a, b) != (c, d)
    ensures Rank(Key(StatusName(a), StatusName(b))) != Rank(Key(StatusName(c), StatusName(d)))
  {
    StatusNamesHaveNoBar(a);
    StatusNamesHaveNoBar(b);
    StatusNamesHaveNoBar(c);
    StatusNamesHaveNoBar(d);
    KeySplits(StatusName(a), StatusName(b));
    KeySplits(StatusName(c), StatusName(d));
    StateOrderRanksEveryStatus(a, c);
    StateOrderRanksEveryStatus(b, d);
  }

  lemma StatusNameInjective(a: AuthStateStatus, b: AuthStateStatus)
    requires StatusName(a) == StatusName(b)
    ensures a == b
  {
    StatusVocabulary();
    assert a in AllStatuses && b in AllStatuses;
    var i :| 0 <= i < |AllStatuses| && AllStatuses[i] == a;
    var j :| 0 <= j < |AllStatuses| && AllStatuses[j] == b;
    assert !(i < j) && !(j < i);
  }

  /** The separator of the grouping keys. */
  const SEP: string := "|||"

  predicate SepAt(s: string, i: int) {
    0 <= i && i + |SEP| <= |s| && s[i..i + |SEP|] == SEP
  }

  /** The first occurrence of the separator at or after `from`. */
  function FindSep(s: string, from: nat): (r: Option<nat>)
    requires from <= |s|
    ensures r.Some? ==> from <= r.value && SepAt(s, r.value)
    ensures r.Some? ==> forall i :: from <= i < r.value ==> !SepAt(s, i)
    ensures r.None? ==> forall i :: from <= i ==> !SepAt(s, i)
    decreases |s| - from
  {
    if from + |SEP| > |s| then None
    else if s[from..from + |SEP|] == SEP then Some(from)
    else FindSep(s, from + 1)
  }

  /** `String.prototype.split` on "|||": the pieces between non-overlapping separators, left to right. */
  function Split(s: string): (r: seq<string>)
    ensures |r| >= 1
    decreases |s|
  {
    match FindSep(s, 0)
    case None => [s]
    case Some(i) => [s[..i]] + Split(s[i + |SEP|..])
  }

  lemma JoinCons(x: string, parts: seq<string>, sep: string)
    requires parts != []
    ensures Join([x] + parts, sep) == x + sep + Join(parts, sep)
  {
    assert ([x] + parts)[1..] == parts;
  }

  lemma SepCutsString(s: string, i: nat)
    requires SepAt(s, i)
    ensures s == s[..i] + SEP + s[i + |SEP|..]
  {
    assert s[i..i + |SEP|] == SEP;
    assert s == s[..i] + s[i..i + |SEP|] + s[i + |SEP|..];
  }

  /** Splitting inverts joining: the pieces joined with the separator give back the string. */
  lemma {:induction false} SplitJoin(s: string)
    ensures Join(Split(s), SEP) == s
    decreases |s|
  {
    match FindSep(s, 0)
    case None =>
    case Some(i) =>
      var rest := s[i + |SEP|..];
      SplitJoin(rest);
      JoinCons(s[..i], Split(rest), SEP);
      SepCutsString(s, i);
  }

  /**
   * The first cut is the leftmost separator: the first piece is a prefix of
   * the string, and there is more than one piece exactly when the string
   * holds a separator, which then starts right after the first piece and
   * nowhere before it.
   */
  lemma SplitCutsLeftmost(s: string)
    ensures Split(s)[0] <= s
    ensures |Split(s)| == 1 <==> forall j :: !SepAt(s, j)
    ensures |Split(s)| > 1 ==> SepAt(s, |Split(s)[0]|) && forall j :: 0 <= j < |Split(s)[0]| ==> !SepAt(s, j)
  {
    match FindSep(s, 0)
    case None =>
    case Some(i) =>
      assert Split(s) == [s[..i]] + Split(s[i + |SEP|..]);
  }

  /** The piece before the first separator holds no separator. */
  lemma PrefixHasNoSep(s: string, i: nat)
    requires FindSep(s, 0) == Some(i)
    ensures forall j :: !SepAt(s[..i], j)
  {
    forall j ensures !SepAt(s[..i], j) {
      if SepAt(s[..i], j) {
        assert s[..i][j..j + |SEP|] == s[j..j + |SEP|];
        assert SepAt(s, j) && j < i;
        assert false;
      }
    }
  }

  /** No piece of a split contains the separator. */
  lemma {:induction false} SplitPiecesHaveNoSep(s: string)
    ensures forall k, j :: 0 <= k < |Split(s)| ==> !SepAt(Split(s)[k], j)
    decreases |s|
  {
    match FindSep(s, 0)
    case None =>
    case Some(i) =>
      var rest := s[i + |SEP|..];
      SplitPiecesHaveNoSep(rest);
      PrefixHasNoSep(s, i);
      assert Split(s) == [s[..i]] + Split(rest);
  }

  /** Array destructuring: a missing element is `undefined`, which a template literal prints as "undefined". */
  function PartOr(parts: seq<string>, i: nat): string {
    if i < |parts| then parts[i] else "undefined"
  }

  /** The index of a missing destructured element: `stateIdx(undefined)` is `stateOrder.length`. */
  function PartIdx(parts: seq<string>, i: nat): nat {
    if i < |parts| then StateIdx(parts[i]) else |StateOrder|
  }

  /** The grouping key `${from}|||${to}`. */
  function Key(from: string, to: string): string {
    from + SEP + to
  }

  predicate NoBar(s: string) {
    forall i :: 0 <= i < |s| ==> s[i] != '|'
  }

  lemma {:induction false} NoSepWithoutBar(s: string)
    requires NoBar(s)
    ensures FindSep(s, 0).None?
  {
    var r := FindSep(s, 0);
    if r.Some? {
      SepAtHasBar(s, r.value);
    }
  }

  lemma SepAtHasBar(s: string, i: int)
    requires SepAt(s, i)
    ensures s[i] == '|'
  {
    assert s[i..i + |SEP|][0] == s[i];
  }

  /** Splitting a key recovers its two halves when neither contains a bar. */
  lemma KeySplits(from: string, to: string)
    requires NoBar(from) && NoBar(to)
    ensures Split(Key(from, to)) == [from, to]
  {
    var s := Key(from, to);
    assert SepAt(s, |from|) by {
      assert s[|from|..|from| + |SEP|] == SEP;
    }
    forall i | 0 <= i < |from|
      ensures !SepAt(s, i)
    {
      assert s[i] == from[i];
    }
    assert FindSep(s, 0) == Some(|from|);
    assert s[..|from|] == from;
    assert s[|from| + |SEP|..] == to;
    NoSepWithoutBar(to);
  }

  /** No status name contains a bar, so every edge key splits back into its two statuses. */
  lemma StatusNamesHaveNoBar(st: AuthStateStatus)
    ensures NoBar(StatusName(st))
  {
    var name := StatusName(st);
    forall i | 0 <= i < |name| ensures name[i] != '|' {
      assert name[i] in name;
    }
  }

  /** One entry of `edgeMap`: a key and the labels pushed under it. */
  datatype Group = Group(key: string, labels: seq<string>)

  /** The position of `key` among the groups, or their count when it is absent. */
  function KeyIndex(gs: seq<Group>, key: string): (r: nat)
    ensures r <= |gs|
    ensures r < |gs| ==> gs[r].key == key
    ensures forall k :: 0 <= k < r ==> gs[k].key != key
  {
    if gs == [] then 0
    else if gs[0].key == key then 0
    else 1 + KeyIndex(gs[1..], key)
  }

  function EdgeKey(e: Edge): string {
    Key(e.from, e.to)
  }

  /** One iteration of the grouping loop: create the entry if absent, then push the label. */
  function AddLabel(gs: seq<Group>, key: string, title: string): seq<Group> {
    var k := KeyIndex(gs, key);
    var gs' := if k == |gs| then gs + [Group(key, [])] else gs;
    gs'[k := Group(key, gs'[k].labels + [title])]
  }

  /** `edgeMap` after the grouping loop over `edges`. */
  function GroupEdges(edges: seq<Edge>): (r: seq<Group>)
    ensures |r| <= |edges|
  {
    if edges == [] then []
    else
      var e := edges[|edges| - 1];
      AddLabel(GroupEdges(edges[..|edges| - 1]), EdgeKey(e), e.event)
  }

  /** The labels of the edges with a given key, in enumeration order. */
  function LabelsFor(edges: seq<Edge>, key: string): seq<string> {
    if edges == [] then []
    else
      var e := edges[|edges| - 1];
      LabelsFor(edges[..|edges| - 1], key) + (if EdgeKey(e) == key then [e.event] else [])
  }

  predicate DistinctKeys(gs: seq<Group>) {
    forall i, j :: 0 <= i < j < |gs| ==> gs[i].key != gs[j].key
  }

  /** Grouping never creates two entries for one key. */
  lemma {:induction false} GroupKeysDistinct(edges: seq<Edge>)
    ensures DistinctKeys(GroupEdges(edges))
    decreases |edges|
  {
    if edges != [] {
      var prefix := edges[..|edges| - 1];
      var e := edges[|edges| - 1];
      GroupKeysDistinct(prefix);
      var gs := GroupEdges(prefix);
      var gs2 := GroupEdges(edges);
      assert gs2 == AddLabel(gs, EdgeKey(e), e.event);
      assert forall i :: 0 <= i < |gs2| ==> gs2[i].key == (if i < |gs| then gs[i].key else EdgeKey(e));
    }
  }

  /** Each entry holds exactly the labels of the edges with its key, in enumeration order. */
  lemma {:induction false} GroupLabelsExact(edges: seq<Edge>)
    ensures forall i :: 0 <= i < |GroupEdges(edges)| ==>
      GroupEdges(edges)[i].labels == LabelsFor(edges, GroupEdges(edges)[i].key)
    decreases |edges|
  {
    if edges != [] {
      var prefix := edges[..|edges| - 1];
      var e := edges[|edges| - 1];
      GroupLabelsExact(prefix);
      GroupKeysDistinct(prefix);
      GroupKeysPresent(prefix);
      var gs := GroupEdges(prefix);
      var k := KeyIndex(gs, EdgeKey(e));
      var gs2 := GroupEdges(edges);
      assert gs2 == AddLabel(gs, EdgeKey(e), e.event);
      forall i | 0 <= i < |gs2|
        ensures gs2[i].labels == LabelsFor(edges, gs2[i].key)
      {
        if i != k {
          assert gs2[i] == gs[i];
        }
      }
    }
  }

  /** A key has an entry exactly when some edge carries it. */
  lemma {:induction false} GroupKeysPresent(edges: seq<Edge>)
    ensures forall key :: KeyIndex(GroupEdges(edges), key) < |GroupEdges(edges)| <==> LabelsFor(edges, key) != []
    decreases |edges|
  {
    if edges != [] {
      var prefix := edges[..|edges| - 1];
      var e := edges[|edges| - 1];
      GroupKeysPresent(prefix);
      var gs := GroupEdges(prefix);
      var k := KeyIndex(gs, EdgeKey(e));
      var gs2 := GroupEdges(edges);
      assert gs2 == AddLabel(gs, EdgeKey(e), e.event);
      assert |gs2| == if k == |gs| then |gs| + 1 else |gs|;
      forall key
        ensures KeyIndex(gs2, key) < |gs2| <==> LabelsFor(edges, key) != []
      {
        if key == EdgeKey(e) {
          assert gs2[k].key == key;
        } else if KeyIndex(gs, key) < |gs| {
          assert gs2[KeyIndex(gs, key)].key == key;
        }
      }
    }
  }

  /**
   * Grouping merges the edges sharing (from, to): the keys are distinct,
   * a key has an entry iff some edge has it, and each entry holds exactly
   * that key's labels in enumeration order.
   */
  lemma GroupEdgesMerges(edges: seq<Edge>)
    ensures DistinctKeys(GroupEdges(edges))
    ensures forall i :: 0 <= i < |GroupEdges(edges)| ==>
      GroupEdges(edges)[i].labels == LabelsFor(edges, GroupEdges(edges)[i].key)
    ensures forall key :: KeyIndex(GroupEdges(edges), key) < |GroupEdges(edges)| <==> LabelsFor(edges, key) != []
  {
    GroupKeysDistinct(edges);
    GroupLabelsExact(edges);
    GroupKeysPresent(edges);
  }

  /** The grouping loop over the recorded edges, with `edgeMap` as a sequence of entries. */
  method GroupByPair(edges: seq<Edge>) returns (gs: seq<Group>)
    ensures gs == GroupEdges(edges)
  {
    gs := [];
    for i := 0 to |edges|
      invariant gs == GroupEdges(edges[..i])
    {
      assert edges[..i + 1][..i] == edges[..i];
      var key := Key(edges[i].from, edges[i].to);
      var k := KeyIndex(gs, key);
      if k == |gs| {
        gs := gs + [Group(key, [])];
      }
      gs := gs[k := Group(key, gs[k].labels + [edges[i].event])];
    }
    assert edges[..|edges|] == edges;
  }

  /** A key's place in the display order: the index of its from half, then of its to half. */
  function Rank(key: string): (nat, nat) {
    var parts := Split(key);
    (PartIdx(parts, 0), PartIdx(parts, 1))
  }

  /** The sort comparator: from-index difference, or the to-index difference when that is zero. */
  function Compare(a: string, b: string): (r: int)
    ensures r == 0 <==> Rank(a) == Rank(b)
  {
    var pa := Split(a);
    var pb := Split(b);
    var byFrom := PartIdx(pa, 0) - PartIdx(pb, 0);
    if byFrom != 0 then byFrom else PartIdx(pa, 1) - PartIdx(pb, 1)
  }

  predicate RankLe(x: (nat, nat), y: (nat, nat)) {
    x.0 < y.0 || (x.0 == y.0 && x.1 <= y.1)
  }

  /** The comparator answers "not after" exactly when the ranks are in lexicographic order. */
  lemma CompareIsRankOrder(a: string, b: string)
    ensures Compare(a, b) <= 0 <==> RankLe(Rank(a), Rank(b))
  {
  }

  predicate SortedBy(keys: seq<string>, rank: string -> (nat, nat)) {
    forall i, j :: 0 <= i < j < |keys| ==> RankLe(rank(keys[i]), rank(keys[j]))
  }

  /** Insert `x` before the first key it does not rank after. */
  function Insert(x: string, keys: seq<string>, rank: string -> (nat, nat)): (r: seq<string>)
    ensures multiset(r) == multiset(keys) + multiset{x}
  {
    if keys == [] then [x]
    else if RankLe(rank(x), rank(keys[0])) then [x] + keys
    else
      assert keys == [keys[0]] + keys[1..];
      [keys[0]] + Insert(x, keys[1..], rank)
  }

  /** Inserting into a sorted sequence keeps it sorted. */
  lemma {:induction false} InsertKeepsSorted(x: string, keys: seq<string>, rank: string -> (nat, nat))
    requires SortedBy(keys, rank)
    ensures SortedBy(Insert(x, keys, rank), rank)
    decreases |keys|
  {
    if keys != [] && !RankLe(rank(x), rank(keys[0])) {
      var rest := Insert(x, keys[1..], rank);
      InsertKeepsSorted(x, keys[1..], rank);
      forall j | 0 <= j < |rest|
        ensures RankLe(rank(keys[0]), rank(rest[j]))
      {
        assert rest[j] in multiset(rest);
        if rest[j] != x {
          assert rest[j] in multiset(keys[1..]);
          var m :| 0 <= m < |keys[1..]| && keys[1..][m] == rest[j];
          assert keys[m + 1] == rest[j];
        }
      }
    }
  }

  /** Stable insertion sort: a permutation of the keys, ordered by rank. */
  function SortBy(keys: seq<string>, rank: string -> (nat, nat)): (r: seq<string>)
    ensures multiset(r) == multiset(keys)
    ensures SortedBy(r, rank)
  {
    if keys == [] then []
    else
      assert keys == [keys[0]] + keys[1..];
      var sorted := SortBy(keys[1..], rank);
      InsertKeepsSorted(keys[0], sorted, rank);
      Insert(keys[0], sorted, rank)
  }

  /** `[...edgeMap.keys()].sort(comparator)`. */
  function SortKeys(keys: seq<string>): seq<string> {
    SortBy(keys, Rank)
  }

  /** The sorted keys are the same keys, and no key sorts before one the comparator puts ahead of it. */
  lemma SortKeysSorts(keys: seq<string>)
    ensures multiset(SortKeys(keys)) == multiset(keys)
    ensures forall i, j :: 0 <= i < j < |SortKeys(keys)| ==> Compare(SortKeys(keys)[i], SortKeys(keys)[j]) <= 0
  {
    var r := SortKeys(keys);
    forall i, j | 0 <= i < j < |r| ensures Compare(r[i], r[j]) <= 0 {
      CompareIsRankOrder(r[i], r[j]);
    }
  }

  /** `Array.prototype.join`. */
  function Join(parts: seq<string>, sep: string): (r: string)
    ensures parts == [] ==> r == ""
    ensures |parts| == 1 ==> r == parts[0]
  {
    if parts == [] then ""
    else if |parts| == 1 then parts[0]
    else parts[0] + sep + Join(parts[1..], sep)
  }

  /** Joining one more part appends the separator and that part: the parts appear in order. */
  lemma {:induction false} JoinSnoc(parts: seq<string>, x: string, sep: string)
    requires parts != []
    ensures Join(parts + [x], sep) == Join(parts, sep) + sep + x
    decreases |parts|
  {
    if |parts| > 1 {
      JoinSnoc(parts[1..], x, sep);
      assert (parts + [x])[1..] == parts[1..] + [x];
    }
  }

  /**
   * A pair's label text grows in enumeration order: each further edge with
   * the same key appends " / " and its label.
   */
  lemma LabelTextGrows(edges: seq<Edge>, e: Edge)
    ensures var key := EdgeKey(e);
      var before := LabelsFor(edges, key);
      Join(LabelsFor(edges + [e], key), " / ") == if before == [] then e.event else Join(before, " / ") + " / " + e.event
  {
    var key := EdgeKey(e);
    assert (edges + [e])[..|edges + [e]| - 1] == edges;
    if LabelsFor(edges, key) != [] {
      JoinSnoc(LabelsFor(edges, key), e.event, " / ");
    }
  }

  const EDGE_PAD: string := "  "

  /** The diagram's opening lines. */
  const Header: seq<string> := ["stateDiagram-v2", "    [*] --> " + StatusName(AuthStateStatus.START), ""]

  function EdgeLine(from: string, to: string, text: string): string {
    "    " + from + " --> " + to + " : " + EDGE_PAD + text + EDGE_PAD
  }

  /** The labels stored under a key (none for a key without an entry). */
  function LabelsAt(gs: seq<Group>, key: string): seq<string> {
    var k := KeyIndex(gs, key);
    if k < |gs| then gs[k].labels else []
  }

  /** The line for one key: its halves and its labels joined with " / ". */
  function LineFor(gs: seq<Group>, key: string): string {
    var parts := Split(key);
    EdgeLine(PartOr(parts, 0), PartOr(parts, 1), Join(LabelsAt(gs, key), " / "))
  }

  function LinesFor(gs: seq<Group>, keys: seq<string>): (r: seq<string>)
    ensures |r| == |keys|
    ensures forall k :: 0 <= k < |keys| ==> r[k] == LineFor(gs, keys[k])
  {
    seq(|keys|, k requires 0 <= k < |keys| => LineFor(gs, keys[k]))
  }

  function KeysOf(gs: seq<Group>): (r: seq<string>)
    ensures |r| == |gs|
    ensures forall i :: 0 <= i < |gs| ==> r[i] == gs[i].key
  {
    seq(|gs|, i requires 0 <= i < |gs| => gs[i].key)
  }

  /** The Mermaid lines up to the class definitions, for the given edges. */
  function Diagram(edges: seq<Edge>): seq<string> {
    var gs := GroupEdges(edges);
    var sorted := SortKeys(KeysOf(gs));
    Header + LinesFor(gs, sorted)
  }

  lemma {:induction false} LabelsForHasEdge(edges: seq<Edge>, key: string)
    ensures LabelsFor(edges, key) != [] <==> exists e :: e in edges && EdgeKey(e) == key
    decreases |edges|
  {
    if edges != [] {
      var prefix := edges[..|edges| - 1];
      LabelsForHasEdge(prefix, key);
      assert edges == prefix + [edges[|edges| - 1]];
    }
  }

  /** The line for an edge's key names the edge's two states and carries every label of the pair. */
  lemma LineOfEdgeKey(edges: seq<Edge>, e: Edge)
    requires e in edges && NoBar(e.from) && NoBar(e.to)
    ensures LineFor(GroupEdges(edges), EdgeKey(e)) == EdgeLine(e.from, e.to, Join(LabelsFor(edges, EdgeKey(e)), " / "))
  {
    var gs := GroupEdges(edges);
    GroupEdgesMerges(edges);
    LabelsForHasEdge(edges, EdgeKey(e));
    KeySplits(e.from, e.to);
  }

  /** The diagram opens with the header and has one line per entry of the grouping map. */
  lemma DiagramShape(edges: seq<Edge>)
    ensures |Diagram(edges)| == |Header| + |GroupEdges(edges)|
    ensures Diagram(edges)[0] == "stateDiagram-v2" && Diagram(edges)[1] == "    [*] --> START"
    ensures Diagram(edges)[|Header|..] == LinesFor(GroupEdges(edges), SortKeys(KeysOf(GroupEdges(edges))))
  {
    var keys := KeysOf(GroupEdges(edges));
    assert |multiset(SortKeys(keys))| == |multiset(keys)|;
  }

  /** Every edge's pair gets a line, carrying all labels recorded for that pair. */
  lemma DiagramCoversEdges(edges: seq<Edge>, e: Edge)
    requires e in edges && NoBar(e.from) && NoBar(e.to)
    ensures EdgeLine(e.from, e.to, Join(LabelsFor(edges, EdgeKey(e)), " / ")) in Diagram(edges)[|Header|..]
  {
    var gs := GroupEdges(edges);
    var keys := KeysOf(gs);
    var sorted := SortKeys(keys);
    DiagramShape(edges);
    GroupEdgesMerges(edges);
    LabelsForHasEdge(edges, EdgeKey(e));
    assert keys[KeyIndex(gs, EdgeKey(e))] == EdgeKey(e);
    assert EdgeKey(e) in multiset(sorted);
    var m :| 0 <= m < |sorted| && sorted[m] == EdgeKey(e);
    LineOfEdgeKey(edges, e);
    assert LinesFor(gs, sorted)[m] == LineFor(gs, EdgeKey(e));
  }

  /** A sorted key belongs to some recorded edge. */
  lemma SortedKeyHasEdge(edges: seq<Edge>, m: nat)
    requires m < |SortKeys(KeysOf(GroupEdges(edges)))|
    ensures exists e :: e in edges && EdgeKey(e) == SortKeys(KeysOf(GroupEdges(edges)))[m]
  {
    var gs := GroupEdges(edges);
    var keys := KeysOf(gs);
    var key := SortKeys(keys)[m];
    assert key in multiset(keys);
    var j :| 0 <= j < |keys| && keys[j] == key;
    GroupEdgesMerges(edges);
    assert KeyIndex(gs, key) < |gs|;
    LabelsForHasEdge(edges, key);
  }

  /** Line `|Header| + m` of the diagram is the line of the m-th sorted key. */
  lemma DiagramLineAt(edges: seq<Edge>, m: nat)
    requires m < |SortKeys(KeysOf(GroupEdges(edges)))|
    ensures |Header| + m < |Diagram(edges)|
    ensures Diagram(edges)[|Header| + m] == LineFor(GroupEdges(edges), SortKeys(KeysOf(GroupEdges(edges)))[m])
  {
    var gs := GroupEdges(edges);
    var sorted := SortKeys(KeysOf(gs));
    assert Diagram(edges) == Header + LinesFor(gs, sorted);
    assert LinesFor(gs, sorted)[m] == LineFor(gs, sorted[m]);
  }

  /** Every line after the header is the line of some recorded edge's pair. */
  lemma DiagramOnlyEdges(edges: seq<Edge>, k: nat)
    requires forall e :: e in edges ==> NoBar(e.from) && NoBar(e.to)
    requires |Header| <= k < |Diagram(edges)|
    ensures exists e :: e in edges && Diagram(edges)[k] == EdgeLine(e.from, e.to, Join(LabelsFor(edges, EdgeKey(e)), " / "))
  {
    var m := k - |Header|;
    DiagramShape(edges);
    var key := SortKeys(KeysOf(GroupEdges(edges)))[m];
    DiagramLineAt(edges, m);
    SortedKeyHasEdge(edges, m);
    var e :| e in edges && EdgeKey(e) == key;
    LineOfEdgeKey(edges, e);
  }

  /** The edges the probe records are named by statuses, so their keys split back. */
  lemma ProbedEdgesHaveNoBar(ps: seq<Pair>)
    ensures forall e :: e in EdgesOf(ps) ==> NoBar(e.from) && NoBar(e.to)
  {
    forall e | e in EdgesOf(ps)
      ensures NoBar(e.from) && NoBar(e.to)
    {
      EdgeRecordedIff(ps, e);
      var k :| 0 <= k < |ps| && e in EdgeOf(ps[k]);
      StatusNamesHaveNoBar(StatusOf(ps[k].0));
      StatusNamesHaveNoBar(StatusOf(Reducer.Reducer(ps[k].0, ps[k].1.event).next));
    }
  }

  /**
   * With no AUTHENTICATING fixture the script does not throw, and its
   * diagram has one line per reducer transition pair among the probes.
   */
  lemma FlowchartWithoutAuthenticating(states: seq<CoreState>, events: seq<EventFixture>)
    requires forall i :: 0 <= i < |states| ==> !states[i].Authenticating?
    ensures ProbeAll(states, events) == Probed(EdgesOf(Pairs(states, events)))
    ensures var edges := EdgesOf(Pairs(states, events));
      forall e :: e in edges ==>
        EdgeLine(e.from, e.to, Join(LabelsFor(edges, EdgeKey(e)), " / ")) in Diagram(edges)[|Header|..]
  {
    var ps := Pairs(states, events);
    PairsStates(states, events);
    ProbeFromCharacterised([], ps);
    ProbedEdgesHaveNoBar(ps);
    forall e | e in EdgesOf(ps)
      ensures EdgeLine(e.from, e.to, Join(LabelsFor(EdgesOf(ps), EdgeKey(e)), " / ")) in Diagram(EdgesOf(ps))[|Header|..]
    {
      DiagramCoversEdges(EdgesOf(ps), e);
    }
  }

  lemma {:induction false} PairsStates(states: seq<CoreState>, events: seq<EventFixture>)
    ensures forall k :: 0 <= k < |Pairs(states, events)| ==> Pairs(states, events)[k].0 in states
    decreases |states|
  {
    if states != [] {
      PairsStates(states[1..], events);
      var ps := Pairs(states, events);
      var row := Row(states[0], events);
      forall k | 0 <= k < |ps| ensures ps[k].0 in states {
        if k >= |row| {
          assert ps[k] == Pairs(states[1..], events)[k - |row|];
          var m :| 0 <= m < |states[1..]| && states[1..][m] == ps[k].0;
          assert states[m + 1] == ps[k].0;
        }
      }
    }
  }

  /** The rendering loop: the header, then one line per sorted key. */
  method RenderLines(gs: seq<Group>, sortedKeys: seq<string>) returns (lines: seq<string>)
    requires forall k :: 0 <= k < |sortedKeys| ==> KeyIndex(gs, sortedKeys[k]) < |gs|
    ensures lines == Header + LinesFor(gs, sortedKeys)
  {
    lines := ["stateDiagram-v2"];
    lines := lines + ["    [*] --> " + StatusName(AuthStateStatus.START)];
    lines := lines + [""];
    for i := 0 to |sortedKeys|
      invariant lines == Header + LinesFor(gs, sortedKeys[..i])
    {
      var parts := Split(sortedKeys[i]);
      var from := PartOr(parts, 0);
      var to := PartOr(parts, 1);
      var text := Join(gs[KeyIndex(gs, sortedKeys[i])].labels, " / ");
      lines := lines + [EdgeLine(from, to, text)];
      assert LinesFor(gs, sortedKeys[..i + 1]) == LinesFor(gs, sortedKeys[..i]) + [LineFor(gs, sortedKeys[i])];
    }
    assert sortedKeys[..|sortedKeys|] == sortedKeys;
  }

  /** The whole script up to the output: `None` when the probing loop throws. */
  method GenerateFlowchart(states: seq<CoreState>, events: seq<EventFixture>) returns (lines: Option<seq<string>>)
    ensures ProbeAll(states, events).Threw? ==> lines == None
    ensures ProbeAll(states, events).Probed? ==> lines == Some(Diagram(ProbeAll(states, events).edges))
  {
    var probe := EnumerateEdges(states, events);
    if probe.Threw? {
      return None;
    }
    var gs := GroupByPair(probe.edges);
    var sortedKeys := SortKeys(KeysOf(gs));
    forall k | 0 <= k < |sortedKeys| ensures KeyIndex(gs, sortedKeys[k]) < |gs| {
      assert sortedKeys[k] in multiset(KeysOf(gs));
      var j :| 0 <= j < |gs| && KeysOf(gs)[j] == sortedKeys[k];
    }
    var rendered := RenderLines(gs, sortedKeys);
    lines := Some(rendered);
  }
}
