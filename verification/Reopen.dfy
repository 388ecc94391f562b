/** The background consumer's reopen loop: src/broker/consume-order-placed.ts:136-188. */
module Reopen {
  import opened Prelude

  // Where the loop stands. Tidying: in `finally`, closing what it took over.
  datatype Phase = Top | Opening | Attached(conn: nat) | Tidying(dying: Option<nat>) | Waiting | Done

  // `live`: connections open right now; `closer`: what a call to close() is closing.
  datatype State = State(
    phase: Phase,
    stopped: bool,
    current: Option<nat>,
    closer: Option<nat>,
    live: set<nat>,
    attached: nat)

  datatype Step =
    | Check
    | Opened(conn: nat)
    | OpenFailed
    | AttachEnds
    | Tidied
    | Wake
    | CloseCalled
    | CloserTidied

  predicate Enabled(s: State, a: Step) {
    match a
    case Check => s.phase == Top
    case Opened(conn) => s.phase == Opening && conn !in s.live
    case OpenFailed => s.phase == Opening
    case AttachEnds => s.phase.Attached?
    case Tidied => s.phase.Tidying?
    case Wake => s.phase == Waiting
    case CloseCalled => !s.stopped
    case CloserTidied => s.closer.Some?
  }

  function Without(live: set<nat>, conn: Option<nat>): set<nat> { if conn.Some? then live - {conn.value} else live }

  function Do(s: State, a: Step): State
    requires Enabled(s, a)
  {
    match a
    case Check =>
      if s.stopped then s.(phase := Done)
      else if s.current.None? then s.(phase := Opening)
      else s.(phase := Attached(s.current.value), attached := s.attached + 1)
    case Opened(conn) =>
      if s.stopped then s.(phase := Tidying(Some(conn)), current := None, live := s.live + {conn})
      else s.(phase := Attached(conn), current := Some(conn), live := s.live + {conn}, attached := s.attached + 1)
    case OpenFailed => s.(phase := Tidying(s.current), current := None)
    case AttachEnds => s.(phase := Tidying(s.current), current := None)
    case Tidied => s.(phase := if s.stopped then Done else Waiting, live := Without(s.live, s.phase.dying))
    case Wake => s.(phase := Top)
    case CloseCalled => s.(stopped := true, current := None, closer := s.current)
    case CloserTidied => s.(live := Without(s.live, s.closer), closer := None)
  }

  function Started(conn: nat): State { State(Top, false, Some(conn), None, {conn}, 0) }

  ghost predicate Executes(s: State, steps: seq<Step>, s': State)
    decreases |steps|
  {
    if steps == [] then s' == s
    else Enabled(s, steps[0]) && Executes(Do(s, steps[0]), steps[1..], s')
  }

  /** The captured variables of the loop and of `close`, and the connections open. */
  class Background {
    var phase: Phase
    var stopped: bool
    var current: Option<nat>
    var closer: Option<nat>
    var live: set<nat>
    var attached: nat

    ghost function View(): State
      reads this
    {
      State(phase, stopped, current, closer, live, attached)
    }

    // The first connection is open before the loop starts.
    constructor (conn: nat)
      ensures View() == Started(conn)
    {
      phase, stopped, current, closer, live, attached := Top, false, Some(conn), None, {conn}, 0;
    }

    // The head of the loop, up to its first await.
    method BeginRound()
      requires Enabled(View(), Check)
      modifies this
      ensures View() == Do(old(View()), Check)
    {
      if stopped { phase := Done; return; }
      if current.None? { phase := Opening; return; }
      phase := Attached(current.value);
      attached := attached + 1;
    }

    method OpenEnds(conn: Option<nat>)
      requires Enabled(View(), if conn.Some? then Opened(conn.value) else OpenFailed)
      modifies this
      ensures View() == Do(old(View()), if conn.Some? then Opened(conn.value) else OpenFailed)
    {
      if conn.None? { TakeDown(); return; }
      live := live + {conn.value};
      current := conn;
      if stopped { TakeDown(); return; }
      phase := Attached(conn.value);
      attached := attached + 1;
    }

    method AttachmentEnds()
      requires Enabled(View(), AttachEnds)
      modifies this
      ensures View() == Do(old(View()), AttachEnds)
    {
      TakeDown();
    }

    // The head of `finally`.
    method TakeDown()
      modifies `phase, `current
      ensures phase == Tidying(old(current)) && current.None?
    {
      phase := Tidying(current);
      current := None;
    }

    method SafeCloseEnds()
      requires Enabled(View(), Tidied)
      modifies this
      ensures View() == Do(old(View()), Tidied)
    {
      live := Without(live, phase.dying);
      phase := if stopped then Done else Waiting;
    }

    method TimerOrWake()
      requires Enabled(View(), Wake)
      modifies this
      ensures View() == Do(old(View()), Wake)
    {
      phase := Top;
    }

    method Close()
      requires Enabled(View(), CloseCalled)
      modifies this
      ensures View() == Do(old(View()), CloseCalled)
    {
      stopped := true;
      closer := current;
      current := None;
    }

    method CloseEnds()
      requires Enabled(View(), CloserTidied)
      modifies this
      ensures View() == Do(old(View()), CloserTidied)
    {
      live := Without(live, closer);
      closer := None;
    }
  }

  function SetOf(conn: Option<nat>): set<nat> { if conn.Some? then {conn.value} else {} }

  function Dying(phase: Phase): Option<nat> { if phase.Tidying? then phase.dying else None }

  // Exactly what somebody is responsible for closing is open, and it is at most one connection.
  ghost predicate Inv(s: State) {
    && s.live == SetOf(s.current) + SetOf(Dying(s.phase)) + SetOf(s.closer)
    && (s.current.Some? ==> !s.stopped && s.closer.None? && Dying(s.phase).None?)
    && (s.current.Some? ==> s.phase == Top || s.phase == Attached(s.current.value))
    && (s.closer.Some? ==> s.stopped && s.phase != Opening && Dying(s.phase).None?)
    && (s.phase.Attached? && !s.stopped ==> s.current == Some(s.phase.conn))
    && (s.phase.Tidying? && !s.stopped ==> s.current.None?)
    && (s.phase == Done ==> s.stopped)
  }

  lemma StepKeeps(s: State, a: Step)
    requires Inv(s) && Enabled(s, a)
    ensures Inv(Do(s, a))
    ensures s.stopped ==> Do(s, a).stopped && Do(s, a).attached == s.attached
  {
  }

  lemma {:induction false} RunKeeps(s: State, steps: seq<Step>, s': State)
    requires Inv(s) && Executes(s, steps, s')
    ensures Inv(s')
    ensures s.stopped ==> s'.stopped && s'.attached == s.attached
    decreases |steps|
  {
    if steps != [] {
      StepKeeps(s, steps[0]);
      RunKeeps(Do(s, steps[0]), steps[1..], s');
    }
  }

  // In every run at most one connection is open; the loop ends only when it was
  // stopped; once stopped it never attaches again; and when it has ended and
  // close() has done its part, nothing is left open.
  lemma OneConnection(conn: nat, before: seq<Step>, s: State, after: seq<Step>, s': State)
    requires Executes(Started(conn), before, s) && Executes(s, after, s')
    ensures |s'.live| <= 1
    ensures s'.phase == Done ==> s'.stopped
    ensures s.stopped ==> s'.stopped && s'.attached == s.attached
    ensures s'.phase == Done && s'.closer.None? ==> s'.live == {}
  {
    RunKeeps(Started(conn), before, s);
    RunKeeps(s, after, s');
    AtMostOne(s');
  }

  lemma AtMostOne(s: State)
    requires Inv(s)
    ensures |s.live| <= 1
  {
    if s.current.Some? {
      assert s.live == {s.current.value};
    } else if s.closer.Some? {
      assert s.live == {s.closer.value};
    }
  }

  // ----- it comes back -----

  lemma {:induction false} ExecutesAppend(s: State, a: seq<Step>, s1: State, b: seq<Step>, s2: State)
    requires Executes(s, a, s1) && Executes(s1, b, s2)
    ensures Executes(s, a + b, s2)
    decreases |a|
  {
    if a == [] {
      assert a + b == b;
    } else {
      ExecutesAppend(Do(s, a[0]), a[1..], s1, b, s2);
      assert (a + b)[1..] == a[1..] + b;
    }
  }

  lemma Then(s: State, a: Step, rest: seq<Step>, s': State)
    requires Enabled(s, a) && Executes(Do(s, a), rest, s')
    ensures Executes(s, [a] + rest, s')
  {
    assert ([a] + rest)[1..] == rest;
  }

  lemma {:induction false} FreshConnection(live: set<nat>) returns (conn: nat)
    ensures conn !in live
  {
    conn := 0;
    var rest := live;
    while conn in rest
      invariant forall i :: i in live ==> i < conn || i in rest
      decreases |rest|
    {
      rest := rest - {conn};
      conn := conn + 1;
    }
  }

  // A new attachment was made without anybody stopping the loop.
  ghost predicate Reattached(s: State, s': State) { !s'.stopped && s'.phase.Attached? && s'.attached == s.attached + 1 }

  lemma FromOpening(s: State) returns (steps: seq<Step>, s': State)
    requires s.phase == Opening && !s.stopped
    ensures |steps| == 1 && Executes(s, steps, s') && Reattached(s, s')
  {
    var conn := FreshConnection(s.live);
    s' := Do(s, Opened(conn));
    steps := [Opened(conn)];
    assert steps[1..] == [] && Executes(s', [], s');
  }

  lemma FromTop(s: State) returns (steps: seq<Step>, s': State)
    requires s.phase == Top && !s.stopped
    ensures |steps| <= 2 && Executes(s, steps, s') && Reattached(s, s')
  {
    var s1 := Do(s, Check);
    if s1.phase == Opening {
      var rest;
      rest, s' := FromOpening(s1);
      Then(s, Check, rest, s');
      steps := [Check] + rest;
    } else {
      s' := s1;
      steps := [Check];
      assert steps[1..] == [] && Executes(s', [], s');
    }
  }

  lemma FromWaiting(s: State) returns (steps: seq<Step>, s': State)
    requires s.phase == Waiting && !s.stopped
    ensures |steps| <= 3 && Executes(s, steps, s') && Reattached(s, s')
  {
    var rest;
    rest, s' := FromTop(Do(s, Wake));
    Then(s, Wake, rest, s');
    steps := [Wake] + rest;
  }

  lemma FromTidying(s: State) returns (steps: seq<Step>, s': State)
    requires s.phase.Tidying? && !s.stopped
    ensures |steps| <= 4 && Executes(s, steps, s') && Reattached(s, s')
  {
    var rest;
    rest, s' := FromWaiting(Do(s, Tidied));
    Then(s, Tidied, rest, s');
    steps := [Tidied] + rest;
  }

  // In every state of every run that has not been stopped, at most five steps lead
  // to a new attachment: also when the one there is ends, and when opening fails.
  lemma ComesBack(conn: nat, before: seq<Step>, s: State) returns (steps: seq<Step>, s': State)
    requires Executes(Started(conn), before, s) && !s.stopped
    ensures |steps| <= 5 && Executes(s, steps, s') && Reattached(s, s')
  {
    RunKeeps(Started(conn), before, s);
    if s.phase == Top {
      steps, s' := FromTop(s);
    } else if s.phase == Opening {
      steps, s' := FromOpening(s);
    } else if s.phase == Waiting {
      steps, s' := FromWaiting(s);
    } else if s.phase.Tidying? {
      steps, s' := FromTidying(s);
    } else {
      var rest;
      rest, s' := FromTidying(Do(s, AttachEnds));
      Then(s, AttachEnds, rest, s');
      steps := [AttachEnds] + rest;
    }
  }

  // After a failed open the next one is four steps away.
  lemma FailedOpenIsRepeated(conn: nat, before: seq<Step>, s: State)
    requires Executes(Started(conn), before, s) && !s.stopped && s.phase == Opening
    ensures Enabled(s, OpenFailed)
    ensures exists s' :: Executes(s, [OpenFailed, Tidied, Wake, Check], s') && s'.phase == Opening && s'.live == s.live
  {
    RunKeeps(Started(conn), before, s);
    var s1 := Do(s, OpenFailed);
    var s2 := Do(s1, Tidied);
    var s3 := Do(s2, Wake);
    var s4 := Do(s3, Check);
    assert Executes(s4, [], s4);
    Then(s3, Check, [], s4);
    Then(s2, Wake, [Check], s4);
    Then(s1, Tidied, [Wake, Check], s4);
    Then(s, OpenFailed, [Tidied, Wake, Check], s4);
    assert [OpenFailed] + [Tidied, Wake, Check] == [OpenFailed, Tidied, Wake, Check];
    assert [Tidied] + [Wake, Check] == [Tidied, Wake, Check];
    assert [Wake] + [Check] == [Wake, Check] && [Check] + [] == [Check];
  }

  // ----- and it goes down -----

  lemma ToDone(s: State) returns (steps: seq<Step>, s': State)
    requires s.stopped
    ensures |steps| <= 2 && Executes(s, steps, s') && s'.phase == Done && s'.closer == s.closer
  {
    if s.phase == Done {
      steps, s' := [], s;
    } else if s.phase == Top {
      steps, s' := [Check], Do(s, Check);
    } else if s.phase == Waiting {
      steps, s' := [Wake, Check], Do(Do(s, Wake), Check);
    } else if s.phase == Opening {
      steps, s' := [OpenFailed, Tidied], Do(Do(s, OpenFailed), Tidied);
    } else if s.phase.Tidying? {
      steps, s' := [Tidied], Do(s, Tidied);
    } else {
      steps, s' := [AttachEnds, Tidied], Do(Do(s, AttachEnds), Tidied);
    }
    if |steps| == 1 { assert steps[1..] == []; }
    if |steps| == 2 { assert steps[1..] == [steps[1]] && steps[1..][1..] == []; }
    assert Executes(s', [], s');
  }

  // From every state of every run, close() brings the loop to its end with nothing
  // left open in at most four steps.
  lemma GoesDown(conn: nat, before: seq<Step>, s: State) returns (steps: seq<Step>, s': State)
    requires Executes(Started(conn), before, s) && !s.stopped
    ensures |steps| <= 4 && Executes(s, steps, s') && s'.phase == Done && s'.live == {}
  {
    RunKeeps(Started(conn), before, s);
    var s1 := Do(s, CloseCalled);
    StepKeeps(s, CloseCalled);
    var rest, s2 := ToDone(s1);
    RunKeeps(s1, rest, s2);
    Then(s, CloseCalled, rest, s2);
    steps, s' := [CloseCalled] + rest, s2;
    if s2.closer.Some? {
      s' := Do(s2, CloserTidied);
      StepKeeps(s2, CloserTidied);
      assert [CloserTidied][1..] == [] && Executes(s', [], s') && Executes(s2, [CloserTidied], s');
      ExecutesAppend(s, steps, s2, [CloserTidied], s');
      steps := steps + [CloserTidied];
    }
  }
}
