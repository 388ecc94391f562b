/** One attached consumer: the handler chain of src/broker/consume-order-placed.ts. */
module Consumer {
  import opened Prelude
  import Json
  import Contract
  import Inbox

  type Body = Option<Json.Json>

  datatype Verdict = Open | Resolved | Failed
  datatype Reply = Ack(tag: nat) | Reject(tag: nat) | Nack(tag: nat)
  // Where the handler in progress is: its transaction runs, has committed, or it
  // waits for ever under crashBeforeAck.
  datatype Phase = Idle | Applying | Committed | Hung
  datatype Stats = Stats(delivered: nat, acked: nat, rejected: nat)
  datatype Options = Options(crashBeforeAck: bool, stopAfter: Option<nat>)

  const PREFETCH: nat := 50

  // Messages are numbered in order of delivery. Handlers 0..begun have been
  // reached; the rest wait in the chain. `broken`: the last handler threw while
  // answering on a closed channel, so the next one is replaced by fail.
  datatype State = State(
    received: seq<Body>,
    begun: nat,
    phase: Phase,
    broken: bool,
    usable: bool,
    settled: Verdict,
    stats: Stats,
    replies: seq<Reply>,
    inbox: Inbox.Inbox)

  datatype Step =
    | Receive(body: Body)
    | Begin
    | Commit
    | DatabaseError
    | Resume
    | CloseChannel
    | CloseEvent
    | Elsewhere(e: Contract.Event)

  function SettledBy(settled: Verdict, verdict: Verdict): Verdict { if settled == Open then verdict else settled }

  function Checked(o: Options, settled: Verdict, stats: Stats): Verdict {
    if o.stopAfter.Some? && stats.acked + stats.rejected >= o.stopAfter.value then SettledBy(settled, Resolved)
    else settled
  }

  predicate Enabled(s: State, a: Step) {
    match a
    case Receive(body) => s.usable && |s.received| < |s.replies| + PREFETCH
    case Begin => s.phase == Idle && s.begun < |s.received|
    case Commit => s.phase == Applying && 1 <= s.begun <= |s.received|
    case DatabaseError => s.phase == Applying && s.begun >= 1
    case Resume => s.phase == Committed && s.begun >= 1
    case CloseChannel => true
    case CloseEvent => !s.usable
    case Elsewhere(e) => true
  }

  function Do(o: Options, parse: Body -> Contract.Parsed, s: State, a: Step): State
    requires Enabled(s, a)
  {
    match a
    case Receive(body) => s.(received := s.received + [body])
    case Begin => DoBegin(o, parse, s)
    case Commit => DoCommit(parse, s)
    case DatabaseError => DoDatabaseError(s)
    case Resume => DoResume(o, s)
    case CloseChannel => s.(usable := false)
    case CloseEvent => s.(settled := SettledBy(s.settled, Failed))
    case Elsewhere(e) => s.(inbox := Inbox.Apply(s.inbox, e))
  }

  function DoBegin(o: Options, parse: Body -> Contract.Parsed, s: State): State
    requires s.begun < |s.received|
  {
    var next := s.(begun := s.begun + 1);
    if s.broken then next.(broken := false, settled := SettledBy(s.settled, Failed))
    else if s.settled != Open then next
    else
      var counted := s.stats.(delivered := s.stats.delivered + 1);
      if parse(s.received[s.begun]).Ok? then next.(stats := counted, phase := Applying)
      else if !s.usable then next.(stats := counted, broken := true)
      else
        var stats := counted.(rejected := counted.rejected + 1);
        next.(stats := stats, replies := s.replies + [Reject(s.begun)], settled := Checked(o, s.settled, stats))
  }

  function DoCommit(parse: Body -> Contract.Parsed, s: State): State
    requires 1 <= s.begun <= |s.received|
  {
    var parsed := parse(s.received[s.begun - 1]);
    if parsed.Ok? then s.(phase := Committed, inbox := Inbox.Apply(s.inbox, parsed.event)) else s
  }

  function DoDatabaseError(s: State): State
    requires s.begun >= 1
  {
    if s.usable then
      s.(phase := Idle, replies := s.replies + [Nack(s.begun - 1)], settled := SettledBy(s.settled, Failed))
    else s.(phase := Idle, broken := true)
  }

  function DoResume(o: Options, s: State): State
    requires s.begun >= 1
  {
    if o.crashBeforeAck then s.(phase := Hung)
    else if !s.usable then s.(phase := Idle, broken := true)
    else
      var stats := s.stats.(acked := s.stats.acked + 1);
      s.(phase := Idle, stats := stats,
         replies := s.replies + [Ack(s.begun - 1)], settled := Checked(o, s.settled, stats))
  }

  function Attached(inbox: Inbox.Inbox): State {
    State([], 0, Idle, false, true, Open, Stats(0, 0, 0), [], inbox)
  }

  ghost predicate Executes(o: Options, parse: Body -> Contract.Parsed, s: State, steps: seq<Step>, s': State)
    decreases |steps|
  {
    if steps == [] then s' == s
    else Enabled(s, steps[0]) && Executes(o, parse, Do(o, parse, s, steps[0]), steps[1..], s')
  }

  /** The captured variables of `attach`, and what reached the broker and the database. */
  class Attachment {
    const options: Options
    var received: seq<Body>
    var begun: nat
    var phase: Phase
    var broken: bool
    var usable: bool
    var settled: Verdict
    var stats: Stats
    var replies: seq<Reply>
    var inbox: Inbox.Inbox

    ghost function View(): State
      reads this
    {
      State(received, begun, phase, broken, usable, settled, stats, replies, inbox)
    }

    constructor (options: Options, inbox: Inbox.Inbox)
      ensures View() == Attached(inbox) && this.options == options
    {
      this.options, this.inbox := options, inbox;
      received, begun, phase, broken, usable, settled, stats, replies :=
        [], 0, Idle, false, true, Open, Stats(0, 0, 0), [];
    }

    method Fail()
      modifies `settled
      ensures settled == SettledBy(old(settled), Failed)
    {
      if settled != Open { return; }
      settled := Failed;
    }

    method Succeed()
      modifies `settled
      ensures settled == SettledBy(old(settled), Resolved)
    {
      if settled != Open { return; }
      settled := Resolved;
    }

    method OnMessage(body: Body)
      requires Enabled(View(), Receive(body))
      modifies this
      ensures forall parse :: View() == Do(options, parse, old(View()), Receive(body))
    {
      received := received + [body];
    }

    method OnClose()
      requires Enabled(View(), CloseEvent)
      modifies this
      ensures forall parse :: View() == Do(options, parse, old(View()), CloseEvent)
    {
      Fail();
    }

    // The next handler of the chain, up to its first await.
    method BeginHandler(parse: Body -> Contract.Parsed)
      requires Enabled(View(), Begin)
      modifies this
      ensures View() == Do(options, parse, old(View()), Begin)
    {
      var tag := begun;
      begun := begun + 1;
      if broken {
        broken := false;
        Fail();
        return;
      }
      if settled != Open { return; }
      stats := stats.(delivered := stats.delivered + 1);
      var parsed := parse(received[tag]);
      if parsed.Ok? {
        phase := Applying;
      } else if usable {
        replies := replies + [Reject(tag)];
        stats := stats.(rejected := stats.rejected + 1);
        SettleIfEnough();
      } else {
        broken := true;
      }
    }

    // The transaction of the handler in progress ends.
    method ApplyEnds(parse: Body -> Contract.Parsed, databaseFails: bool)
      requires Enabled(View(), Commit) && parse(received[begun - 1]).Ok?
      modifies this
      ensures View() == Do(options, parse, old(View()), if databaseFails then DatabaseError else Commit)
    {
      var store := new Inbox.Store();
      store.inbox := inbox;
      var result := store.ApplyOrderPlaced(parse(received[begun - 1]).event, databaseFails);
      inbox := store.inbox;
      if result.Some? {
        phase := Committed;
      } else {
        phase := Idle;
        if usable {
          replies := replies + [Nack(begun - 1)];
          Fail();
        } else {
          broken := true;
        }
      }
    }

    // The handler goes on after its transaction.
    method ResumeHandler()
      requires Enabled(View(), Resume)
      modifies this
      ensures forall parse :: View() == Do(options, parse, old(View()), Resume)
    {
      if options.crashBeforeAck {
        phase := Hung;
        return;
      }
      phase := Idle;
      if usable {
        replies := replies + [Ack(begun - 1)];
        stats := stats.(acked := stats.acked + 1);
        SettleIfEnough();
      } else {
        broken := true;
      }
    }

    method SettleIfEnough()
      modifies `settled
      ensures settled == Checked(options, old(settled), stats)
    {
      if options.stopAfter.Some? && stats.acked + stats.rejected >= options.stopAfter.value {
        Succeed();
      }
    }
  }

  // ----- what every run of an attachment keeps -----

  ghost predicate CountsInv(o: Options, s: State) {
    var settledCount := s.stats.acked + s.stats.rejected;
    && settledCount <= s.stats.delivered <= settledCount + 1
    && (s.phase != Idle || s.broken ==> s.stats.delivered == settledCount + 1)
    && (s.settled == Open && s.phase == Idle && !s.broken ==> s.stats.delivered == settledCount)
    && (s.settled == Resolved ==> s.stats.delivered == settledCount && s.phase == Idle && !s.broken)
    && !(s.phase != Idle && s.broken)
    && (s.broken ==> !s.usable)
    && (s.settled != Open && s.phase != Idle ==> !s.usable)
  }

  // How many messages may be settled.
  function Cap(stopAfter: nat): nat { if stopAfter == 0 then 1 else stopAfter }

  ghost predicate StopInv(o: Options, s: State) {
    o.stopAfter.Some? ==>
      && s.stats.acked + s.stats.rejected <= Cap(o.stopAfter.value)
      && (s.settled == Open ==> s.stats.acked + s.stats.rejected < Cap(o.stopAfter.value))
      && (s.settled == Resolved ==> s.stats.acked + s.stats.rejected == Cap(o.stopAfter.value))
  }

  ghost predicate OrderInv(s: State) {
    && s.begun <= |s.received| && |s.replies| <= s.begun
    && (s.settled == Open && s.phase == Idle && !s.broken ==> |s.replies| == s.begun)
    && (s.phase != Idle ==> |s.replies| + 1 == s.begun)
    && (forall i :: 0 <= i < |s.replies| ==> s.replies[i].tag == i)
  }

  predicate Marked(parse: Body -> Contract.Parsed, body: Body, marks: seq<string>) {
    parse(body).Ok? && parse(body).event.eventId in marks
  }

  predicate ReplyOk(parse: Body -> Contract.Parsed, reply: Reply, body: Body, marks: seq<string>) {
    match reply
    case Ack(_) => Marked(parse, body, marks)
    case Reject(_) => parse(body).BadEvent?
    case Nack(_) => parse(body).Ok?
  }

  ghost predicate TruthInv(parse: Body -> Contract.Parsed, s: State) {
    && |s.replies| <= |s.received|
    && (forall i :: 0 <= i < |s.replies| ==> ReplyOk(parse, s.replies[i], s.received[i], s.inbox.marks))
    && (s.phase != Idle ==> 1 <= s.begun <= |s.received| && parse(s.received[s.begun - 1]).Ok?)
    && (s.phase == Committed || s.phase == Hung ==> Marked(parse, s.received[s.begun - 1], s.inbox.marks))
  }

  lemma CountsKept(o: Options, parse: Body -> Contract.Parsed, s: State, a: Step)
    requires CountsInv(o, s) && Enabled(s, a)
    ensures CountsInv(o, Do(o, parse, s, a))
  {
  }

  lemma StopKept(o: Options, parse: Body -> Contract.Parsed, s: State, a: Step)
    requires CountsInv(o, s) && StopInv(o, s) && Enabled(s, a)
    ensures StopInv(o, Do(o, parse, s, a))
  {
  }

  lemma OrderKept(o: Options, parse: Body -> Contract.Parsed, s: State, a: Step)
    requires CountsInv(o, s) && OrderInv(s) && Enabled(s, a)
    ensures OrderInv(Do(o, parse, s, a))
  {
  }

  lemma TruthKept(o: Options, parse: Body -> Contract.Parsed, s: State, a: Step)
    requires CountsInv(o, s) && OrderInv(s) && TruthInv(parse, s) && Enabled(s, a)
    ensures TruthInv(parse, Do(o, parse, s, a))
  {
  }
}
