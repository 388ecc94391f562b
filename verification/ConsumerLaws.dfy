/** What an attached consumer guarantees in every run. */
module ConsumerLaws {
  import opened Prelude
  import opened Consumer
  import Json
  import Contract
  import Inbox

  ghost predicate Inv(o: Options, parse: Body -> Contract.Parsed, s: State) {
    CountsInv(o, s) && StopInv(o, s) && OrderInv(s) && TruthInv(parse, s) && Inbox.MarkIffEffect(s.inbox)
  }

  lemma InboxKept(o: Options, parse: Body -> Contract.Parsed, s: State, a: Step)
    requires Inbox.MarkIffEffect(s.inbox) && Enabled(s, a)
    ensures Inbox.MarkIffEffect(Do(o, parse, s, a).inbox)
  {
    if a.Elsewhere? { Inbox.ApplyKeepsMarkIffEffect(s.inbox, a.e); }
    if a.Commit? && parse(s.received[s.begun - 1]).Ok? {
      Inbox.ApplyKeepsMarkIffEffect(s.inbox, parse(s.received[s.begun - 1]).event);
    }
  }

  lemma StepKeeps(o: Options, parse: Body -> Contract.Parsed, s: State, a: Step)
    requires Inv(o, parse, s) && Enabled(s, a)
    ensures Inv(o, parse, Do(o, parse, s, a))
  {
    CountsKept(o, parse, s, a);
    StopKept(o, parse, s, a);
    OrderKept(o, parse, s, a);
    TruthKept(o, parse, s, a);
    InboxKept(o, parse, s, a);
  }

  lemma {:induction false} RunKeeps(o: Options, parse: Body -> Contract.Parsed, s: State, steps: seq<Step>, s': State)
    requires Inv(o, parse, s) && Executes(o, parse, s, steps, s')
    ensures Inv(o, parse, s')
    decreases |steps|
  {
    if steps != [] {
      StepKeeps(o, parse, s, steps[0]);
      RunKeeps(o, parse, Do(o, parse, s, steps[0]), steps[1..], s');
    }
  }

  // While the channel is open every message begun is answered once; a nack is the
  // last answer, and what settled the attachment.
  ghost predicate AnswerInv(s: State) {
    && (s.usable ==> |s.replies| + (if s.phase == Idle then 0 else 1) == s.stats.delivered)
    && (forall i :: 0 <= i < |s.replies| && s.replies[i].Nack? ==> i == |s.replies| - 1 && s.settled == Failed)
    && (s.usable && s.settled == Failed ==> s.replies != [] && s.replies[|s.replies| - 1].Nack?)
    && (s.usable ==> !s.broken) && (s.usable && s.settled != Open ==> s.phase == Idle)
    && (s.settled == Failed && !s.usable && s.phase != Idle ==>
          forall i :: 0 <= i < |s.replies| ==> !s.replies[i].Nack?)
  }

  lemma AnswerKept(o: Options, parse: Body -> Contract.Parsed, s: State, a: Step)
    requires AnswerInv(s) && Enabled(s, a)
    ensures AnswerInv(Do(o, parse, s, a))
  {
  }

  lemma {:induction false} RunAnswers(o: Options, parse: Body -> Contract.Parsed, s: State, steps: seq<Step>, s': State)
    requires AnswerInv(s) && Executes(o, parse, s, steps, s')
    ensures AnswerInv(s')
    decreases |steps|
  {
    if steps != [] {
      AnswerKept(o, parse, s, steps[0]);
      RunAnswers(o, parse, Do(o, parse, s, steps[0]), steps[1..], s');
    }
  }

  // On an open channel: every message whose handler has run was acked, rejected
  // or nacked, each exactly once; and the attachment failed if and only if its
  // last message was nacked.
  lemma OpenChannelAnswersAll(o: Options, parse: Body -> Contract.Parsed, inbox: Inbox.Inbox, steps: seq<Step>,
                              s: State)
    requires Executes(o, parse, Attached(inbox), steps, s) && s.usable && s.phase == Idle
    ensures |s.replies| == s.stats.delivered
    ensures s.stats.acked == AcksIn(s.replies) && s.stats.rejected == RejectsIn(s.replies)
    ensures s.settled == Failed <==> exists i :: 0 <= i < |s.replies| && s.replies[i].Nack?
  {
    RunAnswers(o, parse, Attached(inbox), steps, s);
    RunTallied(o, parse, Attached(inbox), steps, s);
    if s.settled == Failed { assert s.replies[|s.replies| - 1].Nack?; }
  }

  // For every sequence of deliveries, database errors, crashes and channel
  // closures: the counters agree to within the handler in progress; the i-th
  // answer is for the i-th message delivered; an acked message has its mark and
  // its effect committed; only bodies the contract refuses are rejected; and with
  // stopAfter >= 1 no more than that many are settled, however many are prefetched.
  lemma ConsumerAccounts(o: Options, parse: Body -> Contract.Parsed, inbox: Inbox.Inbox, steps: seq<Step>, s: State)
    requires Inbox.MarkIffEffect(inbox) && Executes(o, parse, Attached(inbox), steps, s)
    ensures s.stats.acked + s.stats.rejected <= s.stats.delivered <= s.stats.acked + s.stats.rejected + 1
    ensures |s.replies| <= |s.received| && forall i :: 0 <= i < |s.replies| ==> s.replies[i].tag == i
    ensures forall i :: 0 <= i < |s.replies| && s.replies[i].Ack? ==>
      parse(s.received[i]).Ok? && Inbox.HasEffect(s.inbox.effects, parse(s.received[i]).event.eventId)
    ensures forall i :: 0 <= i < |s.replies| && s.replies[i].Reject? ==> parse(s.received[i]).BadEvent?
    ensures o.stopAfter.Some? && o.stopAfter.value >= 1 ==> s.stats.acked + s.stats.rejected <= o.stopAfter.value
    ensures o.stopAfter.Some? && s.settled == Resolved ==> s.stats.acked + s.stats.rejected == Cap(o.stopAfter.value)
  {
    RunKeeps(o, parse, Attached(inbox), steps, s);
    forall i | 0 <= i < |s.replies| && s.replies[i].Ack?
      ensures parse(s.received[i]).Ok? && Inbox.HasEffect(s.inbox.effects, parse(s.received[i]).event.eventId)
    {
      assert ReplyOk(parse, s.replies[i], s.received[i], s.inbox.marks);
    }
    forall i | 0 <= i < |s.replies| && s.replies[i].Reject?
      ensures parse(s.received[i]).BadEvent?
    {
      assert ReplyOk(parse, s.replies[i], s.received[i], s.inbox.marks);
    }
  }

  // The counters count the answers that went out.
  function AcksIn(replies: seq<Reply>): nat {
    if replies == [] then 0 else AcksIn(replies[..|replies| - 1]) + if replies[|replies| - 1].Ack? then 1 else 0
  }

  function RejectsIn(replies: seq<Reply>): nat {
    if replies == [] then 0 else RejectsIn(replies[..|replies| - 1]) + if replies[|replies| - 1].Reject? then 1 else 0
  }

  ghost predicate Tallied(s: State) {
    s.stats.acked == AcksIn(s.replies) && s.stats.rejected == RejectsIn(s.replies)
  }

  lemma StepTallied(o: Options, parse: Body -> Contract.Parsed, s: State, a: Step)
    requires Tallied(s) && Enabled(s, a)
    ensures Tallied(Do(o, parse, s, a))
  {
    if a.Begin? { TallySnoc(s.replies, Reject(s.begun)); }
    if a.DatabaseError? { TallySnoc(s.replies, Nack(s.begun - 1)); }
    if a.Resume? { TallySnoc(s.replies, Ack(s.begun - 1)); }
  }

  lemma TallySnoc(replies: seq<Reply>, last: Reply)
    ensures AcksIn(replies + [last]) == AcksIn(replies) + if last.Ack? then 1 else 0
    ensures RejectsIn(replies + [last]) == RejectsIn(replies) + if last.Reject? then 1 else 0
  {
    assert (replies + [last])[..|replies|] == replies;
  }

  lemma {:induction false} RunTallied(o: Options, parse: Body -> Contract.Parsed, s: State, steps: seq<Step>, s': State)
    requires Tallied(s) && Executes(o, parse, s, steps, s')
    ensures Tallied(s')
    decreases |steps|
  {
    if steps != [] {
      StepTallied(o, parse, s, steps[0]);
      RunTallied(o, parse, Do(o, parse, s, steps[0]), steps[1..], s');
    }
  }

  lemma {:induction false} SettledStays(o: Options, parse: Body -> Contract.Parsed, s: State, steps: seq<Step>,
                                        s': State)
    requires CountsInv(o, s) && s.settled != Open && Executes(o, parse, s, steps, s')
    ensures s'.settled == s.settled && s'.stats == s.stats && s'.replies == s.replies
    decreases |steps|
  {
    if steps != [] {
      CountsKept(o, parse, s, steps[0]);
      SettledStays(o, parse, Do(o, parse, s, steps[0]), steps[1..], s');
    }
  }

  // In every run: after settling no handler begins and nothing more is answered
  // or counted.
  lemma NothingAfterSettling(o: Options, parse: Body -> Contract.Parsed, inbox: Inbox.Inbox,
                             before: seq<Step>, s: State, after: seq<Step>, s': State)
    requires Inbox.MarkIffEffect(inbox) && Executes(o, parse, Attached(inbox), before, s)
    requires s.settled != Open && Executes(o, parse, s, after, s')
    ensures s'.settled == s.settled && s'.stats == s.stats && s'.replies == s.replies
  {
    RunKeeps(o, parse, Attached(inbox), before, s);
    SettledStays(o, parse, s, after, s');
  }

  // Under crashBeforeAck the first parseable message is applied and never acked.
  lemma {:induction false} CrashNeverAcks(o: Options, parse: Body -> Contract.Parsed, s: State, steps: seq<Step>,
                                          s': State)
    requires o.crashBeforeAck && s.stats.acked == 0 && Executes(o, parse, s, steps, s')
    ensures s'.stats.acked == 0
    ensures s.phase == Hung ==> s'.phase == Hung && s'.stats == s.stats
    decreases |steps|
  {
    if steps != [] {
      CrashNeverAcks(o, parse, Do(o, parse, s, steps[0]), steps[1..], s');
    }
  }

  // ----- how an attachment ends -----

  function CloseEvents(steps: seq<Step>): nat {
    if steps == [] then 0 else (if steps[0].CloseEvent? then 1 else 0) + CloseEvents(steps[1..])
  }

  predicate HasNack(replies: seq<Reply>) { exists i :: 0 <= i < |replies| && replies[i].Nack? }

  predicate Reached(o: Options, stats: Stats) {
    o.stopAfter.Some? && stats.acked + stats.rejected >= Cap(o.stopAfter.value)
  }

  // `closed` says whether the close event has come.
  ghost predicate VerdictInv(o: Options, s: State, closed: bool) {
    && (s.settled == Resolved <==> Reached(o, s.stats))
    && (s.settled == Open <==> !Reached(o, s.stats) && !closed && !HasNack(s.replies) && s.begun == s.stats.delivered)
    && s.begun >= s.stats.delivered
  }

  lemma VerdictKept(o: Options, parse: Body -> Contract.Parsed, s: State, a: Step, closed: bool)
    requires CountsInv(o, s) && StopInv(o, s) && VerdictInv(o, s, closed) && Enabled(s, a)
    ensures VerdictInv(o, Do(o, parse, s, a), closed || a.CloseEvent?)
  {
    StopKept(o, parse, s, a);
    var s' := Do(o, parse, s, a);
    if s'.replies != s.replies {
      assert s'.replies[..|s.replies|] == s.replies;
      assert s'.replies[|s.replies|].Nack? ==> HasNack(s'.replies);
    }
  }

  lemma {:induction false} RunVerdict(o: Options, parse: Body -> Contract.Parsed, s: State, steps: seq<Step>,
                                      s': State, closed: bool)
    requires CountsInv(o, s) && StopInv(o, s) && VerdictInv(o, s, closed) && Executes(o, parse, s, steps, s')
    ensures VerdictInv(o, s', closed || CloseEvents(steps) > 0)
    decreases |steps|
  {
    if steps != [] {
      VerdictKept(o, parse, s, steps[0], closed);
      CountsKept(o, parse, s, steps[0]);
      StopKept(o, parse, s, steps[0]);
      RunVerdict(o, parse, Do(o, parse, s, steps[0]), steps[1..], s', closed || steps[0].CloseEvent?);
    }
  }

  // In every run: `attach` has resolved if and only if enough messages are settled;
  // it has rejected if and only if, before that, the channel closed, a message was
  // nacked, or a handler came up behind one that could not answer.
  lemma VerdictIff(o: Options, parse: Body -> Contract.Parsed, inbox: Inbox.Inbox, steps: seq<Step>, s: State)
    requires Executes(o, parse, Attached(inbox), steps, s)
    ensures s.settled == Resolved <==> Reached(o, s.stats)
    ensures s.settled == Failed
      <==> !Reached(o, s.stats) && (CloseEvents(steps) > 0 || HasNack(s.replies) || s.begun > s.stats.delivered)
  {
    RunVerdict(o, parse, Attached(inbox), steps, s, false);
  }

  // ----- what becomes of a message -----

  // The bodies delivered, in order.
  function Deliveries(steps: seq<Step>): seq<Body> {
    if steps == [] then [] else (if steps[0].Receive? then [steps[0].body] else []) + Deliveries(steps[1..])
  }

  lemma {:induction false} DeliveriesWait(o: Options, parse: Body -> Contract.Parsed, s: State, steps: seq<Step>,
                                          s': State)
    requires Executes(o, parse, s, steps, s')
    ensures s'.received == s.received + Deliveries(steps)
    decreases |steps|
  {
    if steps != [] { DeliveriesWait(o, parse, Do(o, parse, s, steps[0]), steps[1..], s'); }
  }

  predicate Applies(a: Step) { a.Commit? || a.Elsewhere? }

  function Applications(steps: seq<Step>): nat {
    if steps == [] then 0 else (if Applies(steps[0]) then 1 else 0) + Applications(steps[1..])
  }

  // Every transaction, this attachment's or another's, leaves its delivery row, and
  // nothing else does.
  lemma {:induction false} RowPerApplication(o: Options, parse: Body -> Contract.Parsed, s: State, steps: seq<Step>,
                                             s': State)
    requires Inv(o, parse, s) && Executes(o, parse, s, steps, s')
    ensures |s'.inbox.deliveries| == |s.inbox.deliveries| + Applications(steps)
    decreases |steps|
  {
    if steps != [] {
      OneRow(o, parse, s, steps[0]);
      StepKeeps(o, parse, s, steps[0]);
      RowPerApplication(o, parse, Do(o, parse, s, steps[0]), steps[1..], s');
    }
  }

  lemma OneRow(o: Options, parse: Body -> Contract.Parsed, s: State, a: Step)
    requires TruthInv(parse, s) && Enabled(s, a)
    ensures |Do(o, parse, s, a).inbox.deliveries| == |s.inbox.deliveries| + if Applies(a) then 1 else 0
  {
  }

  // At most 50 delivered messages are without an answer at any time.
  lemma {:induction false} PrefetchHolds(o: Options, parse: Body -> Contract.Parsed, s: State, steps: seq<Step>,
                                         s': State)
    requires |s.received| <= |s.replies| + 50 && Executes(o, parse, s, steps, s')
    ensures |s'.received| <= |s'.replies| + 50
    decreases |steps|
  {
    if steps != [] { PrefetchHolds(o, parse, Do(o, parse, s, steps[0]), steps[1..], s'); }
  }

  // The next handler of an attachment that is still on can run.
  ghost predicate NextUp(s: State) {
    s.settled == Open && s.usable && s.phase == Idle && s.begun < |s.received|
  }

  ghost predicate Reachable(o: Options, parse: Body -> Contract.Parsed, inbox: Inbox.Inbox, s: State) {
    exists steps :: Executes(o, parse, Attached(inbox), steps, s)
  }

  // A body the contract refuses is rejected, and nothing else.
  lemma BadBodyIsRejected(o: Options, parse: Body -> Contract.Parsed, inbox: Inbox.Inbox, s: State) returns (s': State)
    requires Inbox.MarkIffEffect(inbox) && Reachable(o, parse, inbox, s) && NextUp(s)
    requires parse(s.received[s.begun]).BadEvent?
    ensures Executes(o, parse, s, [Begin], s')
    ensures s'.replies == s.replies + [Reject(s.begun)] && s'.inbox == s.inbox && s'.begun == s.begun + 1
    ensures s'.stats == Stats(s.stats.delivered + 1, s.stats.acked, s.stats.rejected + 1)
  {
    FromStart(o, parse, inbox, s);
    s' := Do(o, parse, s, Begin);
    assert Executes(o, parse, s', [], s');
  }

  lemma FromStart(o: Options, parse: Body -> Contract.Parsed, inbox: Inbox.Inbox, s: State)
    requires Inbox.MarkIffEffect(inbox) && Reachable(o, parse, inbox, s)
    ensures Inv(o, parse, s)
  {
    var steps :| Executes(o, parse, Attached(inbox), steps, s);
    RunKeeps(o, parse, Attached(inbox), steps, s);
  }

  // Any other is applied and acked when the database lets it; under crashBeforeAck
  // it is applied and the handler hangs there, nothing answered.
  lemma GoodBodyIsApplied(o: Options, parse: Body -> Contract.Parsed, inbox: Inbox.Inbox, s: State) returns (s': State)
    requires Inbox.MarkIffEffect(inbox) && Reachable(o, parse, inbox, s) && NextUp(s)
    requires parse(s.received[s.begun]).Ok?
    ensures Executes(o, parse, s, [Begin, Commit, Resume], s') && s'.begun == s.begun + 1
    ensures s'.inbox == Inbox.Apply(s.inbox, parse(s.received[s.begun]).event)
    ensures !o.crashBeforeAck ==>
      && s'.replies == s.replies + [Ack(s.begun)] && s'.phase == Idle
      && s'.stats == Stats(s.stats.delivered + 1, s.stats.acked + 1, s.stats.rejected)
    ensures o.crashBeforeAck ==>
      && s'.replies == s.replies && s'.phase == Hung
      && s'.stats == Stats(s.stats.delivered + 1, s.stats.acked, s.stats.rejected)
  {
    FromStart(o, parse, inbox, s);
    var s1 := Do(o, parse, s, Begin);
    var s2 := Do(o, parse, s1, Commit);
    s' := Do(o, parse, s2, Resume);
    ThreeSteps(o, parse, s, Begin, Commit, Resume, s');
  }

  lemma ThreeSteps(o: Options, parse: Body -> Contract.Parsed, s: State, a: Step, b: Step, c: Step, s': State)
    requires Enabled(s, a) && Enabled(Do(o, parse, s, a), b) && Enabled(Do(o, parse, Do(o, parse, s, a), b), c)
    requires s' == Do(o, parse, Do(o, parse, Do(o, parse, s, a), b), c)
    ensures Executes(o, parse, s, [a, b, c], s')
  {
    assert [a, b, c][1..] == [b, c] && [b, c][1..] == [c] && [c][1..] == [];
    assert Executes(o, parse, s', [], s');
    assert Executes(o, parse, Do(o, parse, Do(o, parse, s, a), b), [c], s');
    assert Executes(o, parse, Do(o, parse, s, a), [b, c], s');
  }

  // When the database fails, the message goes back to the queue, nothing is
  // applied, and the attachment has failed.
  lemma DatabaseErrorRequeues(o: Options, parse: Body -> Contract.Parsed, inbox: Inbox.Inbox, s: State)
    returns (s': State)
    requires Inbox.MarkIffEffect(inbox) && Reachable(o, parse, inbox, s) && NextUp(s)
    requires parse(s.received[s.begun]).Ok?
    ensures Executes(o, parse, s, [Begin, DatabaseError], s')
    ensures s'.replies == s.replies + [Nack(s.begun)] && s'.inbox == s.inbox && s'.settled == Failed
    ensures s'.stats == s.stats.(delivered := s.stats.delivered + 1)
  {
    FromStart(o, parse, inbox, s);
    var s1 := Do(o, parse, s, Begin);
    s' := Do(o, parse, s1, DatabaseError);
    assert [Begin, DatabaseError][1..] == [DatabaseError] && [DatabaseError][1..] == [];
    assert Executes(o, parse, s', [], s');
    assert Executes(o, parse, s1, [DatabaseError], s');
  }

  // A message whose channel closes while it is being applied is applied all the
  // same, without an answer: the broker will deliver it again.
  lemma LateApplyIsNotAnswered(o: Options, parse: Body -> Contract.Parsed, inbox: Inbox.Inbox, s: State)
    returns (s': State)
    requires Inbox.MarkIffEffect(inbox) && Reachable(o, parse, inbox, s) && s.phase == Applying
    ensures Executes(o, parse, s, [CloseChannel, Commit, Resume], s')
    ensures parse(s.received[s.begun - 1]).Ok?
    ensures s'.inbox == Inbox.Apply(s.inbox, parse(s.received[s.begun - 1]).event)
    ensures s'.replies == s.replies && s'.stats == s.stats && !s'.usable
  {
    FromStart(o, parse, inbox, s);
    var s1 := Do(o, parse, s, CloseChannel);
    var s2 := Do(o, parse, s1, Commit);
    s' := Do(o, parse, s2, Resume);
    ThreeSteps(o, parse, s, CloseChannel, Commit, Resume, s');
  }

  // Nothing is answered or counted as settled on a closed channel, nor delivered.
  lemma {:induction false} ClosedChannelIsSilent(o: Options, parse: Body -> Contract.Parsed, s: State,
                                                 steps: seq<Step>, s': State)
    requires !s.usable && Executes(o, parse, s, steps, s')
    ensures !s'.usable && s'.replies == s.replies && s'.received == s.received
    ensures s'.stats.acked == s.stats.acked && s'.stats.rejected == s.stats.rejected
    decreases |steps|
  {
    if steps != [] { ClosedChannelIsSilent(o, parse, Do(o, parse, s, steps[0]), steps[1..], s'); }
  }

  // Once closed it stays closed.
  lemma ClosingCloses(o: Options, parse: Body -> Contract.Parsed, s: State, steps: seq<Step>, s': State)
    requires Executes(o, parse, s, [CloseChannel] + steps, s')
    ensures !s'.usable && s'.replies == s.replies
  {
    assert ([CloseChannel] + steps)[1..] == steps;
    ClosedChannelIsSilent(o, parse, Do(o, parse, s, CloseChannel), steps, s');
  }
}
