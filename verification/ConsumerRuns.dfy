/** An attached consumer runs as the pipeline machine says. */
module ConsumerRuns {
  import opened Prelude
  import Json
  import Contract
  import Inbox
  import opened Delivery
  import C = Consumer
  import ConsumerLaws
  import DeliveryRuns

  // ----- bodies and bags of bodies -----

  function Text(body: C.Body): Json.Json { if body.Some? then body.value else Json.JNull }

  function Parser(codec: Codec): C.Body -> Contract.Parsed {
    (body: C.Body) => if body.None? then Contract.BadEvent("body is not json") else codec.parse(body.value)
  }

  predicate AllTexts(bodies: seq<C.Body>) { forall i :: 0 <= i < |bodies| ==> bodies[i].Some? }

  function Texts(bodies: seq<C.Body>): seq<Json.Json> { seq(|bodies|, i requires 0 <= i < |bodies| => Text(bodies[i])) }

  function Bag(bodies: seq<C.Body>): multiset<Json.Json> { multiset(Texts(bodies)) }

  // The bodies answered by a reject, or by a nack; reply i answers body i.
  function Rejected(bodies: seq<C.Body>, replies: seq<C.Reply>): multiset<Json.Json>
    requires |replies| <= |bodies|
  {
    if replies == [] then multiset{}
    else
      var k := |replies| - 1;
      Rejected(bodies, replies[..k]) + if replies[k].Reject? then multiset{Text(bodies[k])} else multiset{}
  }

  function Nacked(bodies: seq<C.Body>, replies: seq<C.Reply>): multiset<Json.Json>
    requires |replies| <= |bodies|
  {
    if replies == [] then multiset{}
    else
      var k := |replies| - 1;
      Nacked(bodies, replies[..k]) + if replies[k].Nack? then multiset{Text(bodies[k])} else multiset{}
  }

  lemma BagSnoc(bodies: seq<C.Body>, body: C.Body)
    ensures Bag(bodies + [body]) == Bag(bodies) + multiset{Text(body)}
  {
    assert Texts(bodies + [body]) == Texts(bodies) + [Text(body)];
  }

  lemma BagPrefix(bodies: seq<C.Body>, k: nat)
    requires k <= |bodies|
    ensures Bag(bodies[..k]) <= Bag(bodies)
  {
    assert Texts(bodies) == Texts(bodies[..k]) + Texts(bodies)[k..];
  }

  lemma BagSize(bodies: seq<C.Body>)
    ensures |Bag(bodies)| == |bodies|
  {
  }

  lemma BagNext(bodies: seq<C.Body>, k: nat)
    requires k < |bodies|
    ensures Bag(bodies[..k + 1]) == Bag(bodies[..k]) + multiset{Text(bodies[k])}
    ensures Bag(bodies[..k]) + multiset{Text(bodies[k])} <= Bag(bodies)
  {
    assert bodies[..k + 1] == bodies[..k] + [bodies[k]];
    BagSnoc(bodies[..k], bodies[k]);
    BagPrefix(bodies, k + 1);
  }

  lemma AnswersSnoc(bodies: seq<C.Body>, replies: seq<C.Reply>, reply: C.Reply)
    requires |replies| < |bodies|
    ensures Rejected(bodies, replies + [reply])
      == Rejected(bodies, replies) + if reply.Reject? then multiset{Text(bodies[|replies|])} else multiset{}
    ensures Nacked(bodies, replies + [reply])
      == Nacked(bodies, replies) + if reply.Nack? then multiset{Text(bodies[|replies|])} else multiset{}
  {
    assert (replies + [reply])[..|replies|] == replies;
  }

  lemma {:induction false} AnswersStay(bodies: seq<C.Body>, body: C.Body, replies: seq<C.Reply>)
    requires |replies| <= |bodies|
    ensures Rejected(bodies + [body], replies) == Rejected(bodies, replies)
    ensures Nacked(bodies + [body], replies) == Nacked(bodies, replies)
    decreases |replies|
  {
    if replies != [] { AnswersStay(bodies, body, replies[..|replies| - 1]); }
  }

  lemma InRest(held: multiset<Json.Json>, before: multiset<Json.Json>, all: multiset<Json.Json>, x: Json.Json)
    requires held + before == all && before + multiset{x} <= all
    ensures x in held
  {
    assert (before + multiset{x})[x] <= (held + before)[x];
  }

  lemma OneAnswered(held: multiset<Json.Json>, before: multiset<Json.Json>, all: multiset<Json.Json>, x: Json.Json)
    requires held + before == all && x in held
    ensures (held - multiset{x}) + (before + multiset{x}) == all
  {
  }

  // ----- the two states side by side -----

  function AppliedOf(cs: C.State): Option<Json.Json> {
    if (cs.phase == C.Committed || cs.phase == C.Hung) && 1 <= cs.begun <= |cs.received|
    then Some(Text(cs.received[cs.begun - 1])) else None
  }

  // While the channel is open the consumer holds what it has not answered.
  ghost predicate Holds(c: nat, cs: C.State, consumers: map<nat, Consumer>)
    requires |cs.replies| <= |cs.received|
  {
    if cs.received == [] then c !in consumers
    else
      && c in consumers && consumers[c].applied == AppliedOf(cs)
      && consumers[c].unacked + Bag(cs.received[..|cs.replies|]) == Bag(cs.received)
  }

  // Afterwards what it had not answered is queued again.
  ghost predicate Requeued(cs: C.State, b: Broker) {
    forall i :: |cs.replies| <= i < |cs.received| ==> Text(cs.received[i]) in b.ready
  }

  // Consumer c of the machine, which started at s0, and the attachment agree: on
  // the inbox, on what is dead-lettered, queued and held; nothing else has moved.
  ghost predicate Agree(codec: Codec, c: nat, s0: System, cs: C.State, s: System) {
    && |cs.replies| <= |cs.received| && AllTexts(cs.received)
    && s == System(s0.db, s0.relays, s.broker, cs.inbox, s0.now, s0.hist)
    && s.broker.consumers - {c} == s0.broker.consumers
    && BrokerAgrees(c, s0.broker, cs, s.broker)
  }

  ghost predicate QueueAgrees(cs: C.State, ready0: multiset<Json.Json>, ready: multiset<Json.Json>)
    requires |cs.replies| <= |cs.received|
  {
    ready + Bag(if cs.usable then cs.received else cs.received[..|cs.replies|])
      == ready0 + Nacked(cs.received, cs.replies)
  }

  ghost predicate BrokerAgrees(c: nat, b0: Broker, cs: C.State, b: Broker)
    requires |cs.replies| <= |cs.received|
  {
    && b.dead == b0.dead + Rejected(cs.received, cs.replies)
    && QueueAgrees(cs, b0.ready, b.ready)
    && if cs.usable then Holds(c, cs, b.consumers) else c !in b.consumers && Requeued(cs, b)
  }

  // What the attachment needs to be in order: part of what every run of it keeps.
  ghost predicate Orderly(o: C.Options, codec: Codec, cs: C.State) {
    C.CountsInv(o, cs) && C.OrderInv(cs) && C.TruthInv(Parser(codec), cs)
  }

  lemma StepOrderly(o: C.Options, codec: Codec, cs: C.State, a: C.Step)
    requires Orderly(o, codec, cs) && C.Enabled(cs, a)
    ensures Orderly(o, codec, C.Do(o, Parser(codec), cs, a))
  {
    C.CountsKept(o, Parser(codec), cs, a);
    C.OrderKept(o, Parser(codec), cs, a);
    C.TruthKept(o, Parser(codec), cs, a);
  }

  // ----- step by step -----

  // One step of the machine, or none.
  ghost predicate Follows(codec: Codec, s: System, a: Option<Action>, s': System) {
    if a.None? then s' == s else Enabled(codec, s, a.value) && s' == Do(codec, s, a.value)
  }

  lemma ReceivedQueue(cs: C.State, body: C.Body, ready0: multiset<Json.Json>, ready: multiset<Json.Json>)
    requires |cs.replies| <= |cs.received| && QueueAgrees(cs, ready0, ready) && cs.usable && Text(body) in ready
    ensures QueueAgrees(cs.(received := cs.received + [body]), ready0, ready - multiset{Text(body)})
  {
    BagSnoc(cs.received, body);
    AnswersStay(cs.received, body, cs.replies);
    OneAnswered(ready, Bag(cs.received), ready0 + Nacked(cs.received, cs.replies), Text(body));
  }

  lemma ReceivedHold(c: nat, cs: C.State, body: C.Body, b: Broker)
    requires |cs.replies| <= |cs.received| && Holds(c, cs, b.consumers)
    requires cs.begun <= |cs.received| && (cs.phase == C.Committed || cs.phase == C.Hung ==> cs.begun >= 1)
    ensures Holds(c, cs.(received := cs.received + [body]), DeliverTo(b, c, Text(body)).consumers)
  {
    var held := if c in b.consumers then b.consumers[c].unacked else multiset{};
    BagSnoc(cs.received, body);
    assert (cs.received + [body])[..|cs.replies|] == cs.received[..|cs.replies|];
    Regroup(held, multiset{Text(body)}, Bag(cs.received[..|cs.replies|]));
  }

  lemma Regroup(a: multiset<Json.Json>, b: multiset<Json.Json>, c: multiset<Json.Json>)
    ensures (a + b) + c == (a + c) + b
  {
  }

  lemma ReceivedBroker(c: nat, b0: Broker, cs: C.State, b: Broker, body: C.Body)
    requires |cs.replies| <= |cs.received| && BrokerAgrees(c, b0, cs, b) && cs.usable && Text(body) in b.ready
    requires cs.begun <= |cs.received| && (cs.phase == C.Committed || cs.phase == C.Hung ==> cs.begun >= 1)
    ensures BrokerAgrees(c, b0, cs.(received := cs.received + [body]), DeliverTo(b, c, Text(body)))
  {
    ReceivedQueue(cs, body, b0.ready, b.ready);
    ReceivedHold(c, cs, body, b);
    AnswersStay(cs.received, body, cs.replies);
  }

  lemma UnackedSize(c: nat, cs: C.State, consumers: map<nat, Consumer>)
    requires |cs.replies| <= |cs.received| && Holds(c, cs, consumers) && c in consumers
    ensures |consumers[c].unacked| == |cs.received| - |cs.replies|
  {
    BagSize(cs.received);
    BagSize(cs.received[..|cs.replies|]);
  }

  lemma ReceiveFollows(o: C.Options, codec: Codec, c: nat, s0: System, cs: C.State, s: System, body: C.Body)
    returns (s': System)
    requires C.OrderInv(cs) && Agree(codec, c, s0, cs, s) && C.Enabled(cs, C.Receive(body))
    requires body.Some? && body.value in s.broker.ready
    ensures Follows(codec, s, Some(Deliver(c, body.value)), s')
    ensures Agree(codec, c, s0, C.Do(o, Parser(codec), cs, C.Receive(body)), s')
  {
    if c in s.broker.consumers { UnackedSize(c, cs, s.broker.consumers); }
    s' := Do(codec, s, Deliver(c, body.value));
    ReceivedBroker(c, s0.broker, cs, s.broker, body);
    assert s'.broker.consumers - {c} == s.broker.consumers - {c};
  }

  // The message in hand is the first one not answered.
  lemma HandHolds(codec: Codec, c: nat, s0: System, cs: C.State, s: System)
    requires Agree(codec, c, s0, cs, s) && cs.usable && |cs.replies| < |cs.received|
    ensures Unacked(s, c, Text(cs.received[|cs.replies|]))
    ensures s.broker.consumers[c].applied == AppliedOf(cs)
  {
    BagNext(cs.received, |cs.replies|);
    InRest(s.broker.consumers[c].unacked, Bag(cs.received[..|cs.replies|]), Bag(cs.received),
           Text(cs.received[|cs.replies|]));
  }

  // What an answer does to the broker.
  function AnsweredBy(b: Broker, c: nat, body: Json.Json, reply: C.Reply): Broker
    requires c in b.consumers
  {
    var b' := Settle(b, c, body);
    if reply.Reject? then AddDead(b', body) else if reply.Nack? then AddReady(b', multiset{body}) else b'
  }

  lemma AnsweredQueue(cs: C.State, cs': C.State, reply: C.Reply, ready0: multiset<Json.Json>,
                      ready: multiset<Json.Json>)
    requires |cs.replies| < |cs.received| && QueueAgrees(cs, ready0, ready) && cs.usable && cs'.usable
    requires cs'.received == cs.received && cs'.replies == cs.replies + [reply]
    ensures QueueAgrees(cs', ready0,
                        ready + if reply.Nack? then multiset{Text(cs.received[|cs.replies|])} else multiset{})
  {
    AnswersSnoc(cs.received, cs.replies, reply);
    var more := if reply.Nack? then multiset{Text(cs.received[|cs.replies|])} else multiset{};
    assert (ready + more) + Bag(cs.received) == (ready + Bag(cs.received)) + more;
  }

  lemma AnsweredHold(c: nat, cs: C.State, cs': C.State, reply: C.Reply, b: Broker)
    requires |cs.replies| < |cs.received| && Holds(c, cs, b.consumers)
    requires Text(cs.received[|cs.replies|]) in b.consumers[c].unacked
    requires cs'.received == cs.received && cs'.replies == cs.replies + [reply] && cs'.phase == C.Idle
    ensures Holds(c, cs', Settle(b, c, Text(cs.received[|cs.replies|])).consumers)
  {
    BagNext(cs.received, |cs.replies|);
    OneAnswered(b.consumers[c].unacked, Bag(cs.received[..|cs.replies|]), Bag(cs.received),
                Text(cs.received[|cs.replies|]));
    assert cs'.received[..|cs'.replies|] == cs.received[..|cs.replies| + 1];
  }

  lemma AnsweredBroker(c: nat, b0: Broker, cs: C.State, b: Broker, cs': C.State, reply: C.Reply)
    requires |cs.replies| < |cs.received| && BrokerAgrees(c, b0, cs, b) && cs.usable && cs'.usable
    requires c in b.consumers && Text(cs.received[|cs.replies|]) in b.consumers[c].unacked
    requires cs'.received == cs.received && cs'.replies == cs.replies + [reply] && cs'.phase == C.Idle
    ensures BrokerAgrees(c, b0, cs', AnsweredBy(b, c, Text(cs.received[|cs.replies|]), reply))
  {
    AnsweredQueue(cs, cs', reply, b0.ready, b.ready);
    AnsweredHold(c, cs, cs', reply, b);
    AnswersSnoc(cs.received, cs.replies, reply);
    assert b.ready + multiset{} == b.ready;
  }

  lemma Answered(codec: Codec, c: nat, s0: System, cs: C.State, s: System, cs': C.State, s': System, reply: C.Reply)
    requires Agree(codec, c, s0, cs, s) && cs.usable && |cs.replies| < |cs.received|
    requires Unacked(s, c, Text(cs.received[|cs.replies|]))
    requires cs' == cs.(begun := cs'.begun, phase := C.Idle, broken := cs'.broken, settled := cs'.settled,
                        stats := cs'.stats, replies := cs.replies + [reply])
    requires s' == s.(broker := AnsweredBy(s.broker, c, Text(cs.received[|cs.replies|]), reply))
    ensures Agree(codec, c, s0, cs', s')
  {
    AnsweredBroker(c, s0.broker, cs, s.broker, cs', reply);
    assert s'.broker.consumers - {c} == s.broker.consumers - {c};
  }

  // The next handler rejects its message at once.
  predicate Rejects(codec: Codec, cs: C.State) {
    && !cs.broken && cs.settled == C.Open && cs.usable
    && cs.begun == |cs.replies| < |cs.received| && Parser(codec)(cs.received[cs.begun]).BadEvent?
  }

  lemma BeginShape(o: C.Options, codec: Codec, cs: C.State)
    requires C.OrderInv(cs) && C.Enabled(cs, C.Begin)
    ensures var cs' := C.Do(o, Parser(codec), cs, C.Begin);
      && cs' == cs.(begun := cs'.begun, phase := cs'.phase, broken := cs'.broken, settled := cs'.settled,
                    stats := cs'.stats, replies := cs'.replies)
      && (Rejects(codec, cs) ==> cs'.phase == C.Idle && cs'.replies == cs.replies + [C.Reject(cs.begun)])
      && (!Rejects(codec, cs) ==> cs'.replies == cs.replies && (cs'.phase == C.Idle || cs'.phase == C.Applying))
  {
  }

  lemma BeginFollows(o: C.Options, codec: Codec, c: nat, s0: System, cs: C.State, s: System)
    returns (a: Option<Action>, s': System)
    requires C.OrderInv(cs) && Agree(codec, c, s0, cs, s) && C.Enabled(cs, C.Begin)
    ensures Follows(codec, s, a, s') && Agree(codec, c, s0, C.Do(o, Parser(codec), cs, C.Begin), s')
  {
    BeginShape(o, codec, cs);
    var cs' := C.Do(o, Parser(codec), cs, C.Begin);
    if Rejects(codec, cs) {
      a, s' := BadBodyFollows(codec, c, s0, cs, s, cs');
    } else {
      a, s' := None, s;
    }
  }

  lemma BadBodyFollows(codec: Codec, c: nat, s0: System, cs: C.State, s: System, cs': C.State)
    returns (a: Option<Action>, s': System)
    requires Agree(codec, c, s0, cs, s) && Rejects(codec, cs) && cs.phase == C.Idle
    requires cs' == cs.(begun := cs'.begun, phase := C.Idle, broken := cs'.broken, settled := cs'.settled,
                        stats := cs'.stats, replies := cs.replies + [C.Reject(cs.begun)])
    ensures Follows(codec, s, a, s') && Agree(codec, c, s0, cs', s')
  {
    HandHolds(codec, c, s0, cs, s);
    var body := Text(cs.received[cs.begun]);
    a, s' := Some(Reject(c, body)), Do(codec, s, Reject(c, body));
    Answered(codec, c, s0, cs, s, cs', s', C.Reject(cs.begun));
  }

  // The transaction of the message in hand commits, on an open channel or later.
  lemma CommitFollows(o: C.Options, codec: Codec, c: nat, s0: System, cs: C.State, s: System)
    returns (a: Option<Action>, s': System)
    requires Orderly(o, codec, cs) && Agree(codec, c, s0, cs, s) && C.Enabled(cs, C.Commit)
    ensures Follows(codec, s, a, s') && Agree(codec, c, s0, C.Do(o, Parser(codec), cs, C.Commit), s')
  {
    var body := Text(cs.received[cs.begun - 1]);
    if cs.usable {
      HandHolds(codec, c, s0, cs, s);
      a, s' := Some(Action.Apply(c, body)), Do(codec, s, Action.Apply(c, body));
      assert s'.broker.consumers - {c} == s.broker.consumers - {c};
    } else {
      a, s' := Some(ApplyLate(body)), Do(codec, s, ApplyLate(body));
    }
  }

  lemma DatabaseErrorFollows(o: C.Options, codec: Codec, c: nat, s0: System, cs: C.State, s: System)
    returns (a: Option<Action>, s': System)
    requires Orderly(o, codec, cs) && Agree(codec, c, s0, cs, s) && C.Enabled(cs, C.DatabaseError)
    ensures Follows(codec, s, a, s') && Agree(codec, c, s0, C.Do(o, Parser(codec), cs, C.DatabaseError), s')
  {
    if cs.usable {
      HandHolds(codec, c, s0, cs, s);
      var body := Text(cs.received[cs.begun - 1]);
      a, s' := Some(Nack(c, body)), Do(codec, s, Nack(c, body));
      Answered(codec, c, s0, cs, s, C.Do(o, Parser(codec), cs, C.DatabaseError), s', C.Nack(cs.begun - 1));
    } else {
      a, s' := None, s;
    }
  }

  lemma ResumeFollows(o: C.Options, codec: Codec, c: nat, s0: System, cs: C.State, s: System)
    returns (a: Option<Action>, s': System)
    requires Orderly(o, codec, cs) && Agree(codec, c, s0, cs, s) && C.Enabled(cs, C.Resume)
    ensures Follows(codec, s, a, s') && Agree(codec, c, s0, C.Do(o, Parser(codec), cs, C.Resume), s')
  {
    if o.crashBeforeAck || !cs.usable {
      a, s' := None, s;
    } else {
      HandHolds(codec, c, s0, cs, s);
      a, s' := Some(Action.Ack(c)), Do(codec, s, Action.Ack(c));
      Answered(codec, c, s0, cs, s, C.Do(o, Parser(codec), cs, C.Resume), s', C.Ack(cs.begun - 1));
    }
  }

  lemma UnansweredHeld(cs: C.State, unacked: multiset<Json.Json>, i: nat)
    requires |cs.replies| <= i < |cs.received|
    requires unacked + Bag(cs.received[..|cs.replies|]) == Bag(cs.received)
    ensures Text(cs.received[i]) in unacked
  {
    BagNext(cs.received, i);
    BagPrefix(cs.received[..i], |cs.replies|);
    assert cs.received[..i][..|cs.replies|] == cs.received[..|cs.replies|];
    var x, before := Text(cs.received[i]), Bag(cs.received[..|cs.replies|]);
    assert before + multiset{x} <= Bag(cs.received[..i]) + multiset{x};
    InRest(unacked, before, Bag(cs.received), x);
  }

  lemma CloseFollows(o: C.Options, codec: Codec, c: nat, s0: System, cs: C.State, s: System)
    returns (a: Option<Action>, s': System)
    requires Orderly(o, codec, cs) && Agree(codec, c, s0, cs, s)
    ensures Follows(codec, s, a, s') && Agree(codec, c, s0, C.Do(o, Parser(codec), cs, C.CloseChannel), s')
  {
    if !cs.usable || cs.received == [] {
      a, s' := None, s;
      assert cs.received == [] ==> cs.received[..|cs.replies|] == cs.received;
    } else {
      a, s' := Some(Close(c)), Do(codec, s, Close(c));
      forall i | |cs.replies| <= i < |cs.received|
        ensures Text(cs.received[i]) in s'.broker.ready
      {
        UnansweredHeld(cs, s.broker.consumers[c].unacked, i);
      }
      assert s'.broker.consumers - {c} == s.broker.consumers - {c};
    }
  }

  lemma StepFollows(o: C.Options, codec: Codec, c: nat, s0: System, cs: C.State, s: System, step: C.Step)
    returns (a: Option<Action>, s': System)
    requires Orderly(o, codec, cs) && Agree(codec, c, s0, cs, s) && C.Enabled(cs, step) && !step.Elsewhere?
    requires step.Receive? ==> step.body.Some? && step.body.value in s.broker.ready
    ensures Follows(codec, s, a, s') && Agree(codec, c, s0, C.Do(o, Parser(codec), cs, step), s')
  {
    match step
    case Receive(body) =>
      a := Some(Deliver(c, body.value));
      s' := ReceiveFollows(o, codec, c, s0, cs, s, body);
    case Begin => a, s' := BeginFollows(o, codec, c, s0, cs, s);
    case Commit => a, s' := CommitFollows(o, codec, c, s0, cs, s);
    case DatabaseError => a, s' := DatabaseErrorFollows(o, codec, c, s0, cs, s);
    case Resume => a, s' := ResumeFollows(o, codec, c, s0, cs, s);
    case CloseChannel => a, s' := CloseFollows(o, codec, c, s0, cs, s);
    case CloseEvent => a, s' := None, s;
  }

  // ----- whole runs -----

  lemma Queued(ready: multiset<Json.Json>, before: multiset<Json.Json>, ready0: multiset<Json.Json>,
               back: multiset<Json.Json>, x: Json.Json)
    requires ready + before == ready0 + back && before + multiset{x} <= ready0
    ensures x in ready
  {
    assert (before + multiset{x})[x] <= ready0[x] <= (ready + before)[x];
  }

  // What is still to be delivered is in the queue.
  lemma NextIsQueued(codec: Codec, c: nat, s0: System, cs: C.State, s: System, step: C.Step, rest: seq<C.Body>)
    requires Agree(codec, c, s0, cs, s) && step.Receive? && cs.usable
    requires Bag(cs.received + ([step.body] + rest)) <= s0.broker.ready
    ensures Text(step.body) in s.broker.ready
  {
    var all, n := cs.received + ([step.body] + rest), |cs.received|;
    BagNext(all, n);
    assert all[..n] == cs.received && all[n] == step.body;
    Queued(s.broker.ready, Bag(cs.received), s0.broker.ready, Nacked(cs.received, cs.replies), Text(step.body));
  }

  // Steps of the attachment alone, over messages the queue held.
  ghost predicate Alone(s0: System, cs: C.State, steps: seq<C.Step>) {
    && (forall i :: 0 <= i < |steps| ==> !steps[i].Elsewhere? && (steps[i].Receive? ==> steps[i].body.Some?))
    && Bag(cs.received + ConsumerLaws.Deliveries(steps)) <= s0.broker.ready
  }

  lemma AloneRest(o: C.Options, codec: Codec, s0: System, cs: C.State, steps: seq<C.Step>)
    requires steps != [] && Alone(s0, cs, steps) && C.Enabled(cs, steps[0])
    ensures Alone(s0, C.Do(o, Parser(codec), cs, steps[0]), steps[1..])
  {
    var later := ConsumerLaws.Deliveries(steps[1..]);
    if steps[0].Receive? {
      assert cs.received + ([steps[0].body] + later) == (cs.received + [steps[0].body]) + later;
    } else {
      assert [] + later == later;
    }
  }

  lemma FirstFollows(o: C.Options, codec: Codec, c: nat, s0: System, cs: C.State, s: System, steps: seq<C.Step>)
    returns (a: Option<Action>, s': System)
    requires Orderly(o, codec, cs) && Agree(codec, c, s0, cs, s)
    requires steps != [] && Alone(s0, cs, steps) && C.Enabled(cs, steps[0])
    ensures Follows(codec, s, a, s') && Agree(codec, c, s0, C.Do(o, Parser(codec), cs, steps[0]), s')
  {
    if steps[0].Receive? { NextIsQueued(codec, c, s0, cs, s, steps[0], ConsumerLaws.Deliveries(steps[1..])); }
    a, s' := StepFollows(o, codec, c, s0, cs, s, steps[0]);
  }

  lemma {:induction false} RunFollows(o: C.Options, codec: Codec, c: nat, s0: System, cs: C.State, s: System,
                                      steps: seq<C.Step>, cs': C.State)
    returns (actions: seq<Action>, s': System)
    requires Orderly(o, codec, cs) && Agree(codec, c, s0, cs, s) && Alone(s0, cs, steps)
    requires C.Executes(o, Parser(codec), cs, steps, cs')
    ensures Executes(codec, s, actions, s') && Agree(codec, c, s0, cs', s')
    decreases |steps|
  {
    if steps == [] {
      actions, s' := [], s;
    } else {
      AloneRest(o, codec, s0, cs, steps);
      StepOrderly(o, codec, cs, steps[0]);
      var a, s1 := FirstFollows(o, codec, c, s0, cs, s, steps);
      var rest;
      rest, s' := RunFollows(o, codec, c, s0, C.Do(o, Parser(codec), cs, steps[0]), s1, steps[1..], cs');
      actions := ThenMaybe(codec, s, a, s1, rest, s');
    }
  }

  lemma ThenMaybe(codec: Codec, s: System, a: Option<Action>, s1: System, rest: seq<Action>, s': System)
    returns (actions: seq<Action>)
    requires Follows(codec, s, a, s1) && Executes(codec, s1, rest, s')
    ensures Executes(codec, s, actions, s')
  {
    if a.None? {
      actions := rest;
    } else {
      actions := [a.value] + rest;
      DeliveryRuns.Then(codec, s, a.value, rest, s');
    }
  }

  // Every run of `attach` on its own, over messages that are in the queue - with
  // bad bodies, database errors, crashBeforeAck, and the channel closing at any
  // point, in the middle of a transaction too - is a run of the machine. At its end
  // the machine's inbox is the attachment's; the dead letters have grown by the
  // rejected bodies; an open channel's consumer holds exactly what is not answered;
  // and after a close the queue holds what was neither acked nor rejected.
  lemma AttachmentRunIsMachineRun(o: C.Options, codec: Codec, c: nat, s0: System, steps: seq<C.Step>, cs: C.State)
    returns (actions: seq<Action>, s: System)
    requires c !in s0.broker.consumers && C.Executes(o, Parser(codec), C.Attached(s0.inbox), steps, cs)
    requires Alone(s0, C.Attached(s0.inbox), steps)
    ensures Executes(codec, s0, actions, s) && Agree(codec, c, s0, cs, s)
  {
    var cs0 := C.Attached(s0.inbox);
    assert s0.broker.consumers - {c} == s0.broker.consumers;
    actions, s := RunFollows(o, codec, c, s0, cs0, s0, steps, cs);
  }
}
