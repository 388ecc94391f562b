/** The programs of the relay and of the consumer run as the pipeline machine says. */
module DeliveryRuns {
  import opened Prelude
  import opened Tables
  import opened Delivery
  import Json
  import Contract
  import Outbox

  // ----- a relay run -----

  // What the relay makes of a row it has read.
  function Reader(codec: Codec, read: nat -> Json.Json): nat -> Contract.Parsed { (id: nat) => codec.parse(read(id)) }

  // The message bodies of the events sent, whatever their order.
  function Bodies(codec: Codec, sent: seq<Contract.Event>): multiset<Json.Json> {
    if sent == [] then multiset{}
    else Bodies(codec, sent[..|sent| - 1]) + multiset{codec.render(sent[|sent| - 1])}
  }

  lemma BodiesSnoc(codec: Codec, sent: seq<Contract.Event>, e: Contract.Event)
    ensures Bodies(codec, sent + [e]) == Bodies(codec, sent) + multiset{codec.render(e)}
  {
    assert (sent + [e])[..|sent|] == sent;
  }

  // The relay is gone; the table and the messages are what its program leaves, and
  // nothing else has changed.
  ghost predicate Leaves(codec: Codec, s: System, r: nat, queued: multiset<Json.Json>, out: Outbox.Out, s': System) {
    s' == System(s.db.(outbox := out.rows), s.relays - {r},
                 s.broker.(ready := queued + Bodies(codec, out.sent)), s.inbox, s.now, s'.hist)
  }

  // The relay is about to take row i of its batch, `sent` sent so far.
  ghost predicate AtRow(codec: Codec, s: System, r: nat, batch: seq<nat>, read: nat -> Json.Json, i: nat,
                        queued: multiset<Json.Json>, sent: seq<Contract.Event>)
  {
    && i <= |batch| && s.broker.ready == queued + Bodies(codec, sent)
    && (if i == |batch| then r !in s.relays else r in s.relays && s.relays[r] == Relay(Rows(batch, read)[i..], Ready))
  }

  lemma Then(codec: Codec, s: System, a: Action, rest: seq<Action>, s': System)
    requires Enabled(codec, s, a) && Executes(codec, Do(codec, s, a), rest, s')
    ensures Executes(codec, s, [a] + rest, s')
  {
    assert ([a] + rest)[1..] == rest;
  }

  lemma Stops(codec: Codec, s: System, r: nat)
    requires r in s.relays
    ensures Executes(codec, s, [StopRelay(r)] + [], s.(relays := s.relays - {r}))
  {
    var s' := s.(relays := s.relays - {r});
    assert Executes(codec, s', [], s');
    Then(codec, s, StopRelay(r), [], s');
  }

  // The row is handed over.
  lemma Hands(codec: Codec, s: System, r: nat, batch: seq<nat>, read: nat -> Json.Json, i: nat,
              queued: multiset<Json.Json>, sent: seq<Contract.Event>) returns (s': System)
    requires AtRow(codec, s, r, batch, read, i, queued, sent) && i < |batch| && codec.parse(read(batch[i])).Ok?
    ensures Enabled(codec, s, Publish(r)) && s' == Do(codec, s, Publish(r))
    ensures Running(s', r, Sent) && s'.relays[r].todo == Rows(batch, read)[i..] && s'.relays - {r} == s.relays - {r}
    ensures s'.broker == s.broker.(ready := queued + Bodies(codec, sent + [codec.parse(read(batch[i])).event]))
    ensures s'.db == s.db && s'.inbox == s.inbox && s'.now == s.now
  {
    assert Rows(batch, read)[i..][0] == Claimed(batch[i], read(batch[i]));
    BodiesSnoc(codec, sent, codec.parse(read(batch[i])).event);
    s' := Do(codec, s, Publish(r));
  }

  // It is confirmed.
  lemma Confirms(codec: Codec, s: System, r: nat) returns (s': System)
    requires Running(s, r, Sent)
    ensures Enabled(codec, s, Action.Confirm(r)) && s' == Do(codec, s, Action.Confirm(r))
    ensures Running(s', r, Phase.Confirmed) && s'.relays[r].todo == s.relays[r].todo
    ensures s'.relays - {r} == s.relays - {r}
    ensures s'.broker == s.broker && s'.db == s.db && s'.inbox == s.inbox && s'.now == s.now
  {
    s' := Do(codec, s, Action.Confirm(r));
  }

  // It is marked, and the relay comes to the next one.
  lemma Marks(codec: Codec, s: System, r: nat, batch: seq<nat>, read: nat -> Json.Json, i: nat,
              queued: multiset<Json.Json>, sent: seq<Contract.Event>) returns (s': System)
    requires i < |batch| && Running(s, r, Phase.Confirmed) && s.relays[r].todo == Rows(batch, read)[i..]
    requires s.broker.ready == queued + Bodies(codec, sent)
    ensures Enabled(codec, s, Mark(r)) && s' == Do(codec, s, Mark(r))
    ensures AtRow(codec, s', r, batch, read, i + 1, queued, sent) && s'.relays - {r} == s.relays - {r}
    ensures s'.db == s.db.(outbox := Outbox.MarkRow(s.db.outbox, batch[i], s.now))
    ensures s'.broker == s.broker && s'.inbox == s.inbox && s'.now == s.now
  {
    assert Rows(batch, read)[i..][1..] == Rows(batch, read)[i + 1..];
    s' := Do(codec, s, Mark(r));
  }

  // From row i on, the publish loop's outcome is that of a run of the machine.
  lemma {:induction false} LoopIsRun(codec: Codec, s: System, r: nat, batch: seq<nat>, read: nat -> Json.Json,
                                     crash: bool, answer: nat -> Outbox.Answer, i: nat,
                                     queued: multiset<Json.Json>, sent: seq<Contract.Event>)
    returns (actions: seq<Action>, s': System)
    requires AtRow(codec, s, r, batch, read, i, queued, sent)
    ensures Executes(codec, s, actions, s')
    ensures Leaves(codec, s, r, queued,
                   Outbox.PublishFrom(s.db.outbox, sent, batch, crash, Reader(codec, read), answer, s.now, i), s')
    decreases |batch| - i, 2
  {
    if i == |batch| {
      actions, s' := [], s;
      assert s.relays - {r} == s.relays;
    } else if codec.parse(read(batch[i])).BadEvent? || answer(i) == Outbox.Lost {
      Stops(codec, s, r);
      actions, s' := [StopRelay(r)] + [], s.(relays := s.relays - {r});
    } else {
      actions, s' := HandedIsRun(codec, s, r, batch, read, crash, answer, i, queued, sent);
    }
  }

  // The rest of row i once it parses and is not lost.
  lemma {:induction false} HandedIsRun(codec: Codec, s: System, r: nat, batch: seq<nat>, read: nat -> Json.Json,
                                       crash: bool, answer: nat -> Outbox.Answer, i: nat,
                                       queued: multiset<Json.Json>, sent: seq<Contract.Event>)
    returns (actions: seq<Action>, s': System)
    requires AtRow(codec, s, r, batch, read, i, queued, sent) && i < |batch|
    requires codec.parse(read(batch[i])).Ok? && answer(i) != Outbox.Lost
    ensures Executes(codec, s, actions, s')
    ensures Leaves(codec, s, r, queued,
                   Outbox.PublishFrom(s.db.outbox, sent, batch, crash, Reader(codec, read), answer, s.now, i), s')
    decreases |batch| - i, 1
  {
    var s1 := Hands(codec, s, r, batch, read, i, queued, sent);
    var sent1 := sent + [codec.parse(read(batch[i])).event];
    var rest;
    if answer(i) == Outbox.Unconfirmed {
      Stops(codec, s1, r);
      rest, s' := [StopRelay(r)] + [], s1.(relays := s1.relays - {r});
    } else {
      rest, s' := ConfirmedIsRun(codec, s1, r, batch, read, crash, answer, i, queued, sent1);
    }
    actions := [Publish(r)] + rest;
    Then(codec, s, Publish(r), rest, s');
  }

  // The rest of row i once it is handed over and will be confirmed.
  lemma {:induction false} ConfirmedIsRun(codec: Codec, s: System, r: nat, batch: seq<nat>, read: nat -> Json.Json,
                                          crash: bool, answer: nat -> Outbox.Answer, i: nat,
                                          queued: multiset<Json.Json>, sent: seq<Contract.Event>)
    returns (actions: seq<Action>, s': System)
    requires i < |batch| && Running(s, r, Sent) && s.relays[r].todo == Rows(batch, read)[i..]
    requires s.broker.ready == queued + Bodies(codec, sent)
    ensures Executes(codec, s, actions, s')
    ensures Leaves(codec, s, r, queued,
                   if crash then Outbox.Out(s.db.outbox, sent, Outbox.RelayCrashed)
                   else Outbox.PublishFrom(Outbox.MarkRow(s.db.outbox, batch[i], s.now), sent, batch, crash,
                                           Reader(codec, read), answer, s.now, i + 1), s')
    decreases |batch| - i, 0
  {
    var s1 := Confirms(codec, s, r);
    if crash {
      Stops(codec, s1, r);
      actions, s' := [Action.Confirm(r)] + ([StopRelay(r)] + []), s1.(relays := s1.relays - {r});
      Then(codec, s, Action.Confirm(r), [StopRelay(r)] + [], s');
    } else {
      var s2 := Marks(codec, s1, r, batch, read, i, queued, sent);
      var rest;
      rest, s' := LoopIsRun(codec, s2, r, batch, read, crash, answer, i + 1, queued, sent);
      actions := [Action.Confirm(r)] + ([Mark(r)] + rest);
      Then(codec, s1, Mark(r), rest, s');
      Then(codec, s, Action.Confirm(r), [Mark(r)] + rest, s');
    }
  }

  // Whatever the rows hold, the broker answers and the crash switch says: what one
  // call of `relayOutbox` does to the table and hands to the broker is what some
  // run of the machine's relay steps does, from every state.
  lemma RelayRunIsMachineRun(codec: Codec, s: System, r: nat, limit: nat, aggregate: Option<nat>, locked: set<nat>,
                             read: nat -> Json.Json, crash: bool, answer: nat -> Outbox.Answer)
    returns (actions: seq<Action>, s': System)
    requires Enabled(codec, s, Claim(r, limit, aggregate, locked, read))
    ensures Executes(codec, s, actions, s')
    ensures var batch := BatchOf(s, limit, aggregate, locked);
      Leaves(codec, s, r, s.broker.ready,
             Outbox.Summary(Outbox.Attempted(s.db.outbox, batch), [], batch, crash, Reader(codec, read), answer, s.now),
             s')
  {
    var batch := BatchOf(s, limit, aggregate, locked);
    var s1 := Do(codec, s, Claim(r, limit, aggregate, locked, read));
    ClaimStarts(codec, s, r, limit, aggregate, locked, read);
    var rest;
    rest, s' := LoopIsRun(codec, s1, r, batch, read, crash, answer, 0, s.broker.ready, []);
    actions := [Claim(r, limit, aggregate, locked, read)] + rest;
    Then(codec, s, Claim(r, limit, aggregate, locked, read), rest, s');
    Outbox.PublishWhole(s1.db.outbox, [], batch, crash, Reader(codec, read), answer, s.now);
  }

  lemma ClaimStarts(codec: Codec, s: System, r: nat, limit: nat, aggregate: Option<nat>, locked: set<nat>,
                    read: nat -> Json.Json)
    requires Enabled(codec, s, Claim(r, limit, aggregate, locked, read))
    ensures
      var s1 := Do(codec, s, Claim(r, limit, aggregate, locked, read));
      var batch := BatchOf(s, limit, aggregate, locked);
      && AtRow(codec, s1, r, batch, read, 0, s.broker.ready, [])
      && s1.db == s.db.(outbox := Outbox.Attempted(s.db.outbox, batch)) && s1.relays - {r} == s.relays - {r}
      && s1.broker == s.broker && s1.inbox == s.inbox && s1.now == s.now
  {
    var batch := BatchOf(s, limit, aggregate, locked);
    assert s.broker.ready == s.broker.ready + Bodies(codec, []);
    if batch == [] {
      assert Outbox.Attempted(s.db.outbox, []) == s.db.outbox;
    } else {
      assert Rows(batch, read)[0..] == Rows(batch, read);
    }
  }
}
