/** What relays do to the outbox in every run, and where order ids stop working. */
module DeliveryRelay {
  import opened Prelude
  import opened Tables
  import opened Numbers
  import opened Delivery
  import opened DeliveryLaws
  import Json
  import Contract
  import Checkout
  import CheckoutLaws
  import Outbox
  import Inbox

  // ----- publishes against attempts -----

  predicate Has(todo: seq<Claimed>, id: nat) {
    exists i :: 0 <= i < |todo| && todo[i].id == id
  }

  // 1 if the relay still has to publish the row.
  function Owes(relay: Relay, id: nat): nat {
    if relay.todo == [] then 0
    else if relay.todo[0].id == id then if relay.phase == Ready then 1 else 0
    else if Has(relay.todo, id) then 1 else 0
  }

  ghost function OwedBy(relays: map<nat, Relay>, id: nat): map<nat, int> {
    map r | r in relays :: Owes(relays[r], id)
  }

  ghost function Owed(relays: map<nat, Relay>, id: nat): int { Sum(OwedBy(relays, id)) }

  lemma OwedSet(relays: map<nat, Relay>, r: nat, relay: Relay, id: nat)
    ensures Owed(relays[r := relay], id)
      == Owed(relays, id) + Owes(relay, id) - (if r in relays then Owes(relays[r], id) else 0)
  {
    assert OwedBy(relays[r := relay], id) == OwedBy(relays, id)[r := Owes(relay, id)];
    SumSet(OwedBy(relays, id), r, Owes(relay, id));
  }

  lemma OwedRemove(relays: map<nat, Relay>, r: nat, id: nat)
    requires r in relays
    ensures Owed(relays - {r}, id) == Owed(relays, id) - Owes(relays[r], id)
  {
    assert OwedBy(relays - {r}, id) == OwedBy(relays, id) - {r};
    SumRemove(OwedBy(relays, id), r);
  }

  lemma {:induction false} OwedNothing(relays: map<nat, Relay>, id: nat)
    requires forall r :: r in relays ==> Owes(relays[r], id) == 0
    ensures Owed(relays, id) == 0
  {
    SumConstant(OwedBy(relays, id), 0);
  }

  ghost predicate RowCounted(outbox: Outbox.Rows, relays: map<nat, Relay>, publishes: map<nat, nat>, id: nat)
    requires id in outbox
  {
    Publishes(publishes, id) + Owed(relays, id) <= outbox[id].attempts
  }

  ghost predicate CountInv(outbox: Outbox.Rows, relays: map<nat, Relay>, h: History) {
    && (forall id :: id in outbox ==> RowCounted(outbox, relays, h.publishes, id))
    && (forall id :: id in h.publishes ==> id in h.eventOf)
    && (forall r :: r in relays && relays[r].todo != [] && relays[r].phase != Ready ==>
          Publishes(h.publishes, relays[r].todo[0].id) >= 1)
    && (forall id :: id in h.confirmed ==> Publishes(h.publishes, id) >= 1)
  }

  lemma ClaimOwes(batch: seq<nat>, read: nat -> Json.Json, id: nat)
    ensures Owes(Relay(Rows(batch, read), Ready), id) == if id in batch then 1 else 0
  {
    var todo := Rows(batch, read);
    if id in batch {
      var i :| 0 <= i < |batch| && batch[i] == id;
      assert todo[i].id == id;
    }
  }

  lemma ClaimCounts(s: System, r: nat, batch: seq<nat>, read: nat -> Json.Json)
    requires CountInv(s.db.outbox, s.relays, s.hist) && r !in s.relays && batch != []
    ensures CountInv(Outbox.Attempted(s.db.outbox, batch), s.relays[r := Relay(Rows(batch, read), Ready)], s.hist)
  {
    var outbox', relay := Outbox.Attempted(s.db.outbox, batch), Relay(Rows(batch, read), Ready);
    forall id | id in outbox'
      ensures RowCounted(outbox', s.relays[r := relay], s.hist.publishes, id)
    {
      assert RowCounted(s.db.outbox, s.relays, s.hist.publishes, id);
      OwedSet(s.relays, r, relay, id);
      ClaimOwes(batch, read, id);
    }
  }

  lemma PublishCounts(s: System, r: nat)
    requires CountInv(s.db.outbox, s.relays, s.hist) && Running(s, r, Ready) && s.relays[r].todo[0].id in s.hist.eventOf
    ensures var id := s.relays[r].todo[0].id;
      CountInv(s.db.outbox, s.relays[r := s.relays[r].(phase := Sent)],
        s.hist.(publishes := s.hist.publishes[id := Publishes(s.hist.publishes, id) + 1]))
  {
    var head, sent := s.relays[r].todo[0].id, s.relays[r].(phase := Sent);
    var publishes' := s.hist.publishes[head := Publishes(s.hist.publishes, head) + 1];
    forall id | id in s.db.outbox
      ensures RowCounted(s.db.outbox, s.relays[r := sent], publishes', id)
    {
      assert RowCounted(s.db.outbox, s.relays, s.hist.publishes, id);
      OwedSet(s.relays, r, sent, id);
    }
  }

  lemma ConfirmCounts(s: System, r: nat)
    requires CountInv(s.db.outbox, s.relays, s.hist) && Running(s, r, Sent)
    ensures CountInv(s.db.outbox, s.relays[r := s.relays[r].(phase := Confirmed)],
      s.hist.(confirmed := s.hist.confirmed + {s.relays[r].todo[0].id}))
  {
    var confirmed := s.relays[r].(phase := Confirmed);
    forall id | id in s.db.outbox
      ensures RowCounted(s.db.outbox, s.relays[r := confirmed], s.hist.publishes, id)
    {
      assert RowCounted(s.db.outbox, s.relays, s.hist.publishes, id);
      OwedSet(s.relays, r, confirmed, id);
    }
  }

  lemma AdvanceOwes(relay: Relay, id: nat)
    requires |relay.todo| > 1 && relay.phase == Confirmed
    requires forall i, j :: 0 <= i < j < |relay.todo| ==> relay.todo[i].id != relay.todo[j].id
    ensures Owes(Relay(relay.todo[1..], Ready), id) == Owes(relay, id)
  {
    var rest := relay.todo[1..];
    if Has(relay.todo, id) && relay.todo[0].id != id {
      var i :| 0 <= i < |relay.todo| && relay.todo[i].id == id;
      assert rest[i - 1].id == id;
    }
    if Has(rest, id) {
      var i :| 0 <= i < |rest| && rest[i].id == id;
      assert relay.todo[i + 1].id == id;
    }
  }

  lemma AdvanceCounts(codec: Codec, outbox: Outbox.Rows, relays: map<nat, Relay>, h: History, r: nat)
    requires CountInv(outbox, relays, h)
    requires r in relays && relays[r].phase == Confirmed && RelayOk(codec, relays[r], h.eventOf, h.confirmed)
    ensures CountInv(outbox, Advance(relays, r), h)
  {
    var relays' := Advance(relays, r);
    forall id | id in outbox
      ensures RowCounted(outbox, relays', h.publishes, id)
    {
      assert RowCounted(outbox, relays, h.publishes, id);
      if |relays[r].todo| == 1 {
        OwedRemove(relays, r, id);
      } else {
        AdvanceOwes(relays[r], id);
        OwedSet(relays, r, Relay(relays[r].todo[1..], Ready), id);
      }
    }
  }

  lemma StopCounts(s: System, r: nat)
    requires CountInv(s.db.outbox, s.relays, s.hist) && r in s.relays
    ensures CountInv(s.db.outbox, s.relays - {r}, s.hist)
  {
    forall id | id in s.db.outbox
      ensures RowCounted(s.db.outbox, s.relays - {r}, s.hist.publishes, id)
    {
      assert RowCounted(s.db.outbox, s.relays, s.hist.publishes, id);
      OwedRemove(s.relays, r, id);
    }
  }

  // Rewriting or removing rows without taking attempts away.
  lemma RowsCount(outbox: Outbox.Rows, outbox': Outbox.Rows, relays: map<nat, Relay>, h: History)
    requires CountInv(outbox, relays, h)
    requires forall id :: id in outbox' ==> id in outbox && outbox'[id].attempts == outbox[id].attempts
    ensures CountInv(outbox', relays, h)
  {
    forall id | id in outbox'
      ensures RowCounted(outbox', relays, h.publishes, id)
    {
      assert RowCounted(outbox, relays, h.publishes, id);
    }
  }

  lemma NewRowOwedNothing(codec: Codec, s: System, id: nat)
    requires RelaysInv(codec, s.relays, s.hist.eventOf, s.hist.confirmed) && id !in s.hist.eventOf
    ensures Owed(s.relays, id) == 0
  {
    forall r | r in s.relays
      ensures Owes(s.relays[r], id) == 0
    {
      assert RelayOk(codec, s.relays[r], s.hist.eventOf, s.hist.confirmed);
      forall i | 0 <= i < |s.relays[r].todo|
        ensures s.relays[r].todo[i].id != id
      {
        assert ClaimedOk(codec, s.relays[r].todo[i], s.hist.eventOf);
      }
    }
    OwedNothing(s.relays, id);
  }

  lemma BuyCounts(codec: Codec, s: System, input: Input, ids: Ids)
    requires Inv(codec, s) && CountInv(s.db.outbox, s.relays, s.hist) && ids.outbox !in s.hist.eventOf
    ensures var s' := DoBuy(s, input, ids); CountInv(s'.db.outbox, s'.relays, s'.hist)
  {
    var s' := DoBuy(s, input, ids);
    if Checkout.Run(s.db, input, ids).out.Created? && ids.outbox in Checkout.Run(s.db, input, ids).db.outbox {
      SaleWrites(s.db, input, ids);
      var row := ids.outbox;
      NewRowOwedNothing(codec, s, row);
      forall id | id in s'.db.outbox
        ensures RowCounted(s'.db.outbox, s.relays, s.hist.publishes, id)
      {
        if id != row { assert RowCounted(s.db.outbox, s.relays, s.hist.publishes, id); }
      }
    }
  }

  // Steps on the broker's far side do not touch rows, relays or their history.
  predicate FarSide(a: Action) {
    || a.Pass? || a.Deliver? || a.Apply? || a.ApplyLate? || a.Ack? || a.Reject? || a.Nack? || a.Close?
    || a.DeadLetter? || a.Garbage?
  }

  lemma FarSideLeavesRows(codec: Codec, s: System, a: Action)
    requires Enabled(codec, s, a) && FarSide(a)
    ensures var s' := Do(codec, s, a);
      s'.db == s.db && s'.relays == s.relays && s'.hist == s.hist
  {
  }

  lemma MarkCounts(codec: Codec, outbox: Outbox.Rows, relays: map<nat, Relay>, h: History, r: nat, now: nat)
    requires CountInv(outbox, relays, h)
    requires r in relays && relays[r].phase == Confirmed && RelayOk(codec, relays[r], h.eventOf, h.confirmed)
    ensures CountInv(Outbox.MarkRow(outbox, relays[r].todo[0].id, now), Advance(relays, r), h)
  {
    RowsCount(outbox, Outbox.MarkRow(outbox, relays[r].todo[0].id, now), relays, h);
    AdvanceCounts(codec, Outbox.MarkRow(outbox, relays[r].todo[0].id, now), relays, h, r);
  }

  lemma StepCounts(codec: Codec, s: System, a: Action)
    requires Faithful(codec) && Inv(codec, s) && CountInv(s.db.outbox, s.relays, s.hist) && Enabled(codec, s, a)
    ensures var s' := Do(codec, s, a); CountInv(s'.db.outbox, s'.relays, s'.hist)
  {
    if FarSide(a) {
      FarSideLeavesRows(codec, s, a);
    } else if a.Publish? {
      PublishStepCounts(codec, s, a);
    } else if a.Confirm? {
      ConfirmStepCounts(codec, s, a);
    } else if a.Mark? {
      MarkStepCounts(codec, s, a);
    } else if a.StopRelay? {
      StopStepCounts(codec, s, a);
    } else {
      match a
      case Buy(input, ids) => BuyCounts(codec, s, input, ids);
      case Claim(r, limit, aggregate, locked, read) =>
        if BatchOf(s, limit, aggregate, locked) != [] { ClaimCounts(s, r, BatchOf(s, limit, aggregate, locked), read); }
      case Purge => RowsCount(s.db.outbox, Outbox.Purged(s.db.outbox, s.now), s.relays, s.hist);
    }
  }

  // The relay steps, with what they leave alone.
  lemma RelayStepShape(codec: Codec, s: System, a: Action)
    requires Enabled(codec, s, a) && (a.Publish? || a.Confirm? || a.StopRelay?)
    ensures Do(codec, s, a).db == s.db && Do(codec, s, a).hist.eventOf == s.hist.eventOf
    ensures s.hist.confirmed <= Do(codec, s, a).hist.confirmed
  {
  }

  lemma PublishShape(codec: Codec, s: System, a: Action)
    requires Enabled(codec, s, a) && a.Publish?
    ensures var s', id := Do(codec, s, a), s.relays[a.r].todo[0].id;
      && s'.db == s.db && s'.relays == s.relays[a.r := s.relays[a.r].(phase := Sent)]
      && s'.hist == s.hist.(publishes := s.hist.publishes[id := Publishes(s.hist.publishes, id) + 1])
  {
  }

  lemma PublishStepCounts(codec: Codec, s: System, a: Action)
    requires RelaysInv(codec, s.relays, s.hist.eventOf, s.hist.confirmed)
    requires CountInv(s.db.outbox, s.relays, s.hist) && Enabled(codec, s, a) && a.Publish?
    ensures CountInv(Do(codec, s, a).db.outbox, Do(codec, s, a).relays, Do(codec, s, a).hist)
  {
    assert RelayOk(codec, s.relays[a.r], s.hist.eventOf, s.hist.confirmed);
    assert ClaimedOk(codec, s.relays[a.r].todo[0], s.hist.eventOf);
    PublishCounts(s, a.r);
    PublishShape(codec, s, a);
  }

  lemma ConfirmStepCounts(codec: Codec, s: System, a: Action)
    requires CountInv(s.db.outbox, s.relays, s.hist) && Enabled(codec, s, a) && a.Confirm?
    ensures CountInv(Do(codec, s, a).db.outbox, Do(codec, s, a).relays, Do(codec, s, a).hist)
  {
    ConfirmCounts(s, a.r);
  }

  lemma MarkStepCounts(codec: Codec, s: System, a: Action)
    requires RelaysInv(codec, s.relays, s.hist.eventOf, s.hist.confirmed)
    requires CountInv(s.db.outbox, s.relays, s.hist) && Enabled(codec, s, a) && a.Mark?
    ensures CountInv(Do(codec, s, a).db.outbox, Do(codec, s, a).relays, Do(codec, s, a).hist)
  {
    assert RelayOk(codec, s.relays[a.r], s.hist.eventOf, s.hist.confirmed);
    MarkCounts(codec, s.db.outbox, s.relays, s.hist, a.r, s.now);
  }

  lemma StopStepCounts(codec: Codec, s: System, a: Action)
    requires CountInv(s.db.outbox, s.relays, s.hist) && Enabled(codec, s, a) && a.StopRelay?
    ensures CountInv(Do(codec, s, a).db.outbox, Do(codec, s, a).relays, Do(codec, s, a).hist)
  {
    StopCounts(s, a.r);
  }

  // ----- published_at -----

  // From one state to any later one: a publication time, once set, stays until
  // the row is purged; no row comes back under an id that was used before; an
  // unpublished row only goes after it was confirmed.
  ghost predicate StampsStay(outbox: Outbox.Rows, used: set<nat>, outbox': Outbox.Rows, confirmed': set<nat>) {
    && (forall id :: id in outbox && id in outbox' && outbox[id].publishedAt.Some? ==>
          outbox'[id].publishedAt == outbox[id].publishedAt)
    && (forall id :: id in outbox' && id in used ==> id in outbox)
    && (forall id :: Pending(outbox, id) && id !in outbox' ==> id in confirmed')
  }

  ghost predicate Stamps(s: System, s': System) {
    && s.hist.eventOf.Keys <= s'.hist.eventOf.Keys
    && s.hist.confirmed <= s'.hist.confirmed
    && StampsStay(s.db.outbox, s.hist.eventOf.Keys, s'.db.outbox, s'.hist.confirmed)
  }

  lemma NewRowStamps(outbox: Outbox.Rows, used: set<nat>, id: nat, row: OutboxRow, confirmed: set<nat>)
    requires id !in used && id !in outbox
    ensures StampsStay(outbox, used, outbox[id := row], confirmed)
  {
  }

  lemma BuyStamps(s: System, input: Input, ids: Ids)
    requires ids.outbox !in s.hist.eventOf && ids.outbox !in s.db.outbox && BooksInv(s.db)
    ensures Stamps(s, DoBuy(s, input, ids))
  {
    if Checkout.Run(s.db, input, ids).out.Created? && ids.outbox in Checkout.Run(s.db, input, ids).db.outbox {
      SaleWrites(s.db, input, ids);
      var row := DoBuy(s, input, ids).db.outbox[ids.outbox];
      NewRowStamps(s.db.outbox, s.hist.eventOf.Keys, ids.outbox, row, s.hist.confirmed);
    }
  }

  lemma AttemptedStamps(outbox: Outbox.Rows, batch: seq<nat>, used: set<nat>, confirmed: set<nat>)
    ensures StampsStay(outbox, used, Outbox.Attempted(outbox, batch), confirmed)
  {
  }

  lemma MarkRowStamps(outbox: Outbox.Rows, id: nat, now: nat, used: set<nat>, confirmed: set<nat>)
    ensures StampsStay(outbox, used, Outbox.MarkRow(outbox, id, now), confirmed)
  {
  }

  lemma PurgedStamps(outbox: Outbox.Rows, now: nat, used: set<nat>, confirmed: set<nat>)
    ensures StampsStay(outbox, used, Outbox.Purged(outbox, now), confirmed)
  {
  }

  lemma RowStepStamps(codec: Codec, s: System, a: Action)
    requires Enabled(codec, s, a) && (a.Claim? || a.Mark? || a.Purge?)
    ensures Stamps(s, Do(codec, s, a))
  {
    if a.Claim? {
      AttemptedStamps(s.db.outbox, BatchOf(s, a.limit, a.aggregate, a.locked), s.hist.eventOf.Keys, s.hist.confirmed);
    } else if a.Mark? {
      MarkRowStamps(s.db.outbox, s.relays[a.r].todo[0].id, s.now, s.hist.eventOf.Keys, s.hist.confirmed);
    } else {
      PurgedStamps(s.db.outbox, s.now, s.hist.eventOf.Keys, s.hist.confirmed);
    }
  }

  lemma StepStamps(codec: Codec, s: System, a: Action)
    requires Inv(codec, s) && Enabled(codec, s, a)
    ensures Stamps(s, Do(codec, s, a))
  {
    if FarSide(a) {
      FarSideLeavesRows(codec, s, a);
    } else if a.Publish? || a.Confirm? || a.StopRelay? {
      RelayStepShape(codec, s, a);
    } else if a.Buy? {
      BuyStamps(s, a.input, a.ids);
    } else {
      RowStepStamps(codec, s, a);
    }
  }

  // published_at is written at most once in any run from any reachable state.
  lemma {:induction false} RunStamps(codec: Codec, s: System, actions: seq<Action>, s': System)
    requires Faithful(codec) && Inv(codec, s) && NamedInv(s.hist.placed) && Executes(codec, s, actions, s')
    requires ExactIds(s'.hist.placed)
    ensures Inv(codec, s') && Stamps(s, s')
    decreases |actions|
  {
    if actions != [] {
      var s1 := Do(codec, s, actions[0]);
      OrdersStay(codec, s1, actions[1..], s');
      StepKeeps(codec, s, actions[0]);
      StepStamps(codec, s, actions[0]);
      RunStamps(codec, s1, actions[1..], s');
      StampsChain(codec, s, s1, s');
    }
  }

  // In any run: once a row has its published_at it never gets another, and until
  // it has one nothing removes it unless its publish was confirmed.
  lemma PublishedOnce(codec: Codec, s0: System, before: seq<Action>, s: System, after: seq<Action>, s': System, id: nat)
    requires Faithful(codec) && Initial(s0) && Executes(codec, s0, before, s) && Executes(codec, s, after, s')
    requires ExactIds(s.hist.placed) && ExactIds(s'.hist.placed) && id in s.db.outbox
    ensures id in s'.db.outbox && s.db.outbox[id].publishedAt.Some? ==>
      s'.db.outbox[id].publishedAt == s.db.outbox[id].publishedAt
    ensures s.db.outbox[id].publishedAt.None? && id !in s'.db.outbox ==> id in s'.hist.confirmed
  {
    InitialInv(codec, s0);
    RunKeeps(codec, s0, before, s);
    RunStamps(codec, s, after, s');
    if s.db.outbox[id].publishedAt.None? { assert Pending(s.db.outbox, id); }
  }

  lemma StampsChain(codec: Codec, s: System, s1: System, s': System)
    requires Inv(codec, s) && Inv(codec, s1) && Stamps(s, s1) && Stamps(s1, s')
    ensures Stamps(s, s')
  {
    RowsChain(s.db.outbox, s.hist.eventOf.Keys, s1.db.outbox, s1.hist.eventOf.Keys, s'.db.outbox,
              s1.hist.confirmed, s'.hist.confirmed);
  }

  lemma RowsChain(a: Outbox.Rows, usedA: set<nat>, b: Outbox.Rows, usedB: set<nat>, c: Outbox.Rows,
                  confirmedB: set<nat>, confirmedC: set<nat>)
    requires StampsStay(a, usedA, b, confirmedB) && StampsStay(b, usedB, c, confirmedC)
    requires confirmedB <= confirmedC && usedA <= usedB
    requires forall id :: id in b && b[id].publishedAt.Some? ==> id in confirmedB
    requires forall id :: id in a ==> id in usedA
    ensures StampsStay(a, usedA, c, confirmedC)
  {
  }

  lemma {:induction false} RunCounts(codec: Codec, s: System, actions: seq<Action>, s': System)
    requires Faithful(codec) && Inv(codec, s) && NamedInv(s.hist.placed) && Executes(codec, s, actions, s')
    requires CountInv(s.db.outbox, s.relays, s.hist) && ExactIds(s'.hist.placed)
    ensures CountInv(s'.db.outbox, s'.relays, s'.hist)
    decreases |actions|
  {
    if actions != [] {
      OrdersStay(codec, Do(codec, s, actions[0]), actions[1..], s');
      StepKeeps(codec, s, actions[0]);
      StepCounts(codec, s, actions[0]);
      RunCounts(codec, Do(codec, s, actions[0]), actions[1..], s');
    }
  }

  // For any number of relays and crashes: a row marked published was confirmed,
  // and so published, before; and a row was never published more often than its
  // committed attempts say.
  lemma RelayAccounts(codec: Codec, s0: System, actions: seq<Action>, s: System, id: nat)
    requires Faithful(codec) && Initial(s0) && Executes(codec, s0, actions, s) && ExactIds(s.hist.placed)
    requires id in s.db.outbox
    ensures Publishes(s.hist.publishes, id) <= s.db.outbox[id].attempts
    ensures s.db.outbox[id].publishedAt.Some? ==> id in s.hist.confirmed && Publishes(s.hist.publishes, id) >= 1
  {
    InitialInv(codec, s0);
    RunKeeps(codec, s0, actions, s);
    RunCounts(codec, s0, actions, s);
    assert RowCounted(s.db.outbox, s.relays, s.hist.publishes, id);
    OwedPositive(s.relays, id);
  }

  lemma OwedPositive(relays: map<nat, Relay>, id: nat)
    ensures Owed(relays, id) >= 0
  {
    var zeros: map<nat, int> := map r | r in relays :: 0;
    SumConstant(zeros, 0);
    SumLessEqual(zeros, OwedBy(relays, id));
  }

  // ----- confirmed means marked, unless a relay dies -----

  ghost predicate Marking(relays: map<nat, Relay>, id: nat) {
    exists r :: r in relays && relays[r].todo != [] && relays[r].phase == Confirmed && relays[r].todo[0].id == id
  }

  // A confirmed row without published_at is the one some relay is about to mark.
  ghost predicate MarkedInv(outbox: Outbox.Rows, relays: map<nat, Relay>, confirmed: set<nat>) {
    forall id :: Pending(outbox, id) && id in confirmed ==> Marking(relays, id)
  }

  lemma RowsMarked(outbox: Outbox.Rows, outbox': Outbox.Rows, relays: map<nat, Relay>, confirmed: set<nat>)
    requires MarkedInv(outbox, relays, confirmed)
    requires forall id :: Pending(outbox', id) ==> Pending(outbox, id) || id !in confirmed
    ensures MarkedInv(outbox', relays, confirmed)
  {
  }

  // A relay that was not about to mark moves on.
  lemma RelayMarked(outbox: Outbox.Rows, relays: map<nat, Relay>, confirmed: set<nat>, r: nat, relay: Relay)
    requires MarkedInv(outbox, relays, confirmed)
    requires r in relays ==> relays[r].phase != Confirmed
    ensures MarkedInv(outbox, relays[r := relay], confirmed)
  {
    forall id | Pending(outbox, id) && id in confirmed
      ensures Marking(relays[r := relay], id)
    {
      var q :| q in relays && relays[q].todo != [] && relays[q].phase == Confirmed && relays[q].todo[0].id == id;
      assert relays[r := relay][q] == relays[q];
    }
  }

  lemma ConfirmMarked(outbox: Outbox.Rows, relays: map<nat, Relay>, confirmed: set<nat>, r: nat)
    requires MarkedInv(outbox, relays, confirmed) && r in relays && relays[r].todo != [] && relays[r].phase != Confirmed
    ensures MarkedInv(outbox, relays[r := relays[r].(phase := Confirmed)], confirmed + {relays[r].todo[0].id})
  {
    var relays' := relays[r := relays[r].(phase := Confirmed)];
    RelayMarked(outbox, relays, confirmed, r, relays[r].(phase := Confirmed));
    assert relays'[r].phase == Confirmed && Marking(relays', relays[r].todo[0].id);
  }

  lemma MarkMarked(outbox: Outbox.Rows, relays: map<nat, Relay>, confirmed: set<nat>, r: nat, now: nat)
    requires MarkedInv(outbox, relays, confirmed) && r in relays && relays[r].todo != []
    ensures MarkedInv(Outbox.MarkRow(outbox, relays[r].todo[0].id, now), Advance(relays, r), confirmed)
  {
    var head, relays' := relays[r].todo[0].id, Advance(relays, r);
    forall id | Pending(Outbox.MarkRow(outbox, head, now), id) && id in confirmed
      ensures Marking(relays', id)
    {
      assert id != head && Pending(outbox, id);
      var q :| q in relays && relays[q].todo != [] && relays[q].phase == Confirmed && relays[q].todo[0].id == id;
      assert q in relays' && relays'[q] == relays[q];
    }
  }

  lemma BuyMarked(codec: Codec, s: System, a: Action)
    requires DatabaseInv(s) && Enabled(codec, s, a) && a.Buy? && a.ids.outbox !in s.hist.confirmed
    requires MarkedInv(s.db.outbox, s.relays, s.hist.confirmed)
    ensures MarkedInv(Do(codec, s, a).db.outbox, Do(codec, s, a).relays, Do(codec, s, a).hist.confirmed)
  {
    if Checkout.Run(s.db, a.input, a.ids).out.Created? && a.ids.outbox in Checkout.Run(s.db, a.input, a.ids).db.outbox {
      SaleWrites(s.db, a.input, a.ids);
      RowsMarked(s.db.outbox, Do(codec, s, a).db.outbox, s.relays, s.hist.confirmed);
    }
  }

  lemma ClaimMarked(codec: Codec, s: System, a: Action)
    requires Enabled(codec, s, a) && a.Claim? && MarkedInv(s.db.outbox, s.relays, s.hist.confirmed)
    ensures MarkedInv(Do(codec, s, a).db.outbox, Do(codec, s, a).relays, Do(codec, s, a).hist.confirmed)
  {
    var batch := BatchOf(s, a.limit, a.aggregate, a.locked);
    RowsMarked(s.db.outbox, Outbox.Attempted(s.db.outbox, batch), s.relays, s.hist.confirmed);
    RelayMarked(Outbox.Attempted(s.db.outbox, batch), s.relays, s.hist.confirmed, a.r,
                Relay(Rows(batch, a.read), Ready));
  }

  lemma RelayStepMarked(codec: Codec, s: System, a: Action)
    requires Enabled(codec, s, a) && (a.Publish? || a.Confirm? || a.Mark? || a.Purge?)
    requires MarkedInv(s.db.outbox, s.relays, s.hist.confirmed)
    ensures MarkedInv(Do(codec, s, a).db.outbox, Do(codec, s, a).relays, Do(codec, s, a).hist.confirmed)
  {
    if a.Publish? {
      RelayMarked(s.db.outbox, s.relays, s.hist.confirmed, a.r, s.relays[a.r].(phase := Sent));
    } else if a.Confirm? {
      ConfirmMarked(s.db.outbox, s.relays, s.hist.confirmed, a.r);
    } else if a.Mark? {
      MarkMarked(s.db.outbox, s.relays, s.hist.confirmed, a.r, s.now);
    } else {
      RowsMarked(s.db.outbox, Outbox.Purged(s.db.outbox, s.now), s.relays, s.hist.confirmed);
    }
  }

  // A relay that dies takes nothing with it unless it was about to mark.
  lemma StopMarked(outbox: Outbox.Rows, relays: map<nat, Relay>, confirmed: set<nat>, r: nat)
    requires MarkedInv(outbox, relays, confirmed) && r in relays && relays[r].phase != Confirmed
    ensures MarkedInv(outbox, relays - {r}, confirmed)
  {
    forall id | Pending(outbox, id) && id in confirmed
      ensures Marking(relays - {r}, id)
    {
      var q :| q in relays && relays[q].todo != [] && relays[q].phase == Confirmed && relays[q].todo[0].id == id;
      assert q in relays - {r} && (relays - {r})[q] == relays[q];
    }
  }

  // The crash window of the relay loop: confirmed, not yet marked.
  predicate DiesConfirmed(s: System, a: Action) {
    a.StopRelay? && a.r in s.relays && s.relays[a.r].phase == Confirmed
  }

  lemma StepMarked(codec: Codec, s: System, a: Action)
    requires DatabaseInv(s) && CountInv(s.db.outbox, s.relays, s.hist) && Enabled(codec, s, a) && !DiesConfirmed(s, a)
    requires MarkedInv(s.db.outbox, s.relays, s.hist.confirmed)
    ensures MarkedInv(Do(codec, s, a).db.outbox, Do(codec, s, a).relays, Do(codec, s, a).hist.confirmed)
  {
    if FarSide(a) {
      FarSideLeavesRows(codec, s, a);
    } else if a.Buy? {
      UnusedIsUnconfirmed(s, a.ids.outbox);
      BuyMarked(codec, s, a);
    } else if a.Claim? {
      ClaimMarked(codec, s, a);
    } else if a.StopRelay? {
      StopMarked(s.db.outbox, s.relays, s.hist.confirmed, a.r);
    } else {
      RelayStepMarked(codec, s, a);
    }
  }

  lemma UnusedIsUnconfirmed(s: System, id: nat)
    requires CountInv(s.db.outbox, s.relays, s.hist) && id !in s.hist.eventOf
    ensures id !in s.hist.confirmed
  {
  }

  ghost predicate NoneDiesConfirmed(codec: Codec, s: System, actions: seq<Action>)
    decreases |actions|
  {
    actions == [] || (Enabled(codec, s, actions[0]) && !DiesConfirmed(s, actions[0])
                      && NoneDiesConfirmed(codec, Do(codec, s, actions[0]), actions[1..]))
  }

  lemma {:induction false} RunMarked(codec: Codec, s: System, actions: seq<Action>, s': System)
    requires Faithful(codec) && Inv(codec, s) && NamedInv(s.hist.placed) && Executes(codec, s, actions, s')
    requires CountInv(s.db.outbox, s.relays, s.hist) && ExactIds(s'.hist.placed)
    requires MarkedInv(s.db.outbox, s.relays, s.hist.confirmed) && NoneDiesConfirmed(codec, s, actions)
    ensures MarkedInv(s'.db.outbox, s'.relays, s'.hist.confirmed)
    decreases |actions|
  {
    if actions != [] {
      OrdersStay(codec, Do(codec, s, actions[0]), actions[1..], s');
      StepKeeps(codec, s, actions[0]);
      StepCounts(codec, s, actions[0]);
      StepMarked(codec, s, actions[0]);
      RunMarked(codec, Do(codec, s, actions[0]), actions[1..], s');
    }
  }

  // In a run in which no relay dies between a confirmation and its mark - it may
  // die anywhere else, and publishes may fail or go unconfirmed - once no relay is
  // at work the rows marked published are exactly the rows confirmed.
  lemma MarkedIffConfirmed(codec: Codec, s0: System, actions: seq<Action>, s: System, id: nat)
    requires Faithful(codec) && Initial(s0) && Executes(codec, s0, actions, s) && ExactIds(s.hist.placed)
    requires NoneDiesConfirmed(codec, s0, actions)
    requires s.relays == map[] && id in s.db.outbox
    ensures s.db.outbox[id].publishedAt.Some? <==> id in s.hist.confirmed
  {
    InitialInv(codec, s0);
    RunMarked(codec, s0, actions, s);
    RelayAccounts(codec, s0, actions, s, id);
    if s.db.outbox[id].publishedAt.None? { assert Pending(s.db.outbox, id); }
  }

  // ----- bodies -----

  function RealCodec(coerce: Json.Json -> Contract.Number): Codec {
    Codec((body: Json.Json) => Contract.Parse(coerce, Some(body)), (e: Contract.Event) => Contract.Render(e))
  }

  // The machine's codec assumption is what the contract delivers.
  lemma RealCodecFaithful(coerce: Json.Json -> Contract.Number)
    ensures Faithful(RealCodec(coerce))
  {
    var codec := RealCodec(coerce);
    forall e: Contract.Event, body: Json.Json | Contract.Valid(e) && Json.Reordered(codec.render(e), body)
      ensures codec.parse(body) == Contract.Ok(e)
    {
      Contract.RoundTrip(coerce, e, body);
    }
    forall e: Contract.Event
      ensures Json.Reordered(codec.render(e), codec.render(e))
    {
      Contract.RenderReordered(e);
    }
  }

  // No row a checkout wrote makes a relay throw: in every run, what a relay has
  // claimed and has yet to publish parses back to the event its row was written
  // with, so there is nothing but a failed publish to stop it.
  lemma CheckoutRowsParse(codec: Codec, s0: System, actions: seq<Action>, s: System, r: nat, i: nat)
    requires Faithful(codec) && Initial(s0) && Executes(codec, s0, actions, s) && ExactIds(s.hist.placed)
    requires r in s.relays && i < |s.relays[r].todo|
    ensures var row := s.relays[r].todo[i];
      && row.id in s.hist.eventOf && codec.parse(row.body) == Contract.Ok(s.hist.eventOf[row.id])
      && (row.id in s.db.outbox ==> s.db.outbox[row.id].payload == s.hist.eventOf[row.id])
  {
    InitialInv(codec, s0);
    RunKeeps(codec, s0, actions, s);
    HeldRowsParse(codec, s, r, i);
  }

  lemma HeldRowsParse(codec: Codec, s: System, r: nat, i: nat)
    requires Faithful(codec) && Inv(codec, s) && r in s.relays && i < |s.relays[r].todo|
    ensures var row := s.relays[r].todo[i];
      && row.id in s.hist.eventOf && codec.parse(row.body) == Contract.Ok(s.hist.eventOf[row.id])
      && (row.id in s.db.outbox ==> s.db.outbox[row.id].payload == s.hist.eventOf[row.id])
  {
    assert RelayOk(codec, s.relays[r], s.hist.eventOf, s.hist.confirmed);
    assert ClaimedOk(codec, s.relays[r].todo[i], s.hist.eventOf);
  }

  // A body that would be rejected is not the event of any order.
  lemma OnlyGarbageIsRejected(codec: Codec, placed: map<nat, Contract.Event>, body: Json.Json)
    requires Faithful(codec) && codec.parse(body).BadEvent?
    ensures forall o :: o in placed && Contract.Valid(placed[o]) ==> body != codec.render(placed[o])
  {
    forall o | o in placed && Contract.Valid(placed[o])
      ensures body != codec.render(placed[o])
    {
      assert Json.Reordered(codec.render(placed[o]), codec.render(placed[o]));
    }
  }

  // ----- where order ids stop working -----

  // Order ids reach the event through Number(...). Up to 2^53 different orders
  // have different event ids, and no further.
  lemma EventIdsDistinctIff(n: nat)
    ensures (forall i: nat, j: nat :: 1 <= i < j <= n ==> Contract.EventId(Double(i)) != Contract.EventId(Double(j)))
      <==> n <= SAFE
  {
    NumberInjectiveIff(n);
    forall i: nat, j: nat
      ensures Contract.EventId(Double(i)) == Contract.EventId(Double(j)) <==> Double(i) == Double(j)
    {
      Contract.EventIdInjective(Double(i), Double(j));
    }
  }

  // Beyond that the second order's event is taken for a redelivery of the first:
  // it is marked as seen and never has an effect of its own.
  lemma BeyondSafeIdsAnEffectIsLost(first: Order, second: Order, inbox: Inbox.Inbox)
    requires Inbox.MarkIffEffect(inbox)
    ensures var e1, e2 := Checkout.PlacedEvent(SAFE, first), Checkout.PlacedEvent(SAFE + 1, second);
      Inbox.Apply(Inbox.Apply(inbox, e1), e2).effects == Inbox.Apply(inbox, e1).effects
  {
    assert Round(SAFE + 1, false, false) == 2 * Round(SAFE / 2, true, false) == SAFE;
    assert Double(SAFE + 1) == Double(SAFE);
    Inbox.ApplyKeepsMarkIffEffect(inbox, Checkout.PlacedEvent(SAFE, first));
    Inbox.ApplyKeepsMarkIffEffect(Inbox.Apply(inbox, Checkout.PlacedEvent(SAFE, first)),
                                  Checkout.PlacedEvent(SAFE + 1, second));
  }
}
