/** The consumer's transaction: src/broker/effects.ts. */
module Inbox {
  import opened Prelude
  import Contract

  datatype Effect = Effect(eventId: string, orderId: int)

  // order_placed_deliveries, processed_messages (for this consumer) and
  // order_placed_effects, rows in insertion order. No key is assumed unique.
  datatype Inbox = Inbox(deliveries: seq<string>, marks: seq<string>, effects: seq<Effect>)

  datatype Applied = Applied | Skipped

  predicate HasEffect(effects: seq<Effect>, eventId: string) {
    exists i :: 0 <= i < |effects| && effects[i].eventId == eventId
  }

  function Apply(inbox: Inbox, e: Contract.Event): Inbox {
    var counted := inbox.(deliveries := inbox.deliveries + [e.eventId]);
    if e.eventId in inbox.marks then counted
    else counted.(marks := inbox.marks + [e.eventId],
                  effects := if HasEffect(inbox.effects, e.eventId) then inbox.effects
                             else inbox.effects + [Effect(e.eventId, e.orderId)])
  }

  class Store {
    var inbox: Inbox

    constructor ()
      ensures inbox == Inbox([], [], [])
    {
      inbox := Inbox([], [], []);
    }

    // A database error anywhere in the transaction rolls all three inserts back.
    method ApplyOrderPlaced(e: Contract.Event, databaseFails: bool) returns (result: Option<Applied>)
      modifies this
      ensures databaseFails ==> result.None? && inbox == old(inbox)
      ensures !databaseFails ==> inbox == Apply(old(inbox), e)
      ensures !databaseFails ==> result == Some(if e.eventId in old(inbox).marks then Skipped else Applied)
    {
      var begin := inbox;
      inbox := inbox.(deliveries := inbox.deliveries + [e.eventId]);
      var marked := e.eventId !in inbox.marks;
      if marked { inbox := inbox.(marks := inbox.marks + [e.eventId]); }
      if marked && !HasEffect(inbox.effects, e.eventId) {
        inbox := inbox.(effects := inbox.effects + [Effect(e.eventId, e.orderId)]);
      }
      if databaseFails { inbox := begin; return None; }
      return Some(if marked then Applied else Skipped);
    }
  }

  // Mark and effect exist together, once per event.
  ghost predicate MarkIffEffect(inbox: Inbox) {
    && |inbox.effects| == |inbox.marks|
    && (forall i :: 0 <= i < |inbox.marks| ==> inbox.effects[i].eventId == inbox.marks[i])
    && (forall i, j :: 0 <= i < j < |inbox.marks| ==> inbox.marks[i] != inbox.marks[j])
  }

  lemma ApplyKeepsMarkIffEffect(inbox: Inbox, e: Contract.Event)
    requires MarkIffEffect(inbox)
    ensures MarkIffEffect(Apply(inbox, e))
    ensures e.eventId in Apply(inbox, e).marks
    ensures e.eventId in inbox.marks ==> Apply(inbox, e).effects == inbox.effects
    ensures e.eventId !in inbox.marks ==> Apply(inbox, e).effects == inbox.effects + [Effect(e.eventId, e.orderId)]
  {
  }

  function ApplyAll(inbox: Inbox, ds: seq<Contract.Event>): Inbox {
    if ds == [] then inbox else Apply(ApplyAll(inbox, ds[..|ds| - 1]), ds[|ds| - 1])
  }

  // The first delivery of each event, in order.
  function FirstDeliveries(ds: seq<Contract.Event>): seq<Contract.Event> {
    if ds == [] then [] else
      var earlier := ds[..|ds| - 1];
      FirstDeliveries(earlier) + if Seen(earlier, ds[|ds| - 1].eventId) then [] else [ds[|ds| - 1]]
  }

  predicate Seen(ds: seq<Contract.Event>, eventId: string) {
    exists i :: 0 <= i < |ds| && ds[i].eventId == eventId
  }

  // At-least-once delivery, exactly-once result: whatever is delivered, however
  // often and in whatever order, the effects are those of the first deliveries.
  lemma {:induction false} ExactlyOnceResult(ds: seq<Contract.Event>)
    ensures var inbox := ApplyAll(Inbox([], [], []), ds);
      && MarkIffEffect(inbox)
      && |inbox.deliveries| == |ds|
      && |inbox.effects| == |FirstDeliveries(ds)|
      && (forall i :: 0 <= i < |inbox.effects| ==>
            inbox.effects[i] == Effect(FirstDeliveries(ds)[i].eventId, FirstDeliveries(ds)[i].orderId))
      && (forall id :: id in inbox.marks <==> Seen(ds, id))
  {
    if ds != [] {
      var earlier, last := ds[..|ds| - 1], ds[|ds| - 1];
      ExactlyOnceResult(earlier);
      var inbox := ApplyAll(Inbox([], [], []), earlier);
      ApplyKeepsMarkIffEffect(inbox, last);
      SeenSnoc(earlier, last);
      assert earlier + [last] == ds;
    }
  }

  lemma SeenSnoc(ds: seq<Contract.Event>, e: Contract.Event)
    ensures forall id :: Seen(ds + [e], id) <==> Seen(ds, id) || id == e.eventId
  {
    forall id | Seen(ds, id)
      ensures Seen(ds + [e], id)
    {
      var i :| 0 <= i < |ds| && ds[i].eventId == id;
      assert (ds + [e])[i].eventId == id;
    }
    assert (ds + [e])[|ds|].eventId == e.eventId;
  }

  // deleteDemoRows takes the demo effects away and leaves their marks
  // (src/broker/effects.ts:49-52). It keeps mark-iff-effect exactly when no demo
  // event had been applied.
  function DeleteDemoRows(inbox: Inbox, demo: string -> bool): Inbox {
    Inbox(Without(inbox.deliveries, demo), inbox.marks, WithoutEffects(inbox.effects, demo))
  }

  function Without(ids: seq<string>, demo: string -> bool): seq<string> {
    if ids == [] then [] else (if demo(ids[0]) then [] else [ids[0]]) + Without(ids[1..], demo)
  }

  function WithoutEffects(effects: seq<Effect>, demo: string -> bool): seq<Effect> {
    if effects == [] then [] else
      (if demo(effects[0].eventId) then [] else [effects[0]]) + WithoutEffects(effects[1..], demo)
  }

  lemma {:induction false} WithoutEffectsSize(effects: seq<Effect>, demo: string -> bool)
    ensures |WithoutEffects(effects, demo)| <= |effects|
    ensures (exists i :: 0 <= i < |effects| && demo(effects[i].eventId))
      <==> |WithoutEffects(effects, demo)| < |effects|
    ensures |WithoutEffects(effects, demo)| == |effects| ==> WithoutEffects(effects, demo) == effects
  {
    if effects != [] {
      WithoutEffectsSize(effects[1..], demo);
      if i :| 0 <= i < |effects| && demo(effects[i].eventId) {
        assert i == 0 || effects[1..][i - 1] == effects[i];
      }
    }
  }

  lemma {:induction false} WithoutMeans(ids: seq<string>, demo: string -> bool, x: string)
    ensures multiset(Without(ids, demo))[x] == if demo(x) then 0 else multiset(ids)[x]
  {
    if ids != [] {
      WithoutMeans(ids[1..], demo, x);
      assert ids == [ids[0]] + ids[1..];
      assert multiset(ids)[x] == multiset([ids[0]])[x] + multiset(ids[1..])[x];
    }
  }

  lemma {:induction false} WithoutEffectsMeans(effects: seq<Effect>, demo: string -> bool, x: Effect)
    ensures multiset(WithoutEffects(effects, demo))[x] == if demo(x.eventId) then 0 else multiset(effects)[x]
  {
    if effects != [] {
      WithoutEffectsMeans(effects[1..], demo, x);
      assert effects == [effects[0]] + effects[1..];
      assert multiset(effects)[x] == multiset([effects[0]])[x] + multiset(effects[1..])[x];
    }
  }

  // Deleting takes every demo delivery and effect, no other, and no mark.
  lemma DeletesOnlyDemoRows(inbox: Inbox, demo: string -> bool, id: string, x: Effect)
    ensures var inbox' := DeleteDemoRows(inbox, demo);
      && multiset(inbox'.deliveries)[id] == (if demo(id) then 0 else multiset(inbox.deliveries)[id])
      && multiset(inbox'.effects)[x] == (if demo(x.eventId) then 0 else multiset(inbox.effects)[x])
      && inbox'.marks == inbox.marks
  {
    WithoutMeans(inbox.deliveries, demo, id);
    WithoutEffectsMeans(inbox.effects, demo, x);
  }

  lemma DeleteDemoRowsBreaksIff(inbox: Inbox, demo: string -> bool)
    requires MarkIffEffect(inbox)
    ensures MarkIffEffect(DeleteDemoRows(inbox, demo)) <==> forall i :: 0 <= i < |inbox.marks| ==> !demo(inbox.marks[i])
  {
    WithoutEffectsSize(inbox.effects, demo);
  }
}
