/** The order.placed message contract: src/broker/order-placed.ts. */
module Contract {
  import opened Prelude
  import opened Json
  import opened Numbers

  datatype Event = Event(
    eventId: string,
    occurredAt: string,
    orderId: int,
    buyerId: int,
    totalCents: int,
    status: string)

  datatype Parsed = Ok(event: Event) | BadEvent(detail: string)

  const TYPE := "order.placed"

  // ----- printing -----

  function Decimal(n: nat): (s: string)
    ensures |s| >= 1
  {
    if n < 10 then [DIGITS[n]] else Decimal(n / 10) + [DIGITS[n % 10]]
  }

  const DIGITS := "0123456789"

  lemma {:induction false} DecimalInjective(m: nat, n: nat)
    requires Decimal(m) == Decimal(n)
    ensures m == n
    decreases m
  {
    var s, t := Decimal(m), Decimal(n);
    assert s[|s| - 1] == DIGITS[m % 10] && t[|t| - 1] == DIGITS[n % 10];
    assert m % 10 == n % 10;
    if m >= 10 && n >= 10 {
      assert s[..|s| - 1] == Decimal(m / 10) && t[..|t| - 1] == Decimal(n / 10);
      DecimalInjective(m / 10, n / 10);
    }
  }

  function EventId(orderId: nat): string {
    "order.placed:" + Decimal(orderId)
  }

  lemma EventIdInjective(m: nat, n: nat)
    ensures EventId(m) == EventId(n) <==> m == n
    ensures |EventId(m)| > 13 && EventId(m)[..13] == "order.placed:" && EventId(m)[13..] == Decimal(m)
  {
    if EventId(m) == EventId(n) {
      assert EventId(m)[13..] == Decimal(m) && EventId(n)[13..] == Decimal(n);
      DecimalInjective(m, n);
    }
  }

  // `orderPlacedEvent`: ids arrive already converted by Number(...).
  function OrderPlacedEvent(orderId: nat, buyerId: nat, totalCents: nat, status: string, occurredAt: string): Event {
    Event(EventId(orderId), occurredAt, orderId, buyerId, totalCents, status)
  }

  // JSON.stringify(event), as a value.
  function Render(e: Event): Json {
    JObj([
      Member("eventId", JStr(e.eventId)),
      Member("type", JStr(TYPE)),
      Member("occurredAt", JStr(e.occurredAt)),
      Member("data", RenderData(e))])
  }

  function RenderData(e: Event): Json {
    JObj([
      Member("orderId", JNum(e.orderId as real)),
      Member("buyerId", JNum(e.buyerId as real)),
      Member("totalCents", JNum(e.totalCents as real)),
      Member("status", JStr(e.status))])
  }

  // ----- parsing -----

  // The value of Number(x): a double that is finite, or NaN / an infinity.
  datatype Number = Finite(x: real) | NotFinite

  // Number(fields.f). `coerce` stands for the coercion of everything that is
  // not already a number (strings, booleans, null, arrays, objects); no result
  // below depends on which coercion it is.
  function NumberOf(coerce: Json -> Number, field: Option<Json>): Number {
    match field
    case None => NotFinite
    case Some(JNum(n)) => Finite(n)
    case Some(other) => coerce(other)
  }

  predicate IsInteger(n: Number) {
    n.Finite? && n.x == n.x.Floor as real
  }

  function Fields(j: Json): seq<Member> {
    if j.JObj? then j.members else []
  }

  function NonEmptyString(field: Option<Json>): Option<string> {
    if field.Some? && field.value.JStr? && |field.value.s| >= 1 then Some(field.value.s) else None
  }

  // `parseOrderPlaced`; None is a body that is not JSON at all.
  function Parse(coerce: Json -> Number, body: Option<Json>): Parsed {
    if body.None? then BadEvent("body is not json")
    else if !(body.value.JObj? || body.value.JArr?) then BadEvent("body is not an object")
    else
      var record := Fields(body.value);
      var eventId := NonEmptyString(Lookup(record, "eventId"));
      var occurredAt := NonEmptyString(Lookup(record, "occurredAt"));
      if Lookup(record, "type") != Some(JStr(TYPE)) then BadEvent("type is not order.placed")
      else if eventId.None? then BadEvent("eventId is missing")
      else if occurredAt.None? then BadEvent("occurredAt is missing")
      else
        var data := Lookup(record, "data");
        if data.None? || !(data.value.JObj? || data.value.JArr?) then BadEvent("data is missing")
        else ParseData(coerce, eventId.value, occurredAt.value, Fields(data.value))
  }

  function ParseData(coerce: Json -> Number, eventId: string, occurredAt: string, fields: seq<Member>): Parsed {
    var orderId, buyerId, totalCents :=
      NumberOf(coerce, Lookup(fields, "orderId")),
      NumberOf(coerce, Lookup(fields, "buyerId")),
      NumberOf(coerce, Lookup(fields, "totalCents"));
    if !IsInteger(orderId) || orderId.x < 1.0 then BadEvent("orderId is missing")
    else if !IsInteger(buyerId) || buyerId.x < 1.0 then BadEvent("buyerId is missing")
    else if !IsInteger(totalCents) || totalCents.x < 0.0 then BadEvent("totalCents is missing")
    else
      var status := Lookup(fields, "status");
      Ok(Event(eventId, occurredAt, orderId.x.Floor, buyerId.x.Floor, totalCents.x.Floor,
               if status.Some? && status.value.JStr? then status.value.s else "paid"))
  }

  // ----- what the two do together -----

  // The events the contract admits.
  predicate Valid(e: Event) {
    |e.eventId| >= 1 && |e.occurredAt| >= 1 && e.orderId >= 1 && e.buyerId >= 1 && e.totalCents >= 0
  }

  lemma DataRoundTrip(coerce: Json -> Number, e: Event, data: Json)
    requires Valid(e) && Reordered(RenderData(e), data)
    ensures ParseData(coerce, e.eventId, e.occurredAt, data.members) == Ok(e)
  {
    var d := RenderData(e).members;
    LookupScalar(d, data, 0);
    LookupScalar(d, data, 1);
    LookupScalar(d, data, 2);
    LookupScalar(d, data, 3);
  }

  // A valid event survives printing, any key order, and parsing.
  lemma RoundTrip(coerce: Json -> Number, e: Event, body: Json)
    requires Valid(e) && Reordered(Render(e), body)
    ensures Parse(coerce, Some(body)) == Ok(e)
  {
    var m := Render(e).members;
    LookupScalar(m, body, 0);
    LookupScalar(m, body, 1);
    LookupScalar(m, body, 2);
    LookupReordered(m, body, 3);
    DataRoundTrip(coerce, e, Lookup(body.members, "data").value);
  }

  // Printing is itself one of the admissible orders.
  lemma RenderReordered(e: Event)
    ensures Reordered(Render(e), Render(e))
  {
    var m, d := Render(e).members, RenderData(e).members;
    ReorderedReflexive(d);
    ReorderedReflexive(m);
  }

  // The parser accepts exactly the valid events, and parse-print-parse is parse
  // on every body, whatever the coercion did to it the first time.
  lemma ParsePrintParse(coerce: Json -> Number, body: Option<Json>, again: Json)
    requires Parse(coerce, body).Ok?
    requires Reordered(Render(Parse(coerce, body).event), again)
    ensures Valid(Parse(coerce, body).event)
    ensures Parse(coerce, Some(again)) == Parse(coerce, body)
  {
    RoundTrip(coerce, Parse(coerce, body).event, again);
  }

  // The body is an order.placed object and says e, the status left to default.
  predicate Says(coerce: Json -> Number, body: Option<Json>, e: Event) {
    && body.Some? && body.value.JObj?
    && var m := body.value.members;
      && Lookup(m, "type") == Some(JStr("order.placed"))
      && Lookup(m, "eventId") == Some(JStr(e.eventId)) && Lookup(m, "occurredAt") == Some(JStr(e.occurredAt))
      && Lookup(m, "data").Some? && DataSays(coerce, Lookup(m, "data").value, e)
  }

  predicate DataSays(coerce: Json -> Number, data: Json, e: Event) {
    && (data.JObj? || data.JArr?)
    && var fields := Fields(data);
      && NumberOf(coerce, Lookup(fields, "orderId")) == Finite(e.orderId as real)
      && NumberOf(coerce, Lookup(fields, "buyerId")) == Finite(e.buyerId as real)
      && NumberOf(coerce, Lookup(fields, "totalCents")) == Finite(e.totalCents as real)
      && e.status == StatusOf(Lookup(fields, "status"))
  }

  function StatusOf(field: Option<Json>): string {
    match field
    case Some(JStr(status)) => status
    case _ => "paid"
  }

  // For every body: parsing yields e if and only if the body says e and e has an
  // event id, a time, positive ids and a total of at least 0. Everything else is
  // refused.
  lemma ParsesIffSays(coerce: Json -> Number, body: Option<Json>, e: Event)
    ensures Parse(coerce, body) == Ok(e) <==> Says(coerce, body, e) && Valid(e)
  {
    if body.Some? && body.value.JObj? && Lookup(body.value.members, "data").Some? {
      var data := Lookup(body.value.members, "data").value;
      if |e.eventId| >= 1 && |e.occurredAt| >= 1 { DataParsesIff(coerce, e, data); }
      if Parse(coerce, body).Ok? {
        var ok := Parse(coerce, body).event;
        assert ParseData(coerce, ok.eventId, ok.occurredAt, Fields(data)) == Ok(ok);
      }
    }
  }

  lemma DataParsesIff(coerce: Json -> Number, e: Event, data: Json)
    requires |e.eventId| >= 1 && |e.occurredAt| >= 1
    ensures (data.JObj? || data.JArr?) && ParseData(coerce, e.eventId, e.occurredAt, Fields(data)) == Ok(e)
      <==> DataSays(coerce, data, e) && Valid(e)
  {
  }

  lemma AcceptedIffValid(coerce: Json -> Number, e: Event)
    ensures Valid(e) <==> exists body :: Parse(coerce, body) == Ok(e)
  {
    if Valid(e) {
      RenderReordered(e);
      RoundTrip(coerce, e, Render(e));
      assert Parse(coerce, Some(Render(e))) == Ok(e);
    }
  }
}
