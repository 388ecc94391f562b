/** Cursor pages: src/common/pagination/pagination.ts. */
module Pagination {
  import opened Prelude
  import opened Base64Url
  import Contract
  import Json

  // ----- the cursor -----

  // The text {"id":n}.
  function Text(id: nat): string { "{\"id\":" + Contract.Decimal(id) + "}" }

  predicate Ascii(s: string) { forall i :: 0 <= i < |s| ==> s[i] < 128 as char }

  function AsciiBytes(s: string): seq<Byte>
    requires Ascii(s)
  {
    seq(|s|, i requires 0 <= i < |s| => s[i] as nat)
  }

  lemma {:induction false} DecimalIsAscii(n: nat)
    ensures Ascii(Contract.Decimal(n))
    ensures forall i :: 0 <= i < |Contract.Decimal(n)| ==> '0' <= Contract.Decimal(n)[i] <= '9'
  {
    if n >= 10 { DecimalIsAscii(n / 10); }
  }

  lemma TextIsAscii(id: nat)
    ensures Ascii(Text(id))
  {
    DecimalIsAscii(id);
  }

  function EncodeCursor(id: nat): string {
    TextIsAscii(id);
    Encode(AsciiBytes(Text(id)))
  }

  datatype Cursor = Id(id: int) | BadCursor

  // `read` is JSON.parse on the bytes taken as UTF-8.
  function DecodeCursor(read: seq<Byte> -> Option<Json.Json>, raw: string): Cursor {
    var parsed := read(Decode(raw));
    if parsed.None? then BadCursor
    else
      var id := Json.Lookup(if parsed.value.JObj? then parsed.value.members else [], "id");
      if id.Some? && id.value.JNum? && id.value.n == id.value.n.Floor as real then Id(id.value.n.Floor) else BadCursor
  }

  // The part of JSON.parse a cursor needs, spelled out: an object with the one
  // member "id" whose value is written in decimal digits.
  function Digits(s: string): Option<nat> {
    if s == "" || !('0' <= s[|s| - 1] <= '9') then None
    else
      var d := s[|s| - 1] as nat - '0' as nat;
      if |s| == 1 then Some(d)
      else if Digits(s[..|s| - 1]).None? then None
      else Some(10 * Digits(s[..|s| - 1]).value + d)
  }

  lemma {:induction false} DigitsOfDecimal(n: nat)
    ensures Digits(Contract.Decimal(n)) == Some(n)
  {
    var s := Contract.Decimal(n);
    LastDigit(n % 10);
    if n >= 10 {
      DigitsOfDecimal(n / 10);
      assert s[..|s| - 1] == Contract.Decimal(n / 10);
    }
  }

  lemma LastDigit(d: nat)
    requires d < 10
    ensures Contract.DIGITS[d] as nat == '0' as nat + d
  {
  }

  function Canonical(text: string): Option<Json.Json> {
    if |text| < 8 || text[..6] != "{\"id\":" || text[|text| - 1] != '}' || (text[6] == '0' && |text| > 8) then None
    else
      var n := Digits(text[6..|text| - 1]);
      if n.None? then None else Some(Json.JObj([Json.Member("id", Json.JNum(n.value as real))]))
  }

  // `read` reads at least such texts, and reads them right.
  ghost predicate ReadsCursors(read: seq<Byte> -> Option<Json.Json>) {
    forall text: string :: Ascii(text) && Canonical(text).Some? ==> read(AsciiBytes(text)) == Canonical(text)
  }

  lemma {:induction false} NoLeadingZero(n: nat)
    ensures Contract.Decimal(n)[0] == '0' ==> |Contract.Decimal(n)| == 1
    ensures n >= 1 ==> Contract.Decimal(n)[0] != '0'
  {
    LastDigit(n % 10);
    if n >= 10 { NoLeadingZero(n / 10); }
  }

  lemma TextIsCanonical(id: nat)
    ensures Canonical(Text(id)) == Some(Json.JObj([Json.Member("id", Json.JNum(id as real))]))
  {
    var text, digits := Text(id), Contract.Decimal(id);
    NoLeadingZero(id);
    DigitsOfDecimal(id);
    assert text[6..|text| - 1] == digits;
    assert text[6] == digits[0];
  }

  // A cursor the server gives out comes back as the id it was made from.
  lemma CursorRoundTrip(read: seq<Byte> -> Option<Json.Json>, id: nat)
    requires ReadsCursors(read)
    ensures DecodeCursor(read, EncodeCursor(id)) == Id(id)
  {
    TextIsAscii(id);
    TextIsCanonical(id);
    DecodeEncode(AsciiBytes(Text(id)));
    var parsed := read(AsciiBytes(Text(id)));
    assert parsed.value.members == [Json.Member("id", Json.JNum(id as real))];
    assert Json.Lookup(parsed.value.members, "id") == Some(Json.JNum(id as real));
    assert (id as real).Floor == id;
  }

  // ----- pages -----

  // The two directions of a cursor, as pages use them.
  datatype Cursors = Cursors(encode: nat -> string, decode: string -> Cursor)

  function RealCursors(read: seq<Byte> -> Option<Json.Json>): Cursors {
    Cursors((id: nat) => EncodeCursor(id), (raw: string) => DecodeCursor(read, raw))
  }

  ghost predicate Inverse(cursors: Cursors) {
    forall id: nat :: cursors.encode(id) != "" && cursors.decode(cursors.encode(id)) == Id(id)
  }

  lemma RealCursorsInverse(read: seq<Byte> -> Option<Json.Json>)
    requires ReadsCursors(read)
    ensures Inverse(RealCursors(read))
  {
    forall id: nat
      ensures EncodeCursor(id) != "" && DecodeCursor(read, EncodeCursor(id)) == Id(id)
    {
      CursorRoundTrip(read, id);
      TextIsAscii(id);
      DecodeEncode(AsciiBytes(Text(id)));
      assert |AsciiBytes(Text(id))| > 0;
      assert Decode("") == [];
    }
  }

  // `fields` is the rest of an item.
  datatype Item = Item(id: nat, fields: Json.Json)
  type Items = seq<Item>
  datatype Page = Page(items: Items, nextCursor: Option<string>) | Refused

  function After(items: Items, start: int): Items {
    if items == [] then []
    else if items[0].id > start then [items[0]] + After(items[1..], start)
    else After(items[1..], start)
  }

  // slice(0, limit)
  function Slice(items: Items, limit: int): Items {
    if limit >= |items| then items
    else if limit >= 0 then items[..limit]
    else if |items| + limit > 0 then items[..|items| + limit]
    else []
  }

  predicate HasAbove(items: Items, last: nat) {
    exists i :: 0 <= i < |items| && items[i].id > last
  }

  function PageFrom(cursors: Cursors, items: Items, limit: int, start: int): Page {
    var slice := Slice(After(items, start), limit);
    if slice == [] then Page(slice, None)
    else
      var last := slice[|slice| - 1].id;
      Page(slice, if HasAbove(items, last) then Some(cursors.encode(last)) else None)
  }

  function Paginate(cursors: Cursors, items: Items, limit: int, cursor: Option<string>): Page {
    if cursor.None? || cursor.value == "" then PageFrom(cursors, items, limit, 0)
    else
      match cursors.decode(cursor.value)
      case BadCursor => Refused
      case Id(start) => PageFrom(cursors, items, limit, start)
  }

  // The cursor, decoded and read, is an object whose id is this integer.
  predicate CursorSays(read: seq<Byte> -> Option<Json.Json>, raw: string, id: int) {
    && read(Decode(raw)).Some? && read(Decode(raw)).value.JObj?
    && Json.Lookup(read(Decode(raw)).value.members, "id") == Some(Json.JNum(id as real))
  }

  // A request is refused if and only if it brings a cursor, not empty, that names
  // no integer; a cursor that names one is the place the page starts after.
  lemma RefusedIff(read: seq<Byte> -> Option<Json.Json>, items: Items, limit: int, cursor: Option<string>)
    ensures Paginate(RealCursors(read), items, limit, cursor) == Refused
      <==> cursor.Some? && cursor.value != "" && forall id :: !CursorSays(read, cursor.value, id)
    ensures forall id :: cursor.Some? && cursor.value != "" && CursorSays(read, cursor.value, id) ==>
      Paginate(RealCursors(read), items, limit, cursor) == PageFrom(RealCursors(read), items, limit, id)
  {
    if cursor.Some? && cursor.value != "" {
      var decoded := DecodeCursor(read, cursor.value);
      assert RealCursors(read).decode(cursor.value) == decoded;
      if decoded.Id? { assert CursorSays(read, cursor.value, decoded.id); }
      forall id | CursorSays(read, cursor.value, id)
        ensures decoded == Id(id)
      {
        assert (id as real).Floor == id;
      }
    }
  }

  // ----- where a page lies in the list -----

  ghost predicate Ascending(items: Items) {
    && (forall i, j :: 0 <= i < j < |items| ==> items[i].id < items[j].id)
    && (forall i :: 0 <= i < |items| ==> items[i].id >= 1)
  }

  ghost predicate CutAt(items: Items, start: int, k: nat) {
    && k <= |items|
    && (forall i :: 0 <= i < k ==> items[i].id <= start)
    && (forall i :: k <= i < |items| ==> items[i].id > start)
  }

  lemma {:induction false} AfterCut(items: Items, start: int, k: nat)
    requires CutAt(items, start, k)
    ensures After(items, start) == items[k..]
  {
    if items != [] {
      if k > 0 {
        AfterCut(items[1..], start, k - 1);
        assert items[1..][k - 1..] == items[k..];
      } else {
        AfterCut(items[1..], start, 0);
        assert [items[0]] + items[1..] == items;
      }
    }
  }

  lemma {:induction false} CutExists(items: Items, start: int) returns (k: nat)
    requires Ascending(items)
    ensures CutAt(items, start, k)
  {
    k := 0;
    while k < |items| && items[k].id <= start
      invariant k <= |items| && forall i :: 0 <= i < k ==> items[i].id <= start
    {
      k := k + 1;
    }
  }

  // A page's items run from the cut for `limit` places, and it hands out a cursor
  // exactly when something is left.
  lemma PageIs(cursors: Cursors, items: Items, limit: int, start: int, k: nat)
    requires Ascending(items) && limit >= 1 && CutAt(items, start, k)
    ensures PageFrom(cursors, items, limit, start)
      == if k + limit < |items| then Page(items[k..k + limit], Some(cursors.encode(items[k + limit - 1].id)))
         else Page(items[k..], None)
  {
    AfterCut(items, start, k);
    if k + limit < |items| {
      assert Slice(items[k..], limit) == items[k..k + limit];
      MoreLeft(items, k + limit - 1);
    } else if k < |items| {
      MoreLeft(items, |items| - 1);
    }
  }

  lemma MoreLeft(items: Items, j: nat)
    requires Ascending(items) && j < |items|
    ensures HasAbove(items, items[j].id) <==> j + 1 < |items|
  {
    if j + 1 < |items| { assert items[j + 1].id > items[j].id; }
  }

  // ----- walking -----

  // Where a cursor starts.
  ghost predicate Starts(cursors: Cursors, cursor: Option<string>, start: int) {
    if cursor.None? || cursor.value == "" then start == 0 else cursors.decode(cursor.value) == Id(start)
  }

  lemma GivenCursorStarts(cursors: Cursors, id: nat)
    requires Inverse(cursors)
    ensures Starts(cursors, Some(cursors.encode(id)), id)
  {
  }

  // One page per view of the table, each asked for with the cursor of the page
  // before; the last page has no cursor.
  ghost predicate IsWalk(cursors: Cursors, limit: int, views: seq<Items>, cursor: Option<string>, pages: seq<Items>)
    decreases |views|
  {
    && |views| == |pages| && |views| >= 1
    && var page := Paginate(cursors, views[0], limit, cursor);
      && page.Page? && page.items == pages[0]
      && (if |views| == 1 then page.nextCursor.None?
          else page.nextCursor.Some? && IsWalk(cursors, limit, views[1..], page.nextCursor, pages[1..]))
  }

  function Flatten(pages: seq<Items>): Items {
    if pages == [] then [] else pages[0] + Flatten(pages[1..])
  }

  // Between pages only items with higher ids are added.
  ghost predicate Grow(views: seq<Items>) {
    && (forall v :: 0 <= v < |views| ==> Ascending(views[v]))
    && (forall v, w :: 0 <= v < w < |views| ==> views[v] <= views[w])
  }

  // What the first page of a walk says about the rest.
  lemma WalkStep(cursors: Cursors, limit: int, views: seq<Items>, cursor: Option<string>,
                 pages: seq<Items>, start: int, k: nat)
    requires Inverse(cursors) && limit >= 1 && Starts(cursors, cursor, start)
    requires IsWalk(cursors, limit, views, cursor, pages)
    requires Ascending(views[0]) && CutAt(views[0], start, k)
    ensures |views| == 1 ==> pages == [views[0][k..]]
    ensures |views| > 1 ==> k + limit < |views[0]| && pages[0] == views[0][k..k + limit]
    ensures |views| > 1 ==>
      IsWalk(cursors, limit, views[1..], Some(cursors.encode(views[0][k + limit - 1].id)), pages[1..])
  {
    PageIs(cursors, views[0], limit, start, k);
  }

  lemma CutStays(first: Items, end: Items, start: int, k: nat)
    requires first <= end && Ascending(end) && CutAt(first, start, k) && k < |first|
    ensures CutAt(end, start, k)
  {
    assert forall i :: 0 <= i < |first| ==> end[i] == first[i];
    assert end[k].id > start;
  }

  lemma CutAfter(items: Items, j: nat)
    requires Ascending(items) && j < |items|
    ensures CutAt(items, items[j].id, j + 1)
  {
  }

  lemma GrowRest(views: seq<Items>)
    requires Grow(views) && |views| > 1
    ensures Grow(views[1..]) && views[1..][|views| - 2] == views[|views| - 1]
    ensures views[0] <= views[|views| - 1] && Ascending(views[0]) && Ascending(views[|views| - 1])
  {
  }

  lemma Joins(first: Items, end: Items, limit: int, start: int, k: nat)
    requires first <= end && Ascending(end) && limit >= 1
    requires CutAt(first, start, k) && k + limit < |first|
    ensures first[k..k + limit] + After(end, first[k + limit - 1].id) == After(end, start)
  {
    CutStays(first, end, start, k);
    CutAfter(end, k + limit - 1);
    SliceJoins(first, end, k, k + limit);
    AfterCut(end, start, k);
    AfterCut(end, end[k + limit - 1].id, k + limit);
  }

  lemma SliceJoins(first: Items, end: Items, k: nat, m: nat)
    requires first <= end && k < m <= |first|
    ensures first[k..m] + end[m..] == end[k..] && end[m - 1] == first[m - 1]
  {
    assert end[..|first|] == first;
    assert first[k..m] == end[k..m];
  }

  // Following cursors to the end gives every item after the start once, in order,
  // of the table as the last request saw it - and so every item that was there
  // at the first request, whatever was appended in between.
  lemma {:induction false} WalkCovers(cursors: Cursors, limit: int, views: seq<Items>,
                                      cursor: Option<string>, pages: seq<Items>, start: int)
    requires Inverse(cursors) && limit >= 1 && Starts(cursors, cursor, start)
    requires Grow(views) && IsWalk(cursors, limit, views, cursor, pages)
    ensures Flatten(pages) == After(views[|views| - 1], start)
    decreases |views|
  {
    var k := CutExists(views[0], start);
    WalkStep(cursors, limit, views, cursor, pages, start, k);
    if |views| == 1 {
      AfterCut(views[0], start, k);
      assert Flatten(pages) == pages[0] + Flatten([]);
    } else {
      var last := views[0][k + limit - 1].id;
      GivenCursorStarts(cursors, last);
      GrowRest(views);
      WalkCovers(cursors, limit, views[1..], Some(cursors.encode(last)), pages[1..], last);
      Joins(views[0], views[|views| - 1], limit, start, k);
    }
  }

  function Repeat(items: Items, n: nat): seq<Items> { seq(n, i => items) }

  // Every page but the last is full.
  ghost predicate FullPages(pages: seq<Items>, limit: int) {
    |pages| >= 1 && |pages[|pages| - 1]| <= limit && forall p :: 0 <= p < |pages| - 1 ==> |pages[p]| == limit
  }

  lemma FullCons(page: Items, rest: seq<Items>, limit: int)
    requires FullPages(rest, limit) && |page| == limit
    ensures FullPages([page] + rest, limit)
  {
  }

  // A walk over a table that stays as it is.
  ghost predicate WalksAll(cursors: Cursors, items: Items, limit: int, cursor: Option<string>, pages: seq<Items>) {
    IsWalk(cursors, limit, Repeat(items, |pages|), cursor, pages) && FullPages(pages, limit)
  }

  lemma WalkOne(cursors: Cursors, items: Items, limit: int, cursor: Option<string>, page: Items)
    requires Paginate(cursors, items, limit, cursor) == Page(page, None) && |page| <= limit
    ensures WalksAll(cursors, items, limit, cursor, [page])
  {
  }

  lemma WalkCons(cursors: Cursors, items: Items, limit: int, cursor: Option<string>, next: string,
                 page: Items, rest: seq<Items>)
    requires WalksAll(cursors, items, limit, Some(next), rest)
    requires Paginate(cursors, items, limit, cursor) == Page(page, Some(next)) && |page| == limit
    ensures WalksAll(cursors, items, limit, cursor, [page] + rest)
  {
    FullCons(page, rest, limit);
    assert ([page] + rest)[1..] == rest;
    assert Repeat(items, |rest| + 1)[1..] == Repeat(items, |rest|);
  }

  lemma {:induction false} WalkEnds(cursors: Cursors, items: Items, limit: int,
                                    cursor: Option<string>, start: int, k: nat) returns (pages: seq<Items>)
    requires Inverse(cursors) && limit >= 1 && Ascending(items) && Starts(cursors, cursor, start)
    requires CutAt(items, start, k)
    ensures WalksAll(cursors, items, limit, cursor, pages)
    decreases |items| - k
  {
    PageGiven(cursors, items, limit, cursor, start, k);
    if k + limit < |items| {
      var last := items[k + limit - 1].id;
      GivenCursorStarts(cursors, last);
      CutAfter(items, k + limit - 1);
      var rest := WalkEnds(cursors, items, limit, Some(cursors.encode(last)), last, k + limit);
      pages := [items[k..k + limit]] + rest;
      WalkCons(cursors, items, limit, cursor, cursors.encode(last), items[k..k + limit], rest);
    } else {
      pages := [items[k..]];
      WalkOne(cursors, items, limit, cursor, items[k..]);
    }
  }

  lemma PageGiven(cursors: Cursors, items: Items, limit: int, cursor: Option<string>, start: int, k: nat)
    requires Ascending(items) && limit >= 1 && Starts(cursors, cursor, start) && CutAt(items, start, k)
    ensures Paginate(cursors, items, limit, cursor)
      == if k + limit < |items| then Page(items[k..k + limit], Some(cursors.encode(items[k + limit - 1].id)))
         else Page(items[k..], None)
  {
    PageIs(cursors, items, limit, start, k);
  }

  // From no cursor, on a table that stays as it is: the walk ends and its pages
  // are the whole list, each item once.
  lemma WholeWalk(cursors: Cursors, items: Items, limit: int) returns (pages: seq<Items>)
    requires Inverse(cursors) && limit >= 1 && Ascending(items)
    ensures WalksAll(cursors, items, limit, None, pages)
    ensures Flatten(pages) == items
  {
    CutFirst(items);
    pages := WalkEnds(cursors, items, limit, None, 0, 0);
    RepeatGrows(items, |pages|);
    GrowingWalk(cursors, limit, Repeat(items, |pages|), pages);
  }

  lemma CutFirst(items: Items)
    requires Ascending(items)
    ensures CutAt(items, 0, 0)
  {
  }

  lemma RepeatGrows(items: Items, n: nat)
    requires Ascending(items)
    ensures Grow(Repeat(items, n))
  {
  }

  // From no cursor, with items appended while the client walks: what it has read
  // at the end is the table at its last request.
  lemma GrowingWalk(cursors: Cursors, limit: int, views: seq<Items>, pages: seq<Items>)
    requires Inverse(cursors) && limit >= 1 && Grow(views) && IsWalk(cursors, limit, views, None, pages)
    ensures Flatten(pages) == views[|views| - 1]
    ensures views[0] <= Flatten(pages)
  {
    WalkCovers(cursors, limit, views, None, pages, 0);
    AfterCut(views[|views| - 1], 0, 0);
    if |views| > 1 { assert views[0] <= views[|views| - 1]; }
  }
}
