/** The tables a checkout touches (db/schema.sql:6-126). */
module Tables {
  import opened Prelude
  import opened Numbers
  import Contract

  datatype Product = Product(price: nat, stock: nat)
  datatype Item = Item(product: nat, quantity: nat, unitPrice: nat)
  datatype Status = New | Paid | Shipped | Cancelled
  datatype Order = Order(buyer: nat, status: Status, total: nat, items: seq<Item>, createdAt: Stamp)
  datatype JobKind = Receipt | Other(name: string)
  datatype Job = Job(kind: JobKind, orderId: nat, processed: nat, attempts: nat)
  // `payload` is stored as jsonb; what a reader gets back is some reordering of
  // Contract.Render(payload).
  datatype OutboxRow = OutboxRow(
    aggregate: nat,
    payload: Contract.Event,
    createdAt: nat,
    publishedAt: Option<nat>,
    attempts: nat)
  datatype KeyRow = KeyRow(fingerprint: string, orderId: Option<nat>)

  // An ISO timestamp; never empty.
  type Stamp = s: string | |s| >= 1 witness "0"

  datatype Db = Db(
    products: map<nat, Product>,
    users: map<nat, nat>,
    orders: map<nat, Order>,
    jobs: map<nat, Job>,
    outbox: map<nat, OutboxRow>,
    keys: map<string, KeyRow>)

  // What the column types, CHECKs and identity columns keep out of the tables.
  ghost predicate WellFormed(db: Db) {
    && (forall p :: p in db.products ==> db.products[p].price <= INT4_MAX && db.products[p].stock <= INT4_MAX)
    && (forall u :: u in db.users ==> u >= 1 && db.users[u] <= INT4_MAX)
    && (forall o :: o in db.orders ==> o >= 1)
  }

  // Values of the identity sequences. A value once drawn is never drawn again.
  datatype Ids = Ids(order: nat, job: nat, outbox: nat)

  datatype Line = Line(product: nat, quantity: int)

  // The arguments of one checkout. `key` is the idempotency key as the
  // transaction uses it: KeyOf(header), trimmed and absent when blank.
  datatype Input = Input(
    buyer: nat,
    items: seq<Line>,
    key: Option<string>,
    fingerprint: string,
    crashAfterOutbox: bool,
    now: nat,
    stamp: Stamp)

  // ----- String.prototype.trim -----

  predicate IsSpace(c: char) {
    || c in "\t\n\r \U{000B}\U{000C}\U{00A0}\U{FEFF}\U{1680}\U{2028}\U{2029}\U{202F}\U{205F}\U{3000}"
    || '\U{2000}' <= c <= '\U{200A}'
  }

  function TrimBy(space: char -> bool, s: string): string {
    if s == "" then s
    else if space(s[0]) then TrimBy(space, s[1..])
    else if space(s[|s| - 1]) then TrimBy(space, s[..|s| - 1])
    else s
  }

  function Trim(s: string): string { TrimBy(IsSpace, s) }

  // The key under which a request is remembered in the database, if any.
  function KeyOf(raw: Option<string>): Option<string> {
    if raw.None? || Trim(raw.value) == "" then None else Some(Trim(raw.value))
  }

  // Where a trimmed string lies in its original.
  ghost predicate Trimmed(space: char -> bool, s: string, i: nat, j: nat) {
    && i <= j <= |s|
    && (forall k :: 0 <= k < i || j <= k < |s| ==> space(s[k]))
    && (i < j ==> !space(s[i]) && !space(s[j - 1]))
  }

  lemma {:induction false} TrimByMeans(space: char -> bool, s: string) returns (i: nat, j: nat)
    ensures Trimmed(space, s, i, j) && TrimBy(space, s) == s[i..j]
    decreases |s|
  {
    if s == "" {
      i, j := 0, 0;
    } else if space(s[0]) {
      i, j := TrimByMeans(space, s[1..]);
      TrimmedLeft(space, s, i, j);
      i, j := i + 1, j + 1;
    } else if space(s[|s| - 1]) {
      i, j := TrimByMeans(space, s[..|s| - 1]);
    } else {
      i, j := 0, |s|;
    }
  }

  lemma TrimmedLeft(space: char -> bool, s: string, i: nat, j: nat)
    requires s != "" && space(s[0]) && Trimmed(space, s[1..], i, j)
    ensures Trimmed(space, s, i + 1, j + 1) && s[1..][i..j] == s[i + 1..j + 1]
  {
    forall k | 0 <= k < i + 1 || j + 1 <= k < |s|
      ensures space(s[k])
    {
      if k > 0 { assert s[1..][k - 1] == s[k]; }
    }
  }

  // Trimming takes white space off both ends, all of it, and nothing else.
  lemma TrimMeans(s: string) returns (i: nat, j: nat)
    ensures Trimmed(IsSpace, s, i, j) && Trim(s) == s[i..j]
  {
    i, j := TrimByMeans(IsSpace, s);
  }

  // The caller trims before checkout trims again (src/orders/orders.service.ts:64-71).
  lemma TrimIdempotent(s: string)
    ensures Trim(Trim(s)) == Trim(s)
  {
    TrimByIdempotent(IsSpace, s);
  }

  lemma {:induction false} TrimByIdempotent(space: char -> bool, s: string)
    ensures TrimBy(space, TrimBy(space, s)) == TrimBy(space, s)
    decreases |s|
  {
    if s == "" {
    } else if space(s[0]) {
      TrimByIdempotent(space, s[1..]);
    } else if space(s[|s| - 1]) {
      TrimByIdempotent(space, s[..|s| - 1]);
    }
  }
}
