/** Stored payment records: runtime write rules of `convex/records.ts`. */
module Records {
  import opened Common
  import Timestamp

  datatype Status = Prepared | Submitted | Confirmed | Failed

  /** `body` carries the fields the write rules do not look at. */
  datatype Record<I, K, B> = Record(
    id: I, idempotency: K, receipt: Option<string>, status: Status, created: nat, updated: nat, body: B)

  predicate Terminal(status: Status) { status == Confirmed || status == Failed }

  // ---------- update times as sortable text ----------

  const U64_LIMIT := 18_446_744_073_709_551_616

  /** A u64 as the zero-padded text the store's indexes compare. */
  function Sorted(n: nat): string {
    Timestamp.Digits(n, 20)
  }

  predicate TextLess(a: string, b: string) {
    if a == "" || b == "" then a == "" && b != ""
    else a[0] < b[0] || (a[0] == b[0] && TextLess(a[1..], b[1..]))
  }

  lemma {:induction false} TextLessAppend(a: string, b: string, x: char, y: char)
    requires |a| == |b|
    ensures TextLess(a + [x], b + [y]) <==> TextLess(a, b) || (a == b && x < y)
  {
    if a == "" {
      assert a + [x] == [x] && b + [y] == [y];
    } else {
      TextLessAppend(a[1..], b[1..], x, y);
      assert (a + [x])[1..] == a[1..] + [x] && (b + [y])[1..] == b[1..] + [y];
      assert a == [a[0]] + a[1..] && b == [b[0]] + b[1..];
    }
  }

  lemma {:induction false} DigitsOrder(m: nat, n: nat, width: nat)
    requires m < Timestamp.Pow10(width) && n < Timestamp.Pow10(width)
    ensures TextLess(Timestamp.Digits(m, width), Timestamp.Digits(n, width)) <==> m < n
    ensures Timestamp.Digits(m, width) == Timestamp.Digits(n, width) <==> m == n
  {
    if width > 0 {
      DigitsOrder(m / 10, n / 10, width - 1);
      TextLessAppend(Timestamp.Digits(m / 10, width - 1), Timestamp.Digits(n / 10, width - 1),
                     ('0' as int + m % 10) as char, ('0' as int + n % 10) as char);
      Timestamp.NumberOfDigits(m, width);
      Timestamp.NumberOfDigits(n, width);
    }
  }

  /** Comparing padded texts is comparing the numbers, for every u64. */
  lemma SortedOrder(m: nat, n: nat)
    requires m < U64_LIMIT && n < U64_LIMIT
    ensures TextLess(Sorted(m), Sorted(n)) <==> m < n
  {
    assert Timestamp.Pow10(20) == 100_000_000_000_000_000_000 by {
      assert Timestamp.Pow10(10) == 10_000_000_000;
      PowAdds(10, 10);
    }
    DigitsOrder(m, n, 20);
  }

  lemma {:induction false} PowAdds(a: nat, b: nat)
    ensures Timestamp.Pow10(a + b) == Timestamp.Pow10(a) * Timestamp.Pow10(b)
  {
    if b > 0 { PowAdds(a, b - 1); assert a + b - 1 == a + (b - 1); }
  }

  // ---------- writing ----------

  datatype Write<I, K, B> = Written(rows: map<I, Record<I, K, B>>) | Ignored | Conflict

  ghost predicate UniqueKeys<I(!new), K(!new), B(!new)>(rows: map<I, Record<I, K, B>>) {
    && (forall i :: i in rows ==> rows[i].id == i && rows[i].updated < U64_LIMIT)
    && (forall i, j :: i in rows && j in rows && rows[i].idempotency == rows[j].idempotency ==> i == j)
  }

  /** The outcome of a runtime write: a stale or post-terminal write is ignored, a reused key refused. */
  function WriteRecord<I(==), K(==), B>(rows: map<I, Record<I, K, B>>, incoming: Record<I, K, B>): Write<I, K, B> {
    if incoming.id in rows && (Terminal(rows[incoming.id].status)
                               || TextLess(Sorted(incoming.updated), Sorted(rows[incoming.id].updated))) then Ignored
    else if exists i :: i in rows && i != incoming.id && rows[i].idempotency == incoming.idempotency then Conflict
    else
      var stored := if incoming.id in rows then incoming.(created := rows[incoming.id].created) else incoming;
      Written(rows[incoming.id := stored])
  }

  function After<I(==), K(==), B>(rows: map<I, Record<I, K, B>>, incoming: Record<I, K, B>): map<I, Record<I, K, B>> {
    match WriteRecord(rows, incoming)
    case Written(rows') => rows'
    case _ => rows
  }

  /** A write by cases, with update times compared as numbers. */
  lemma WriteExactly<I(!new), K(!new), B(!new)>(rows: map<I, Record<I, K, B>>, incoming: Record<I, K, B>)
    requires UniqueKeys(rows) && incoming.updated < U64_LIMIT
    ensures var id := incoming.id;
            var ignored := id in rows && (rows[id].status == Confirmed || rows[id].status == Failed
                                          || incoming.updated < rows[id].updated);
            var taken := exists i :: i in rows && i != id && rows[i].idempotency == incoming.idempotency;
      && (ignored ==> WriteRecord(rows, incoming) == Ignored)
      && (!ignored && taken ==> WriteRecord(rows, incoming) == Conflict)
      && (!ignored && !taken ==>
            WriteRecord(rows, incoming)
            == Written(rows[id := incoming.(created := if id in rows then rows[id].created else incoming.created)]))
      && After(rows, incoming) == if WriteRecord(rows, incoming).Written? then WriteRecord(rows, incoming).rows else rows
  {
    if incoming.id in rows { SortedOrder(incoming.updated, rows[incoming.id].updated); }
    hide Sorted, TextLess;
    assert incoming.(created := incoming.created) == incoming;
  }

  /** How a stored record may differ from an earlier state of itself. */
  ghost predicate Evolves<I, K, B>(before: Record<I, K, B>, after: Record<I, K, B>) {
    && after.created == before.created
    && before.updated <= after.updated
    && (Terminal(before.status) ==> after == before)
  }

  /** Every write keeps keys unique, creation times fixed, update times ordered and terminal records frozen. */
  lemma WriteEvolves<I(!new), K(!new), B(!new)>(rows: map<I, Record<I, K, B>>, incoming: Record<I, K, B>)
    requires UniqueKeys(rows) && incoming.updated < U64_LIMIT
    ensures UniqueKeys(After(rows, incoming))
    ensures forall i :: i in rows ==> i in After(rows, incoming) && Evolves(rows[i], After(rows, incoming)[i])
    ensures forall i :: i in rows && i != incoming.id ==> After(rows, incoming)[i] == rows[i]
    ensures forall i :: i in After(rows, incoming) && i !in rows ==> i == incoming.id
  {
    if incoming.id in rows { SortedOrder(incoming.updated, rows[incoming.id].updated); }
    hide Sorted, TextLess;
  }

  datatype Outcome = Stored | Unchanged | Refused

  /** The payments table as the store mutates it. */
  class RecordTable<I(==), K(==), B> {
    var rows: map<I, Record<I, K, B>>

    method Put(incoming: Record<I, K, B>) returns (outcome: Outcome)
      modifies this
      ensures rows == After(old(rows), incoming)
      ensures outcome == match WriteRecord(old(rows), incoming)
                         case Written(_) => Stored
                         case Ignored => Unchanged
                         case Conflict => Refused
    {
      var record := incoming;
      if incoming.id in rows {
        var prior := rows[incoming.id];
        if Terminal(prior.status) || TextLess(Sorted(incoming.updated), Sorted(prior.updated)) { return Unchanged; }
        record := record.(created := prior.created);
      }
      if exists i :: i in rows && i != incoming.id && rows[i].idempotency == incoming.idempotency { return Refused; }
      rows := rows[incoming.id := record];
      outcome := Stored;
    }
  }
}
