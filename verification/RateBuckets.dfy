/**
 * Fixed-window rate buckets in one table (`convex/storage.ts`, `convex/support.ts`), swept by
 * every call and by a cron (`convex/cleanup.ts`). Bucket keys are (name, slot) pairs.
 */
module RateBuckets {
  import opened Rows

  datatype Name = Auth(bucket: string) | Mcp(key: string) | RelayAll | RelayIp(client: string) | RelaySend(client: string)

  datatype Key = Key(name: Name, slot: int)

  datatype Bucket = Bucket(count: nat, expires: int)

  type Table = map<Key, Bucket>

  const MINUTE := 60_000
  const CALL_SWEEP := 50
  const CRON_SWEEP := 500
  const GLOBAL_PER_MINUTE := 3_000
  const IP_PER_MINUTE := 150
  const IP_SENDS_PER_MINUTE := 6

  /** The window each `mcp` key is always used with. */
  type Windows = f: string -> int | forall k :: f(k) >= 1 witness k => 1

  function WindowOf(name: Name, mcp: Windows): (r: int)
    ensures r >= 1
  {
    if name.Mcp? then mcp(name.key) else MINUTE
  }

  function KeyAt(name: Name, now: int, mcp: Windows): Key { Key(name, now / WindowOf(name, mcp)) }

  function EndOf(k: Key, mcp: Windows): int { (k.slot + 1) * WindowOf(k.name, mcp) }

  // ---------- one call ----------

  function CountOf(t: Table, k: Key): nat { if k in t then t[k].count else 0 }

  function Bump(t: Table, k: Key, expires: int): Table {
    t[k := if k in t then Bucket(t[k].count + 1, t[k].expires) else Bucket(1, expires)]
  }

  datatype Quota = Quota(name: Name, max: nat)

  function Quotas(client: string, send: bool): seq<Quota> {
    [Quota(RelayAll, GLOBAL_PER_MINUTE), Quota(RelayIp(client), IP_PER_MINUTE)]
    + if send then [Quota(RelaySend(client), IP_SENDS_PER_MINUTE)] else []
  }

  /** `stale` is what the bounded index read of expired rows returned. */
  datatype Call =
    | Rate(name: Name, now: int, maximum: nat, stale: seq<Key>)
    | Relay(client: string, send: bool, now: int)
    | Sweep(now: int, stale: seq<Key>)

  predicate Expired(t: Table, stale: seq<Key>, now: int, bound: nat) {
    |stale| <= bound && forall k :: k in stale ==> k in t && t[k].expires <= now
  }

  predicate Reads(t: Table, call: Call) {
    match call
    case Rate(_, now, _, stale) => Expired(t, stale, now, CALL_SWEEP)
    case Relay(_, _, _) => true
    case Sweep(now, stale) => Expired(t, stale, now, CRON_SWEEP)
  }

  function Without(t: Table, stale: seq<Key>): Table { t - Elements(stale) }

  predicate HasRoom(t: Table, quotas: seq<Quota>, now: int, mcp: Windows) {
    forall i :: 0 <= i < |quotas| ==> CountOf(t, KeyAt(quotas[i].name, now, mcp)) < quotas[i].max
  }

  function ChargeAll(t: Table, quotas: seq<Quota>, now: int, mcp: Windows): Table {
    if quotas == [] then t
    else
      var k := KeyAt(quotas[|quotas| - 1].name, now, mcp);
      Bump(ChargeAll(t, quotas[..|quotas| - 1], now, mcp), k, EndOf(k, mcp))
  }

  function Admits(t: Table, call: Call, mcp: Windows): bool {
    match call
    case Rate(name, now, maximum, stale) => CountOf(Without(t, stale), KeyAt(name, now, mcp)) + 1 <= maximum
    case Relay(client, send, now) => HasRoom(t, Quotas(client, send), now, mcp)
    case Sweep(_, _) => true
  }

  function After(t: Table, call: Call, mcp: Windows): Table {
    match call
    case Rate(name, now, _, stale) => Bump(Without(t, stale), KeyAt(name, now, mcp), now + WindowOf(name, mcp))
    case Relay(client, send, now) =>
      if HasRoom(t, Quotas(client, send), now, mcp) then ChargeAll(t, Quotas(client, send), now, mcp) else t
    case Sweep(_, stale) => Without(t, stale)
  }

  // ---------- plain counting, with no table and no expiry ----------

  predicate Names(quotas: seq<Quota>, name: Name) {
    exists i :: 0 <= i < |quotas| && quotas[i].name == name
  }

  predicate Charges(call: Call, k: Key, mcp: Windows) {
    match call
    case Rate(name, now, _, _) => k == KeyAt(name, now, mcp)
    case Relay(client, send, now) => Names(Quotas(client, send), k.name) && k == KeyAt(k.name, now, mcp)
    case Sweep(_, _) => false
  }

  /** How many of the calls so far count against `k`: every `rate` call, and every relay call that was let through. */
  function Uses(calls: seq<Call>, k: Key, mcp: Windows): nat
    decreases |calls|, 0
  {
    if calls == [] then 0
    else
      var init, last := calls[..|calls| - 1], calls[|calls| - 1];
      Uses(init, k, mcp) + if Charges(last, k, mcp) && (last.Rate? || Allowed(init, last, mcp)) then 1 else 0
  }

  predicate Allowed(calls: seq<Call>, call: Call, mcp: Windows)
    decreases |calls|, 1
  {
    match call
    case Rate(name, now, maximum, _) => Uses(calls, KeyAt(name, now, mcp), mcp) < maximum
    case Relay(client, send, now) =>
      forall i :: 0 <= i < |Quotas(client, send)| ==>
        Uses(calls, KeyAt(Quotas(client, send)[i].name, now, mcp), mcp) < Quotas(client, send)[i].max
    case Sweep(_, _) => true
  }

  // ---------- runs ----------

  function Run(calls: seq<Call>, mcp: Windows): Table {
    if calls == [] then map[] else After(Run(calls[..|calls| - 1], mcp), calls[|calls| - 1], mcp)
  }

  /** Clocks do not run backwards; swept rows are expired ones; only `rate` keys go through `rate`. */
  ghost predicate Runs(calls: seq<Call>, mcp: Windows) {
    calls == []
    || (var init, last := calls[..|calls| - 1], calls[|calls| - 1];
        Runs(init, mcp) && Reads(Run(init, mcp), last)
        && (last.Rate? ==> last.name.Auth? || last.name.Mcp?)
        && (init != [] ==> init[|init| - 1].now <= last.now))
  }

  ghost predicate Live(k: Key, clock: int, mcp: Windows) { clock < EndOf(k, mcp) }

  /** Whatever has been deleted, buckets whose window is not over hold the plain count. */
  ghost predicate Agrees(t: Table, calls: seq<Call>, clock: int, mcp: Windows) {
    && (forall k :: Live(k, clock, mcp) ==> CountOf(t, k) == Uses(calls, k, mcp))
    && (forall k :: k in t ==> EndOf(k, mcp) <= t[k].expires)
  }

  // ---------- slots ----------

  lemma KeyIsLive(name: Name, now: int, mcp: Windows)
    ensures Live(KeyAt(name, now, mcp), now, mcp)
    ensures EndOf(KeyAt(name, now, mcp), mcp) <= now + WindowOf(name, mcp)
  {
    var w := WindowOf(name, mcp);
    hide WindowOf;
    assert now == now / w * w + now % w;
    assert (now / w + 1) * w == now / w * w + w;
  }

  /** Deleting expired rows touches no live bucket. */
  lemma SweepAgrees(t: Table, calls: seq<Call>, clock: int, now: int, stale: seq<Key>, bound: nat, mcp: Windows)
    requires Agrees(t, calls, clock, mcp) && clock <= now && Expired(t, stale, now, bound)
    ensures Agrees(Without(t, stale), calls, now, mcp)
  {
    hide Uses, EndOf;
    forall k | Live(k, now, mcp) ensures CountOf(Without(t, stale), k) == Uses(calls, k, mcp) {
      assert Live(k, clock, mcp);
      assert k !in stale;
    }
  }

  lemma RateAgrees(calls: seq<Call>, call: Call, clock: int, mcp: Windows)
    requires Agrees(Run(calls, mcp), calls, clock, mcp) && call.Rate? && clock <= call.now
    requires Reads(Run(calls, mcp), call)
    ensures Admits(Run(calls, mcp), call, mcp) == Allowed(calls, call, mcp)
    ensures Agrees(After(Run(calls, mcp), call, mcp), calls + [call], call.now, mcp)
  {
    var swept, k := Without(Run(calls, mcp), call.stale), KeyAt(call.name, call.now, mcp);
    SweepAgrees(Run(calls, mcp), calls, clock, call.now, call.stale, CALL_SWEEP, mcp);
    KeyIsLive(call.name, call.now, mcp);
    assert (calls + [call])[..|calls|] == calls;
    hide EndOf, KeyAt, WindowOf, Without;
    forall j | Live(j, call.now, mcp)
      ensures CountOf(After(Run(calls, mcp), call, mcp), j) == Uses(calls + [call], j, mcp)
    {
      assert CountOf(swept, j) == Uses(calls, j, mcp);
    }
  }

  lemma {:induction false} ChargeAllCounts(t: Table, quotas: seq<Quota>, now: int, mcp: Windows, k: Key)
    requires forall i, j :: 0 <= i < j < |quotas| ==> quotas[i].name != quotas[j].name
    ensures CountOf(ChargeAll(t, quotas, now, mcp), k)
            == CountOf(t, k) + if Names(quotas, k.name) && k == KeyAt(k.name, now, mcp) then 1 else 0
    ensures k in ChargeAll(t, quotas, now, mcp) && k in t ==> ChargeAll(t, quotas, now, mcp)[k].expires == t[k].expires
    ensures k in ChargeAll(t, quotas, now, mcp) && k !in t ==>
              ChargeAll(t, quotas, now, mcp)[k].expires == EndOf(k, mcp)
    ensures k in t ==> k in ChargeAll(t, quotas, now, mcp)
  {
    hide EndOf, WindowOf;
    if quotas != [] {
      var n := |quotas| - 1;
      var init := quotas[..n];
      ChargeAllCounts(t, init, now, mcp, k);
      assert forall i :: 0 <= i < n ==> init[i] == quotas[i];
      assert Names(quotas, k.name) <==> Names(init, k.name) || quotas[n].name == k.name;
      assert quotas[n].name == k.name ==> !Names(init, k.name);
    }
  }

  lemma QuotaNamesDiffer(client: string, send: bool)
    ensures var q := Quotas(client, send); forall i, j :: 0 <= i < j < |q| ==> q[i].name != q[j].name
    ensures var q := Quotas(client, send); forall i :: 0 <= i < |q| ==> Names(q, q[i].name)
  {
  }

  lemma RelayAgrees(calls: seq<Call>, call: Call, clock: int, mcp: Windows)
    requires Agrees(Run(calls, mcp), calls, clock, mcp) && call.Relay? && clock <= call.now
    ensures Admits(Run(calls, mcp), call, mcp) == Allowed(calls, call, mcp)
    ensures Agrees(After(Run(calls, mcp), call, mcp), calls + [call], call.now, mcp)
  {
    var t, quotas := Run(calls, mcp), Quotas(call.client, call.send);
    QuotaNamesDiffer(call.client, call.send);
    assert (calls + [call])[..|calls|] == calls;
    hide EndOf, WindowOf, Quotas, ChargeAll, Run, Names;
    forall i | 0 <= i < |quotas|
      ensures CountOf(t, KeyAt(quotas[i].name, call.now, mcp)) == Uses(calls, KeyAt(quotas[i].name, call.now, mcp), mcp)
    {
      KeyIsLive(quotas[i].name, call.now, mcp);
    }
    assert HasRoom(t, quotas, call.now, mcp) == Allowed(calls, call, mcp);
    hide HasRoom, Allowed, KeyAt;
    forall k ensures Live(k, call.now, mcp) ==> CountOf(After(t, call, mcp), k) == Uses(calls + [call], k, mcp)
      ensures k in After(t, call, mcp) ==> EndOf(k, mcp) <= After(t, call, mcp)[k].expires
    {
      ChargeAllCounts(t, quotas, call.now, mcp, k);
    }
  }

  lemma {:induction false} RunAgrees(calls: seq<Call>, clock: int, mcp: Windows)
    requires Runs(calls, mcp) && (calls != [] ==> calls[|calls| - 1].now <= clock)
    ensures Agrees(Run(calls, mcp), calls, clock, mcp)
  {
    if calls != [] {
      var init, last := calls[..|calls| - 1], calls[|calls| - 1];
      assert calls == init + [last];
      RunAgrees(init, last.now, mcp);
      hide Live, EndOf, Allowed, Admits;
      match last {
        case Rate(_, _, _, _) => RateAgrees(init, last, last.now, mcp);
        case Relay(_, _, _) => RelayAgrees(init, last, last.now, mcp);
        case Sweep(_, stale) =>
          SweepAgrees(Run(init, mcp), init, last.now, last.now, stale, CRON_SWEEP, mcp);
          assert forall k :: Uses(calls, k, mcp) == Uses(init, k, mcp);
      }
      LaterAgrees(Run(calls, mcp), calls, last.now, clock, mcp);
    }
  }

  lemma LaterAgrees(t: Table, calls: seq<Call>, clock: int, now: int, mcp: Windows)
    requires Agrees(t, calls, clock, mcp) && clock <= now
    ensures Agrees(t, calls, now, mcp)
  {
    hide Uses, EndOf;
  }

  /** In every run, the swept table answers every call as plain counting would. */
  lemma AdmissionIsPlainCounting(calls: seq<Call>, call: Call, mcp: Windows)
    requires Runs(calls + [call], mcp)
    ensures Admits(Run(calls, mcp), call, mcp) == Allowed(calls, call, mcp)
  {
    assert (calls + [call])[..|calls|] == calls;
    hide Admits, Allowed;
    RunAgrees(calls, call.now, mcp);
    match call
    case Rate(_, _, _, _) => RateAgrees(calls, call, call.now, mcp);
    case Relay(_, _, _) => RelayAgrees(calls, call, call.now, mcp);
    case Sweep(_, _) => SweepAlways(calls, call, mcp);
  }

  lemma SweepAlways(calls: seq<Call>, call: Call, mcp: Windows)
    requires call.Sweep?
    ensures Admits(Run(calls, mcp), call, mcp) && Allowed(calls, call, mcp)
  {
  }

  // ---------- in plain numbers ----------

  /** A bucket is one minute of its name's calls, or one window of an `mcp` key's. */
  lemma BucketTimes(name: Name, a: int, b: int, mcp: Windows)
    ensures !name.Mcp? ==> (KeyAt(name, a, mcp) == KeyAt(name, b, mcp) <==> a / 60_000 == b / 60_000)
    ensures name.Mcp? ==> (KeyAt(name, a, mcp) == KeyAt(name, b, mcp) <==> a / mcp(name.key) == b / mcp(name.key))
    ensures KeyAt(name, a, mcp).name == name
  {
  }

  /** A relay call is let through exactly below 3,000 calls in all, 150 of the client's, and 6 sends if it sends. */
  lemma RelayAdmitsExactly(calls: seq<Call>, client: string, send: bool, now: int, mcp: Windows)
    requires Runs(calls + [Relay(client, send, now)], mcp)
    ensures Admits(Run(calls, mcp), Relay(client, send, now), mcp) <==>
            && Uses(calls, Key(RelayAll, now / 60_000), mcp) < 3_000
            && Uses(calls, Key(RelayIp(client), now / 60_000), mcp) < 150
            && (send ==> Uses(calls, Key(RelaySend(client), now / 60_000), mcp) < 6)
  {
    hide Admits, Run, Uses;
    AdmissionIsPlainCounting(calls, Relay(client, send, now), mcp);
    var q := Quotas(client, send);
    assert q[0] == Quota(RelayAll, 3_000) && q[1] == Quota(RelayIp(client), 150);
    if send { assert q[2] == Quota(RelaySend(client), 6); }
  }

  /** What counts against a bucket: calls for its name in its window, a send only when the call sends. */
  lemma ChargesExactly(call: Call, k: Key, mcp: Windows)
    ensures Charges(call, k, mcp) <==>
            match call
            case Rate(name, now, _, _) => k.name == name && k == KeyAt(name, now, mcp)
            case Relay(client, send, now) =>
              && k.slot == now / 60_000
              && (k.name == RelayAll || k.name == RelayIp(client) || (send && k.name == RelaySend(client)))
            case Sweep(_, _) => false
  {
    if call.Relay? {
      var q := Quotas(call.client, call.send);
      QuotaNamesDiffer(call.client, call.send);
      assert q[0].name == RelayAll && q[1].name == RelayIp(call.client)
          && (call.send ==> q[2].name == RelaySend(call.client));
    }
  }

  // ---------- how many get through ----------

  /** Calls on `k` that the table admitted. */
  function AdmittedOn(calls: seq<Call>, k: Key, mcp: Windows): nat {
    if calls == [] then 0
    else
      var init, last := calls[..|calls| - 1], calls[|calls| - 1];
      AdmittedOn(init, k, mcp) + if Charges(last, k, mcp) && Admits(Run(init, mcp), last, mcp) then 1 else 0
  }

  /** Of the `rate` calls in a window exactly the first `maximum` are admitted. */
  lemma {:induction false} FirstCallsGetThrough(calls: seq<Call>, k: Key, maximum: nat, mcp: Windows)
    requires Runs(calls, mcp) && (k.name.Auth? || k.name.Mcp?)
    requires forall i :: 0 <= i < |calls| && calls[i].Rate? && calls[i].name == k.name ==> calls[i].maximum == maximum
    ensures AdmittedOn(calls, k, mcp) == if Uses(calls, k, mcp) <= maximum then Uses(calls, k, mcp) else maximum
  {
    if calls != [] {
      var init, last := calls[..|calls| - 1], calls[|calls| - 1];
      assert calls == init + [last];
      FirstCallsGetThrough(init, k, maximum, mcp);
      AdmissionIsPlainCounting(init, last, mcp);
      hide Admits, Run, WindowOf;
    }
  }

  /** No relay bucket is ever charged beyond its quota. */
  lemma {:induction false} RelayWithinQuota(calls: seq<Call>, name: Name, slot: int, mcp: Windows)
    requires Runs(calls, mcp) && !name.Auth? && !name.Mcp?
    ensures Uses(calls, Key(name, slot), mcp)
            <= match name case RelayAll => 3_000 case RelayIp(_) => 150 case _ => 6
  {
    if calls != [] {
      var init, last := calls[..|calls| - 1], calls[|calls| - 1];
      RelayWithinQuota(init, name, slot, mcp);
      hide WindowOf;
      if last.Relay? && Charges(last, Key(name, slot), mcp) && Allowed(init, last, mcp) {
        var q := Quotas(last.client, last.send);
        var i :| 0 <= i < |q| && q[i].name == name;
        assert Uses(init, KeyAt(q[i].name, last.now, mcp), mcp) < q[i].max;
      }
    }
  }

  // ---------- the table as the operations rewrite it ----------

  class RateTable {
    var rows: Table

    constructor ()
      ensures rows == map[]
    {
      rows := map[];
    }

    method DeleteAll(stale: seq<Key>)
      modifies this
      ensures rows == Without(old(rows), stale)
    {
      var n := 0;
      while n < |stale|
        invariant 0 <= n <= |stale|
        invariant rows == Without(old(rows), stale[..n])
      {
        assert Elements(stale[..n + 1]) == Elements(stale[..n]) + {stale[n]} by {
          assert stale[..n + 1] == stale[..n] + [stale[n]];
        }
        rows := rows - {stale[n]};
        n := n + 1;
      }
      assert stale[..n] == stale;
    }

    method TryRate(name: Name, now: int, maximum: nat, stale: seq<Key>, mcp: Windows) returns (admitted: bool)
      modifies this
      ensures rows == After(old(rows), Rate(name, now, maximum, stale), mcp)
      ensures admitted == Admits(old(rows), Rate(name, now, maximum, stale), mcp)
    {
      DeleteAll(stale);
      var bucket := KeyAt(name, now, mcp);
      var count := CountOf(rows, bucket) + 1;
      if bucket in rows {
        rows := rows[bucket := Bucket(count, rows[bucket].expires)];
      } else {
        rows := rows[bucket := Bucket(count, now + WindowOf(name, mcp))];
      }
      admitted := count <= maximum;
    }

    method RelayAllowed(client: string, send: bool, now: int, mcp: Windows) returns (admitted: bool)
      modifies this
      ensures rows == After(old(rows), Relay(client, send, now), mcp)
      ensures admitted == Admits(old(rows), Relay(client, send, now), mcp)
    {
      var quotas := Quotas(client, send);
      hide Quotas;
      if exists i :: 0 <= i < |quotas| && CountOf(rows, KeyAt(quotas[i].name, now, mcp)) >= quotas[i].max { return false; }
      var n := 0;
      while n < |quotas|
        invariant 0 <= n <= |quotas|
        invariant rows == ChargeAll(old(rows), quotas[..n], now, mcp)
      {
        assert quotas[..n + 1][..n] == quotas[..n];
        var bucket := KeyAt(quotas[n].name, now, mcp);
        if bucket in rows {
          rows := rows[bucket := Bucket(rows[bucket].count + 1, rows[bucket].expires)];
        } else {
          rows := rows[bucket := Bucket(1, EndOf(bucket, mcp))];
        }
        n := n + 1;
      }
      assert quotas[..n] == quotas;
      admitted := true;
    }
  }
}
