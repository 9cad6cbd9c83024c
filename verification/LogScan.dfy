/** Events the splitter program itself emitted, recovered from flat logs (`convex/supportParse.ts`). */
module LogScan {
  import opened Common

  type Program = string

  datatype Asset = SOL | USDC
  datatype Side = A | B
  datatype Paid = Paid(asset: Asset, side: Side, amount: nat)

  /** A log line as the scanner's patterns sort it; `Data` holds the bytes, or none if not base64. */
  datatype Line =
    | Invoke(program: Program)
    | Exit(program: Program)
    | Data(bytes: Option<seq<Byte>>)
    | Other

  const PAID: seq<Byte> := [240, 193, 17, 238, 238, 210, 129, 235]
  const VAULT_INITIALIZED: seq<Byte> := [180, 43, 207, 2, 18, 71, 3, 75]

  // ---------- event payloads ----------

  /** Little-endian value of eight bytes. */
  function U64(bytes: seq<Byte>): nat {
    if bytes == [] then 0 else bytes[0] + 256 * U64(bytes[1..])
  }

  method ReadU64(bytes: seq<Byte>, offset: nat) returns (value: nat)
    requires offset + 8 <= |bytes|
    ensures value == U64(bytes[offset..offset + 8])
  {
    value := 0;
    var i := 7;
    assert bytes[offset + 8..offset + 8] == [];
    while i >= 0
      invariant -1 <= i <= 7
      invariant value == U64(bytes[offset + i + 1..offset + 8])
    {
      assert bytes[offset + i..offset + 8][1..] == bytes[offset + i + 1..offset + 8];
      value := value * 256 + bytes[offset + i];
      i := i - 1;
    }
  }

  predicate StartsWith(bytes: seq<Byte>, prefix: seq<Byte>) {
    prefix <= bytes
  }

  /** An accepted payout event: tag, asset, side, amount, 32-byte recipient, anything after. */
  predicate IsPaid(bytes: seq<Byte>) {
    StartsWith(bytes, PAID) && |bytes| >= 50 && bytes[8] <= 1 && bytes[9] <= 1
  }

  function PaidOf(bytes: seq<Byte>): Paid
    requires IsPaid(bytes)
  {
    Paid(if bytes[8] == 0 then SOL else USDC, if bytes[9] == 0 then A else B, U64(bytes[10..18]))
  }

  function U64Bytes(n: nat, width: nat): (bytes: seq<Byte>)
    ensures |bytes| == width
  {
    if width == 0 then [] else [n % 256] + U64Bytes(n / 256, width - 1)
  }

  function Pow256(width: nat): nat { if width == 0 then 1 else 256 * Pow256(width - 1) }

  lemma {:induction false} U64OfBytes(n: nat, width: nat)
    requires n < Pow256(width)
    ensures U64(U64Bytes(n, width)) == n
  {
    if width > 0 {
      U64OfBytes(n / 256, width - 1);
      assert U64Bytes(n, width)[1..] == U64Bytes(n / 256, width - 1);
    }
  }

  /** What the program writes for a payout. */
  function PaidBytes(p: Paid, recipient: seq<Byte>): seq<Byte> {
    [240, 193, 17, 238, 238, 210, 129, 235]
    + [if p.asset == SOL then 0 else 1, if p.side == A then 0 else 1] + U64Bytes(p.amount, 8) + recipient
  }

  lemma PaidRoundTrip(p: Paid, recipient: seq<Byte>)
    requires p.amount < Pow256(8) && |recipient| >= 32
    ensures IsPaid(PaidBytes(p, recipient)) && PaidOf(PaidBytes(p, recipient)) == p
  {
    var bytes := PaidBytes(p, recipient);
    assert bytes[..8] == PAID;
    assert bytes[10..18] == U64Bytes(p.amount, 8);
    U64OfBytes(p.amount, 8);
  }

  // ---------- the call tree behind a log ----------

  datatype Frame = Frame(program: Program, items: seq<Item>)
  datatype Item = Call(frame: Frame) | Emit(bytes: Option<seq<Byte>>) | Note

  function FrameLog(f: Frame): seq<Line> {
    [Invoke(f.program)] + ItemsLog(f.items) + [Exit(f.program)]
  }

  function ItemLog(item: Item): seq<Line> {
    match item
    case Call(f) => FrameLog(f)
    case Emit(bytes) => [Data(bytes)]
    case Note => [Other]
  }

  function ItemsLog(items: seq<Item>): seq<Line> {
    if items == [] then [] else ItemLog(items[0]) + ItemsLog(items[1..])
  }

  /** Everything the splitter's own frames emit, in order. Outside any frame the program is none. */
  function OwnData(items: seq<Item>, program: Option<Program>, splitter: Program): seq<seq<Byte>>
    decreases items
  {
    if items == [] then [] else OwnDataOf(items[0], program, splitter) + OwnData(items[1..], program, splitter)
  }

  function OwnDataOf(item: Item, program: Option<Program>, splitter: Program): seq<seq<Byte>>
    decreases item
  {
    match item
    case Call(f) => OwnData(f.items, Some(f.program), splitter)
    case Emit(bytes) => if program == Some(splitter) && bytes.Some? then [bytes.value] else []
    case Note => []
  }

  function PaidEvents(data: seq<seq<Byte>>): seq<Paid> {
    if data == [] then []
    else (if IsPaid(data[0]) then [PaidOf(data[0])] else []) + PaidEvents(data[1..])
  }

  predicate AnyInitialized(data: seq<seq<Byte>>) {
    exists d :: d in data && StartsWith(d, [180, 43, 207, 2, 18, 71, 3, 75])
  }

  // ---------- the scanner ----------

  datatype Scan = Scan(stack: seq<Program>, paid: seq<Paid>, initialized: bool)

  function Step(s: Scan, line: Line, splitter: Program): Scan {
    match line
    case Invoke(p) => s.(stack := s.stack + [p])
    case Exit(_) => s.(stack := if s.stack == [] then [] else s.stack[..|s.stack| - 1])
    case Data(bytes) =>
      if s.stack == [] || s.stack[|s.stack| - 1] != splitter || bytes.None? then s
      else if IsPaid(bytes.value) then s.(paid := s.paid + [PaidOf(bytes.value)])
      else if StartsWith(bytes.value, VAULT_INITIALIZED) then s.(initialized := true)
      else s
    case Other => s
  }

  function ScanFrom(s: Scan, logs: seq<Line>, splitter: Program): Scan
    decreases logs
  {
    if logs == [] then s else ScanFrom(Step(s, logs[0], splitter), logs[1..], splitter)
  }

  const START := Scan([], [], false)

  method SplitterEvents(logs: seq<Line>, programId: Program) returns (paid: seq<Paid>, initialized: bool)
    ensures var end := ScanFrom(START, logs, programId); paid == end.paid && initialized == end.initialized
  {
    var stack: seq<Program> := [];
    paid, initialized := [], false;
    for k := 0 to |logs|
      invariant ScanFrom(START, logs, programId) == ScanFrom(Scan(stack, paid, initialized), logs[k..], programId)
    {
      var line := logs[k];
      assert logs[k..][1..] == logs[k + 1..];
      match line
      case Invoke(p) => stack := stack + [p];
      case Exit(_) => if stack != [] { stack := stack[..|stack| - 1]; }
      case Data(bytes) =>
        if stack != [] && stack[|stack| - 1] == programId && bytes.Some? {
          var b := bytes.value;
          if StartsWith(b, PAID) && |b| >= 50 && b[8] <= 1 && b[9] <= 1 {
            var amount := ReadU64(b, 10);
            paid := paid + [Paid(if b[8] == 0 then SOL else USDC, if b[9] == 0 then A else B, amount)];
          } else if StartsWith(b, VAULT_INITIALIZED) {
            initialized := true;
          }
        }
      case Other =>
    }
  }

  // ---------- the scanner recovers the call tree ----------

  lemma {:induction false} ScanConcat(s: Scan, a: seq<Line>, b: seq<Line>, splitter: Program)
    ensures ScanFrom(s, a + b, splitter) == ScanFrom(ScanFrom(s, a, splitter), b, splitter)
    decreases a
  {
    if a == [] {
      assert a + b == b;
    } else {
      assert (a + b)[1..] == a[1..] + b;
      ScanConcat(Step(s, a[0], splitter), a[1..], b, splitter);
    }
  }

  /** A scan state extended by the data a piece of tree contributes. */
  function Extended(s: Scan, data: seq<seq<Byte>>): Scan {
    Scan(s.stack, s.paid + PaidEvents(data), s.initialized || AnyInitialized(data))
  }

  function Top(stack: seq<Program>): Option<Program> {
    if stack == [] then None else Some(stack[|stack| - 1])
  }

  lemma {:induction false} PaidEventsConcat(a: seq<seq<Byte>>, b: seq<seq<Byte>>)
    ensures PaidEvents(a + b) == PaidEvents(a) + PaidEvents(b)
  {
    hide IsPaid, PaidOf;
    if a == [] {
      assert a + b == b;
    } else {
      assert (a + b)[1..] == a[1..] + b && (a + b)[0] == a[0];
      PaidEventsConcat(a[1..], b);
      var first := if IsPaid(a[0]) then [PaidOf(a[0])] else [];
      assert first + PaidEvents(a[1..]) + PaidEvents(b) == first + (PaidEvents(a[1..]) + PaidEvents(b));
    }
  }

  lemma ExtendedConcat(s: Scan, a: seq<seq<Byte>>, b: seq<seq<Byte>>)
    ensures Extended(Extended(s, a), b) == Extended(s, a + b)
  {
    PaidEventsConcat(a, b);
    hide IsPaid, PaidEvents, StartsWith;
    assert AnyInitialized(a + b) == (AnyInitialized(a) || AnyInitialized(b));
    assert s.paid + PaidEvents(a) + PaidEvents(b) == s.paid + (PaidEvents(a) + PaidEvents(b));
  }

  lemma ExtendedByNothing(s: Scan)
    ensures Extended(s, []) == s
  {
  }

  lemma StepIsEmit(s: Scan, bytes: Option<seq<Byte>>, splitter: Program)
    ensures Step(s, Data(bytes), splitter) == Extended(s, OwnDataOf(Emit(bytes), Top(s.stack), splitter))
  {
    var data := OwnDataOf(Emit(bytes), Top(s.stack), splitter);
    if data == [] {
      ExtendedByNothing(s);
    } else {
      assert data == [bytes.value] && data[1..] == [];
      assert PaidEvents(data) == if IsPaid(bytes.value) then [PaidOf(bytes.value)] else [];
      assert AnyInitialized(data) == StartsWith(bytes.value, VAULT_INITIALIZED);
      TagsDiffer(bytes.value);
    }
  }

  lemma TagsDiffer(bytes: seq<Byte>)
    ensures !(IsPaid(bytes) && StartsWith(bytes, VAULT_INITIALIZED))
  {
    if IsPaid(bytes) {
      assert bytes[0] == PAID[0] != VAULT_INITIALIZED[0];
    }
  }

  /** Scanning the log of a piece of call tree adds exactly its own data and restores the stack. */
  lemma {:induction false} ScanItems(s: Scan, items: seq<Item>, splitter: Program)
    ensures ScanFrom(s, ItemsLog(items), splitter) == Extended(s, OwnData(items, Top(s.stack), splitter))
    decreases items
  {
    hide Step, Extended, OwnDataOf, ItemLog;
    if items == [] {
      ExtendedByNothing(s);
    } else {
      ScanItem(s, items[0], splitter);
      var mid := ScanFrom(s, ItemLog(items[0]), splitter);
      ScanConcat(s, ItemLog(items[0]), ItemsLog(items[1..]), splitter);
      ScanItems(mid, items[1..], splitter);
      ExtendedConcat(s, OwnDataOf(items[0], Top(s.stack), splitter), OwnData(items[1..], Top(s.stack), splitter));
    }
  }

  lemma {:induction false} ScanItem(s: Scan, item: Item, splitter: Program)
    ensures ScanFrom(s, ItemLog(item), splitter) == Extended(s, OwnDataOf(item, Top(s.stack), splitter))
    ensures ScanFrom(s, ItemLog(item), splitter).stack == s.stack
    decreases item
  {
    match item
    case Emit(bytes) => StepIsEmit(s, bytes, splitter);
    case Note => ExtendedByNothing(s);
    case Call(f) =>
      var inside := s.(stack := s.stack + [f.program]);
      var data := OwnData(f.items, Some(f.program), splitter);
      ScanItems(inside, f.items, splitter);
      ScanBracketed(s, f.program, ItemsLog(f.items), splitter);
      assert inside.stack[..|inside.stack| - 1] == s.stack;
  }

  lemma ScanBracketed(s: Scan, program: Program, body: seq<Line>, splitter: Program)
    ensures var inside := s.(stack := s.stack + [program]);
      ScanFrom(s, [Invoke(program)] + body + [Exit(program)], splitter)
      == Step(ScanFrom(inside, body, splitter), Exit(program), splitter)
  {
    var inside := s.(stack := s.stack + [program]);
    ScanConcat(s, [Invoke(program)], body, splitter);
    ScanConcat(s, [Invoke(program)] + body, [Exit(program)], splitter);
    ScanOne(s, Invoke(program), splitter);
    ScanOne(ScanFrom(inside, body, splitter), Exit(program), splitter);
  }

  lemma ScanOne(s: Scan, line: Line, splitter: Program)
    ensures ScanFrom(s, [line], splitter) == Step(s, line, splitter)
  {
    assert [line][1..] == [];
  }

  /**
   * For every call forest, scanning its flattened log returns exactly the payouts
   * emitted by frames whose own program is the splitter, in order, and says the
   * vault was initialized exactly when one of those frames said so.
   */
  lemma ScanRecoversCallTree(items: seq<Item>, splitter: Program)
    ensures var end := ScanFrom(START, ItemsLog(items), splitter);
            var own := OwnData(items, None, splitter);
      end.stack == [] && end.paid == PaidEvents(own) && end.initialized == AnyInitialized(own)
  {
    ScanItems(START, items, splitter);
  }

  /** A log cut short loses only the payouts after the cut. */
  lemma {:induction false} ScanOnlyAppends(s: Scan, logs: seq<Line>, splitter: Program)
    ensures s.paid <= ScanFrom(s, logs, splitter).paid
    ensures s.initialized ==> ScanFrom(s, logs, splitter).initialized
    decreases logs
  {
    if logs != [] {
      ScanOnlyAppends(Step(s, logs[0], splitter), logs[1..], splitter);
    }
  }

  lemma TruncatedLogIsPrefix(items: seq<Item>, n: nat, splitter: Program)
    requires n <= |ItemsLog(items)|
    ensures ScanFrom(START, ItemsLog(items)[..n], splitter).paid <= PaidEvents(OwnData(items, None, splitter))
  {
    var logs := ItemsLog(items);
    ScanRecoversCallTree(items, splitter);
    ScanConcat(START, logs[..n], logs[n..], splitter);
    assert logs[..n] + logs[n..] == logs;
    ScanOnlyAppends(ScanFrom(START, logs[..n], splitter), logs[n..], splitter);
  }
}
