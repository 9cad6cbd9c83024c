/** The support relay's check of a signed wire transaction (`convex/supportRpc.ts`). */
module Wire {
  import opened Common
  import opened Base58

  const SYSTEM := "11111111111111111111111111111111"
  const TOKEN := "TokenkegQfeZyiNwAJbNbGKPFXCWuBvf9Ss623VQ5DA"
  const ATA := "ATokenGPvbdGVxr1b2hvZbsiqW5xWH25efTNsLJA8knL"
  const COMPUTE_BUDGET := "ComputeBudget111111111111111111111111111111"
  const MEMO := "MemoSq4gqABAXKb96qnH8TysNcWxMyWCqXgDLGmfcHr"
  const JUPITER := "JUP6LkbZbjS1jKKwapdHNy74zcZ3tLUZoi5QNyVTaV4"
  const LIGHTHOUSE := "L2TExMFKdjpN9kozasaurPtAaCGqXGTDUDiKN3EuHHB"

  // First eight bytes of the instruction data: allocate_sol, allocate_usdc, pay_sol, pay_usdc.
  const SUPPORT_IXS: seq<seq<Byte>> := [
    [0x0e, 0x10, 0xb8, 0x86, 0xda, 0x01, 0x25, 0x23], [0xf7, 0x2f, 0xe3, 0xdf, 0xcd, 0x8f, 0x9b, 0x38],
    [0x83, 0x65, 0x9a, 0x32, 0x25, 0x88, 0x0d, 0x43], [0x18, 0x01, 0x3a, 0x5f, 0x08, 0x52, 0x83, 0xdd]]
  // route, shared_accounts_route.
  const JUPITER_IXS: seq<seq<Byte>> := [
    [0xe5, 0x17, 0xcb, 0x97, 0x7a, 0xe3, 0xad, 0x2a], [0xc1, 0x20, 0x9b, 0x33, 0x41, 0xd6, 0x9c, 0x81]]

  datatype Verdict = Accept | Reject(reason: string)

  // ---------- transactions and their wire layout ----------

  /** A length prefix as written: one to three 7-bit groups, least significant first. */
  ghost predicate IsCompact(enc: seq<Byte>) {
    && 1 <= |enc| <= 3
    && enc[|enc| - 1] < 128
    && forall i :: 0 <= i < |enc| - 1 ==> enc[i] >= 128
  }

  function CompactValue(enc: seq<Byte>): nat {
    if enc == [] then 0 else enc[0] % 128 + 128 * CompactValue(enc[1..])
  }

  datatype Instruction = Instruction(
    program: Byte, accountsLength: seq<Byte>, accounts: seq<Byte>, dataLength: seq<Byte>, data: seq<Byte>)

  datatype Transaction = Transaction(
    signaturesLength: seq<Byte>, signatures: seq<Byte>, versioned: bool, header: seq<Byte>,
    keysLength: seq<Byte>, keys: seq<seq<Byte>>, blockhash: seq<Byte>,
    instructionsLength: seq<Byte>, instructions: seq<Instruction>)

  ghost predicate Counts(enc: seq<Byte>, n: nat) {
    IsCompact(enc) && CompactValue(enc) == n
  }

  ghost predicate WellFormedInstruction(ix: Instruction) {
    Counts(ix.accountsLength, |ix.accounts|) && Counts(ix.dataLength, |ix.data|)
  }

  ghost predicate WellFormed(tx: Transaction) {
    && IsCompact(tx.signaturesLength) && |tx.signatures| == 64 * CompactValue(tx.signaturesLength)
    && |tx.header| == 3 && (tx.versioned || tx.header[0] < 128)
    && Counts(tx.keysLength, |tx.keys|) && (forall k :: 0 <= k < |tx.keys| ==> |tx.keys[k]| == 32)
    && |tx.blockhash| == 32
    && Counts(tx.instructionsLength, |tx.instructions|)
    && (forall k :: 0 <= k < |tx.instructions| ==> WellFormedInstruction(tx.instructions[k]))
  }

  function InstructionBytes(ix: Instruction): seq<Byte> {
    [ix.program] + (ix.accountsLength + (ix.accounts + (ix.dataLength + ix.data)))
  }

  function InstructionsBytes(ixs: seq<Instruction>): seq<Byte> {
    if ixs == [] then [] else InstructionBytes(ixs[0]) + InstructionsBytes(ixs[1..])
  }

  function KeysBytes(keys: seq<seq<Byte>>): seq<Byte> {
    if keys == [] then [] else keys[0] + KeysBytes(keys[1..])
  }

  /** Legacy layout, or v0 behind its `0x80` marker. What follows the instructions is the tail. */
  function Layout(tx: Transaction): seq<Byte> {
    tx.signaturesLength + (tx.signatures + ((if tx.versioned then [0x80] else []) + (tx.header
    + (tx.keysLength + (KeysBytes(tx.keys) +
        (tx.blockhash + (tx.instructionsLength + InstructionsBytes(tx.instructions))))))))
  }

  // ---------- what a support transaction is ----------

  function Tag(data: seq<Byte>): seq<Byte> {
    if |data| <= 8 then data else data[..8]
  }

  function ProgramAt(keys: seq<seq<Byte>>, index: nat): Option<string> {
    if index < |keys| then Some(Base58.Base58(keys[index])) else None
  }

  predicate Allowed(program: string, programId: string) {
    program in {SYSTEM, TOKEN, ATA, COMPUTE_BUDGET, MEMO, JUPITER, LIGHTHOUSE, programId}
  }

  /** A program's own rule about the data it is called with. */
  predicate DataFits(program: string, data: seq<Byte>, programId: string) {
    && (program == programId ==> Tag(data) in SUPPORT_IXS)
    && (program == JUPITER ==> Tag(data) in JUPITER_IXS)
    && (program == SYSTEM ==> |data| == 12 && data[..4] == [2, 0, 0, 0])
    && (program == TOKEN ==> data != [] && data[0] in {12, 9})
  }

  /** The rules in plain bytes: eight-byte tags, a twelve-byte system transfer, two token instructions. */
  lemma DataRule(program: string, data: seq<Byte>, programId: string)
    ensures DataFits(program, data, programId) <==>
            && (program == programId ==>
                  |data| >= 8 && (data[..8] == [0x0e, 0x10, 0xb8, 0x86, 0xda, 0x01, 0x25, 0x23]
                                  || data[..8] == [0xf7, 0x2f, 0xe3, 0xdf, 0xcd, 0x8f, 0x9b, 0x38]
                                  || data[..8] == [0x83, 0x65, 0x9a, 0x32, 0x25, 0x88, 0x0d, 0x43]
                                  || data[..8] == [0x18, 0x01, 0x3a, 0x5f, 0x08, 0x52, 0x83, 0xdd]))
            && (program == JUPITER ==>
                  |data| >= 8 && (data[..8] == [0xe5, 0x17, 0xcb, 0x97, 0x7a, 0xe3, 0xad, 0x2a]
                                  || data[..8] == [0xc1, 0x20, 0x9b, 0x33, 0x41, 0xd6, 0x9c, 0x81]))
            && (program == SYSTEM ==>
                  |data| == 12 && data[0] == 2 && data[1] == 0 && data[2] == 0 && data[3] == 0)
            && (program == TOKEN ==> |data| > 0 && (data[0] == 12 || data[0] == 9))
  {
    if program == programId { SupportTag(data); }
    if program == JUPITER { SwapTag(data); }
    assert |data| == 12 ==> data[..4] == [data[0], data[1], data[2], data[3]];
    hide Tag;
  }

  lemma SupportTag(data: seq<Byte>)
    ensures Tag(data) in SUPPORT_IXS <==>
              |data| >= 8 && (data[..8] == [0x0e, 0x10, 0xb8, 0x86, 0xda, 0x01, 0x25, 0x23]
                              || data[..8] == [0xf7, 0x2f, 0xe3, 0xdf, 0xcd, 0x8f, 0x9b, 0x38]
                              || data[..8] == [0x83, 0x65, 0x9a, 0x32, 0x25, 0x88, 0x0d, 0x43]
                              || data[..8] == [0x18, 0x01, 0x3a, 0x5f, 0x08, 0x52, 0x83, 0xdd])
  {
    var t := Tag(data);
    assert |data| >= 8 ==> t == data[..8];
    assert |SUPPORT_IXS| == 4;
    assert t in SUPPORT_IXS <==>
             t == SUPPORT_IXS[0] || t == SUPPORT_IXS[1] || t == SUPPORT_IXS[2] || t == SUPPORT_IXS[3];
    assert |SUPPORT_IXS[0]| == 8 && |SUPPORT_IXS[1]| == 8 && |SUPPORT_IXS[2]| == 8 && |SUPPORT_IXS[3]| == 8;
  }

  lemma SwapTag(data: seq<Byte>)
    ensures Tag(data) in JUPITER_IXS <==>
              |data| >= 8 && (data[..8] == [0xe5, 0x17, 0xcb, 0x97, 0x7a, 0xe3, 0xad, 0x2a]
                              || data[..8] == [0xc1, 0x20, 0x9b, 0x33, 0x41, 0xd6, 0x9c, 0x81])
  {
    var t := Tag(data);
    assert |data| >= 8 ==> t == data[..8];
    assert |JUPITER_IXS| == 2;
    assert t in JUPITER_IXS <==> t == JUPITER_IXS[0] || t == JUPITER_IXS[1];
    assert |JUPITER_IXS[0]| == 8 && |JUPITER_IXS[1]| == 8;
  }

  predicate InstructionFits(tx: Transaction, ix: Instruction, programId: string) {
    match ProgramAt(tx.keys, ix.program)
    case None => false
    case Some(program) => Allowed(program, programId) && DataFits(program, ix.data, programId)
  }

  /** An instruction fits when its program is listed, by name or as the support program, and takes its data. */
  lemma InstructionRule(tx: Transaction, ix: Instruction, programId: string)
    ensures InstructionFits(tx, ix, programId) <==>
              && ix.program < |tx.keys|
              && var program := Base58.Base58(tx.keys[ix.program]);
                 && DataFits(program, ix.data, programId)
                 && (program == programId
                     || program == "11111111111111111111111111111111"
                     || program == "TokenkegQfeZyiNwAJbNbGKPFXCWuBvf9Ss623VQ5DA"
                     || program == "ATokenGPvbdGVxr1b2hvZbsiqW5xWH25efTNsLJA8knL"
                     || program == "ComputeBudget111111111111111111111111111111"
                     || program == "MemoSq4gqABAXKb96qnH8TysNcWxMyWCqXgDLGmfcHr"
                     || program == "JUP6LkbZbjS1jKKwapdHNy74zcZ3tLUZoi5QNyVTaV4"
                     || program == "L2TExMFKdjpN9kozasaurPtAaCGqXGTDUDiKN3EuHHB")
  {
    hide Base58.Base58, DataFits;
  }

  predicate IsSupportTransaction(tx: Transaction, programId: string) {
    && (forall ix :: ix in tx.instructions ==> InstructionFits(tx, ix, programId))
    && (exists ix :: ix in tx.instructions && ProgramAt(tx.keys, ix.program) == Some(programId))
  }

  // ---------- the reader, as a function of the unread bytes ----------

  function ReadCompact(rest: seq<Byte>, groups: nat): (r: Option<(nat, seq<Byte>)>)
    ensures r.Some? ==> |r.value.1| < |rest|
  {
    if groups == 0 || rest == [] then None
    else if rest[0] < 128 then Some((rest[0] % 128, rest[1..]))
    else
      match ReadCompact(rest[1..], groups - 1)
      case None => None
      case Some(t) => Some((rest[0] % 128 + 128 * t.0, t.1))
  }

  function Take(rest: seq<Byte>, n: nat): Option<(seq<Byte>, seq<Byte>)> {
    if n <= |rest| then Some((rest[..n], rest[n..])) else None
  }

  function ReadKeys(rest: seq<Byte>, count: nat): Option<(seq<seq<Byte>>, seq<Byte>)> {
    if count == 0 then Some(([], rest))
    else
      match Take(rest, 32)
      case None => None
      case Some(k) =>
        match ReadKeys(k.1, count - 1)
        case None => None
        case Some(ks) => Some(([k.0] + ks.0, ks.1))
  }

  function Problem(program: Option<string>, data: seq<Byte>, programId: string): Option<string> {
    if program.None? || !Allowed(program.value, programId) then Some("calls a program a tip doesn't use")
    else if program.value == programId && Tag(data) !in SUPPORT_IXS then Some("unknown support instruction")
    else if program.value == JUPITER && Tag(data) !in JUPITER_IXS then Some("unknown swap instruction")
    else if program.value == SYSTEM
            && !(|data| == 12 && data[0] == 2 && data[1] == 0 && data[2] == 0 && data[3] == 0) then
      Some("unexpected system instruction")
    else if program.value == TOKEN && !(|data| > 0 && (data[0] == 12 || data[0] == 9)) then
      Some("unexpected token instruction")
    else None
  }

  const SHORT := Reject("not a transaction")

  /** The bytes consumed between two reader positions. */
  function Consumed(before: seq<Byte>, after: seq<Byte>): seq<Byte> {
    if |after| <= |before| then before[..|before| - |after|] else []
  }

  function ReadInstruction(rest: seq<Byte>): Option<(Instruction, seq<Byte>)> {
    if rest == [] then None
    else
      match ReadCompact(rest[1..], 3)
      case None => None
      case Some(a) =>
        match Take(a.1, a.0)
        case None => None
        case Some(accounts) =>
          match ReadCompact(accounts.1, 3)
          case None => None
          case Some(d) =>
            match Take(d.1, d.0)
            case None => None
            case Some(data) =>
              Some((Instruction(rest[0], Consumed(rest[1..], a.1), accounts.0, Consumed(accounts.1, d.1), data.0), data.1))
  }

  function CheckInstructions(rest: seq<Byte>, count: nat, keys: seq<seq<Byte>>, programId: string, calls: bool): Verdict
    decreases count
  {
    if count == 0 then (if calls then Accept else Reject("doesn't call the support program"))
    else
      match ReadInstruction(rest)
      case None => SHORT
      case Some(t) =>
        var program := ProgramAt(keys, t.0.program);
        match Problem(program, t.0.data, programId)
        case Some(reason) => Reject(reason)
        case None => CheckInstructions(t.1, count - 1, keys, programId, calls || program == Some(programId))
  }

  /** From the key count on. */
  function CheckMessage(rest: seq<Byte>, programId: string): Verdict {
    match ReadCompact(rest, 3)
    case None => SHORT
    case Some(n) =>
      match ReadKeys(n.1, n.0)
      case None => SHORT
      case Some(keys) =>
        match Take(keys.1, 32)
        case None => SHORT
        case Some(blockhash) =>
          match ReadCompact(blockhash.1, 3)
          case None => SHORT
          case Some(count) => CheckInstructions(count.1, count.0, keys.0, programId, false)
  }

  /** From the version marker or message header on. */
  function CheckVersioned(rest: seq<Byte>, programId: string): Verdict {
    if rest != [] && rest[0] >= 128 && rest[0] != 128 then Reject("unsupported transaction version")
    else
      var body := if rest != [] && rest[0] >= 128 then rest[1..] else rest;
      match Take(body, 3)
      case None => SHORT
      case Some(header) => CheckMessage(header.1, programId)
  }

  function Check(bytes: seq<Byte>, programId: string): Verdict {
    match ReadCompact(bytes, 3)
    case None => SHORT
    case Some(n) =>
      match Take(n.1, n.0 * 64)
      case None => SHORT
      case Some(signatures) => CheckVersioned(signatures.1, programId)
  }

  // ---------- reading a layout ----------

  lemma {:induction false} ReadCompactOfLayout(enc: seq<Byte>, tail: seq<Byte>, groups: nat)
    requires |enc| <= groups && enc != [] && enc[|enc| - 1] < 128
    requires forall i :: 0 <= i < |enc| - 1 ==> enc[i] >= 128
    ensures ReadCompact(enc + tail, groups) == Some((CompactValue(enc), tail))
  {
    var all := enc + tail;
    if |enc| == 1 {
      assert all[1..] == tail;
    } else {
      ReadCompactOfLayout(enc[1..], tail, groups - 1);
      assert all[1..] == enc[1..] + tail;
    }
  }

  lemma ReadCounts(enc: seq<Byte>, n: nat, tail: seq<Byte>)
    requires Counts(enc, n)
    ensures ReadCompact(enc + tail, 3) == Some((n, tail))
  {
    ReadCompactOfLayout(enc, tail, 3);
  }

  /** The encoding a wallet writes: 7-bit groups while more remain. */
  function CompactBytes(n: nat): seq<Byte> {
    if n < 128 then [n] else [128 + n % 128] + CompactBytes(n / 128)
  }

  lemma {:induction false} CompactBytesCount(n: nat, groups: nat)
    requires n < (if groups == 0 then 0 else if groups == 1 then 128 else if groups == 2 then 16_384 else 2_097_152)
    requires groups <= 3
    ensures var enc := CompactBytes(n);
      && 1 <= |enc| <= groups && enc[|enc| - 1] < 128 && (forall i :: 0 <= i < |enc| - 1 ==> enc[i] >= 128)
      && CompactValue(enc) == n
  {
    if n >= 128 {
      CompactBytesCount(n / 128, groups - 1);
      assert CompactBytes(n)[1..] == CompactBytes(n / 128);
    }
  }

  /** Every length three groups can hold is read back, whatever follows it. */
  lemma ReadOfCompactBytes(n: nat, tail: seq<Byte>)
    requires n < 2_097_152
    ensures ReadCompact(CompactBytes(n) + tail, 3) == Some((n, tail))
  {
    CompactBytesCount(n, 3);
    ReadCompactOfLayout(CompactBytes(n), tail, 3);
  }

  lemma Cat(a: seq<Byte>, b: seq<Byte>, c: seq<Byte>)
    ensures a + b + c == a + (b + c)
  {
  }

  lemma {:induction false} ReadKeysOfLayout(keys: seq<seq<Byte>>, tail: seq<Byte>)
    requires forall k :: 0 <= k < |keys| ==> |keys[k]| == 32
    ensures ReadKeys(KeysBytes(keys) + tail, |keys|) == Some((keys, tail))
  {
    var all := KeysBytes(keys) + tail;
    if keys == [] {
      assert all == tail;
    } else {
      ReadKeysOfLayout(keys[1..], tail);
      assert all == keys[0] + (KeysBytes(keys[1..]) + tail);
      assert all[..32] == keys[0] && all[32..] == KeysBytes(keys[1..]) + tail;
      assert keys == [keys[0]] + keys[1..];
    }
  }

  lemma TakeOfLayout(part: seq<Byte>, tail: seq<Byte>)
    ensures Take(part + tail, |part|) == Some((part, tail))
  {
    assert (part + tail)[..|part|] == part && (part + tail)[|part|..] == tail;
  }

  /** The verdict on a transaction, instruction by instruction, without any bytes. */
  function Judge(ixs: seq<Instruction>, keys: seq<seq<Byte>>, programId: string, calls: bool): Verdict {
    if ixs == [] then (if calls then Accept else Reject("doesn't call the support program"))
    else
      var program := ProgramAt(keys, ixs[0].program);
      match Problem(program, ixs[0].data, programId)
      case Some(reason) => Reject(reason)
      case None => Judge(ixs[1..], keys, programId, calls || program == Some(programId))
  }

  lemma ReadInstructionOfLayout(ix: Instruction, tail: seq<Byte>)
    requires WellFormedInstruction(ix)
    ensures ReadInstruction(InstructionBytes(ix) + tail) == Some((ix, tail))
  {
    hide ReadCompact, Take, Counts, Consumed;
    var d := ix.data + tail;
    var c := ix.dataLength + d;
    var b := ix.accounts + c;
    var a := ix.accountsLength + b;
    Cat(ix.dataLength, ix.data, tail);
    Cat(ix.accounts, ix.dataLength + ix.data, tail);
    Cat(ix.accountsLength, ix.accounts + (ix.dataLength + ix.data), tail);
    Cat([ix.program], ix.accountsLength + (ix.accounts + (ix.dataLength + ix.data)), tail);
    assert ([ix.program] + a)[1..] == a;
    ReadCounts(ix.accountsLength, |ix.accounts|, b);
    TakeOfLayout(ix.accounts, c);
    ReadCounts(ix.dataLength, |ix.data|, d);
    TakeOfLayout(ix.data, tail);
    ConsumedOfLayout(ix.accountsLength, b);
    ConsumedOfLayout(ix.dataLength, d);
  }

  lemma ConsumedOfLayout(part: seq<Byte>, tail: seq<Byte>)
    ensures Consumed(part + tail, tail) == part
  {
    assert (part + tail)[..|part|] == part;
  }

  lemma {:induction false} CheckInstructionsOfLayout(
      ixs: seq<Instruction>, tail: seq<Byte>, keys: seq<seq<Byte>>, programId: string, calls: bool)
    requires forall k :: 0 <= k < |ixs| ==> WellFormedInstruction(ixs[k])
    ensures CheckInstructions(InstructionsBytes(ixs) + tail, |ixs|, keys, programId, calls)
            == Judge(ixs, keys, programId, calls)
  {
    hide ReadInstruction, Problem, WellFormedInstruction, ProgramAt, InstructionBytes;
    if ixs != [] {
      var after := InstructionsBytes(ixs[1..]) + tail;
      assert InstructionsBytes(ixs) + tail == InstructionBytes(ixs[0]) + after by {
        Cat(InstructionBytes(ixs[0]), InstructionsBytes(ixs[1..]), tail);
      }
      hide InstructionsBytes;
      ReadInstructionOfLayout(ixs[0], after);
      CheckInstructionsOfLayout(ixs[1..], tail, keys, programId,
          calls || ProgramAt(keys, ixs[0].program) == Some(programId));
    }
  }

  lemma CheckMessageOfLayout(tx: Transaction, tail: seq<Byte>, rest: seq<Byte>, programId: string)
    requires WellFormed(tx)
    requires rest
            == tx.keysLength + (KeysBytes(tx.keys) +
                (tx.blockhash + (tx.instructionsLength + (InstructionsBytes(tx.instructions) + tail))))
    ensures CheckMessage(rest, programId) == Judge(tx.instructions, tx.keys, programId, false)
  {
    hide CheckInstructions, ReadCompact, ReadKeys, Take, Judge, WellFormedInstruction;
    var ixs := InstructionsBytes(tx.instructions) + tail;
    ReadCompactOfLayout(tx.keysLength, KeysBytes(tx.keys) + (tx.blockhash + (tx.instructionsLength + ixs)), 3);
    ReadKeysOfLayout(tx.keys, tx.blockhash + (tx.instructionsLength + ixs));
    TakeOfLayout(tx.blockhash, tx.instructionsLength + ixs);
    ReadCompactOfLayout(tx.instructionsLength, ixs, 3);
    CheckInstructionsOfLayout(tx.instructions, tail, tx.keys, programId, false);
  }

  /** Whatever follows a laid-out transaction, the check judges exactly that transaction. */
  lemma CheckOfLayout(tx: Transaction, tail: seq<Byte>, programId: string)
    requires WellFormed(tx)
    ensures Check(Layout(tx) + tail, programId) == Judge(tx.instructions, tx.keys, programId, false)
  {
    hide CheckMessage, ReadCompact, Take, Judge, KeysBytes, InstructionsBytes;
    var message := tx.keysLength +
        (KeysBytes(tx.keys) + (tx.blockhash + (tx.instructionsLength + (InstructionsBytes(tx.instructions) + tail))));
    var body := tx.header + message;
    var rest := (if tx.versioned then [0x80] else []) + body;
    LayoutParts(tx, tail);
    ReadCompactOfLayout(tx.signaturesLength, tx.signatures + rest, 3);
    TakeOfLayout(tx.signatures, rest);
    assert body[0] == tx.header[0];
    assert rest[0] == if tx.versioned then 0x80 else tx.header[0];
    assert tx.versioned ==> rest[1..] == body;
    assert !tx.versioned ==> rest == body;
    TakeOfLayout(tx.header, message);
    CheckMessageOfLayout(tx, tail, message, programId);
  }

  lemma LayoutParts(tx: Transaction, tail: seq<Byte>)
    ensures Layout(tx) + tail ==
      tx.signaturesLength + (tx.signatures + ((if tx.versioned then [0x80] else []) + (tx.header
      + (tx.keysLength + (KeysBytes(tx.keys) +
          (tx.blockhash + (tx.instructionsLength + (InstructionsBytes(tx.instructions) + tail))))))))
  {
    hide KeysBytes, InstructionsBytes;
    var marker: seq<Byte> := if tx.versioned then [0x80] else [];
    var i := InstructionsBytes(tx.instructions);
    var h := tx.instructionsLength + i;
    var g := tx.blockhash + h;
    var f := KeysBytes(tx.keys) + g;
    var e := tx.keysLength + f;
    var d := tx.header + e;
    Cat(tx.instructionsLength, i, tail);
    Cat(tx.blockhash, h, tail);
    Cat(KeysBytes(tx.keys), g, tail);
    Cat(tx.keysLength, f, tail);
    Cat(tx.header, e, tail);
    Cat(marker, d, tail);
    Cat(tx.signatures, marker + d, tail);
    Cat(tx.signaturesLength, tx.signatures + (marker + d), tail);
  }

  // ---------- the verdict means what it should ----------

  lemma ProblemIsMisfit(program: Option<string>, data: seq<Byte>, programId: string)
    ensures Problem(program, data, programId).None? <==>
      program.Some? && Allowed(program.value, programId) && DataFits(program.value, data, programId)
  {
    if |data| == 12 {
      assert data[..4] == [data[0], data[1], data[2], data[3]];
    }
  }

  lemma {:induction false} JudgeAccepts(tx: Transaction, n: nat, programId: string, calls: bool)
    requires n <= |tx.instructions|
    ensures Judge(tx.instructions[n..], tx.keys, programId, calls) == Accept <==>
      && (forall k :: n <= k < |tx.instructions| ==> InstructionFits(tx, tx.instructions[k], programId))
      && (calls
          || exists k :: n <= k < |tx.instructions| && ProgramAt(tx.keys, tx.instructions[k].program) == Some(programId))
    decreases |tx.instructions| - n
  {
    var ixs := tx.instructions[n..];
    if ixs != [] {
      var ix := tx.instructions[n];
      assert ixs[0] == ix && ixs[1..] == tx.instructions[n + 1..];
      var program := ProgramAt(tx.keys, ix.program);
      ProblemIsMisfit(program, ix.data, programId);
      hide Problem, Allowed, DataFits;
      JudgeAccepts(tx, n + 1, programId, calls || program == Some(programId));
    }
  }

  /** Accepted exactly when every instruction fits its program's rule and one calls the support program. */
  lemma AcceptsExactlySupport(tx: Transaction, tail: seq<Byte>, programId: string)
    requires WellFormed(tx)
    ensures Check(Layout(tx) + tail, programId) == Accept <==> IsSupportTransaction(tx, programId)
  {
    CheckOfLayout(tx, tail, programId);
    JudgeAccepts(tx, 0, programId, false);
    hide Check, Judge, InstructionFits, ProgramAt, WellFormed;
    assert tx.instructions[0..] == tx.instructions;
  }

  // ---------- nothing else is accepted ----------

  lemma {:induction false} ReadCompactConsumes(rest: seq<Byte>, groups: nat) returns (enc: seq<Byte>)
    requires ReadCompact(rest, groups).Some?
    ensures 1 <= |enc| <= groups && enc[|enc| - 1] < 128 && (forall i :: 0 <= i < |enc| - 1 ==> enc[i] >= 128)
    ensures ReadCompact(rest, groups).value.0 == CompactValue(enc)
    ensures rest == enc + ReadCompact(rest, groups).value.1
  {
    enc := [rest[0]];
    if rest[0] >= 128 {
      var more := ReadCompactConsumes(rest[1..], groups - 1);
      enc := [rest[0]] + more;
      assert enc[1..] == more;
    }
  }

  lemma CountsConsumed(rest: seq<Byte>) returns (enc: seq<Byte>)
    requires ReadCompact(rest, 3).Some?
    ensures Counts(enc, ReadCompact(rest, 3).value.0)
    ensures rest == enc + ReadCompact(rest, 3).value.1
  {
    enc := ReadCompactConsumes(rest, 3);
  }

  lemma TakeConsumes(rest: seq<Byte>, n: nat)
    requires Take(rest, n).Some?
    ensures var t := Take(rest, n).value; |t.0| == n && rest == t.0 + t.1
  {
  }

  lemma {:induction false} ReadKeysConsumes(rest: seq<Byte>, count: nat)
    requires ReadKeys(rest, count).Some?
    ensures var t := ReadKeys(rest, count).value;
      && |t.0| == count && (forall k :: 0 <= k < count ==> |t.0[k]| == 32)
      && rest == KeysBytes(t.0) + t.1
  {
    if count > 0 {
      var k := Take(rest, 32).value;
      ReadKeysConsumes(k.1, count - 1);
      var ks := ReadKeys(k.1, count - 1).value;
      assert ([k.0] + ks.0)[1..] == ks.0;
      Cat(k.0, KeysBytes(ks.0), ks.1);
    }
  }

  lemma ReadInstructionConsumes(rest: seq<Byte>)
    requires ReadInstruction(rest).Some?
    ensures var t := ReadInstruction(rest).value; WellFormedInstruction(t.0) && rest == InstructionBytes(t.0) + t.1
  {
    hide ReadCompact, Take, Counts, Consumed;
    var a := ReadCompact(rest[1..], 3).value;
    var accountsLength := CountsConsumed(rest[1..]);
    TakeConsumes(a.1, a.0);
    var accounts := Take(a.1, a.0).value;
    var dataLength := CountsConsumed(accounts.1);
    var d := ReadCompact(accounts.1, 3).value;
    TakeConsumes(d.1, d.0);
    var data := Take(d.1, d.0).value;
    ConsumedOfLayout(accountsLength, a.1);
    ConsumedOfLayout(dataLength, d.1);
    Cat(dataLength, data.0, data.1);
    Cat(accounts.0, dataLength + data.0, data.1);
    Cat(accountsLength, accounts.0 + (dataLength + data.0), data.1);
    Cat([rest[0]], accountsLength + (accounts.0 + (dataLength + data.0)), data.1);
    assert rest == [rest[0]] + rest[1..];
  }

  lemma {:induction false} CheckInstructionsConsumes(
      rest: seq<Byte>, count: nat, keys: seq<seq<Byte>>, programId: string, calls: bool)
      returns (ixs: seq<Instruction>, tail: seq<Byte>)
    requires CheckInstructions(rest, count, keys, programId, calls) == Accept
    ensures |ixs| == count && (forall k :: 0 <= k < |ixs| ==> WellFormedInstruction(ixs[k]))
    ensures rest == InstructionsBytes(ixs) + tail
    decreases count
  {
    hide ReadInstruction, Problem, WellFormedInstruction, InstructionBytes, ProgramAt;
    if count == 0 {
      ixs, tail := [], rest;
    } else {
      ReadInstructionConsumes(rest);
      var t := ReadInstruction(rest).value;
      var more: seq<Instruction>;
      more, tail := CheckInstructionsConsumes(t.1, count - 1, keys, programId,
          calls || ProgramAt(keys, t.0.program) == Some(programId));
      ixs := [t.0] + more;
      assert ixs[1..] == more;
      Cat(InstructionBytes(t.0), InstructionsBytes(more), tail);
    }
  }

  /** Any accepted byte string is the layout of a support transaction, followed by some tail. */
  lemma AcceptedIsSupport(bytes: seq<Byte>, programId: string) returns (tx: Transaction, tail: seq<Byte>)
    requires Check(bytes, programId) == Accept
    ensures WellFormed(tx) && bytes == Layout(tx) + tail && IsSupportTransaction(tx, programId)
  {
    tx, tail := AcceptedIsLayout(bytes, programId);
    AcceptsExactlySupport(tx, tail, programId);
  }

  lemma AcceptedIsLayout(bytes: seq<Byte>, programId: string) returns (tx: Transaction, tail: seq<Byte>)
    requires Check(bytes, programId) == Accept
    ensures WellFormed(tx) && bytes == Layout(tx) + tail
  {
    hide ReadCompact, Take, Counts, KeysBytes, InstructionsBytes, ReadKeys, CheckInstructions, WellFormedInstruction;
    var n := ReadCompact(bytes, 3).value;
    var signaturesLength := CountsConsumed(bytes);
    TakeConsumes(n.1, n.0 * 64);
    var signatures := Take(n.1, n.0 * 64).value;
    var rest := signatures.1;
    var versioned := rest != [] && rest[0] >= 128;
    var body := if versioned then rest[1..] else rest;
    var marker: seq<Byte> := if versioned then [0x80] else [];
    assert rest == marker + body;
    TakeConsumes(body, 3);
    var header := Take(body, 3).value;
    assert !versioned ==> header.0[0] < 128;
    var c := ReadCompact(header.1, 3).value;
    var keysLength := CountsConsumed(header.1);
    ReadKeysConsumes(c.1, c.0);
    var keys := ReadKeys(c.1, c.0).value;
    TakeConsumes(keys.1, 32);
    var blockhash := Take(keys.1, 32).value;
    var count := ReadCompact(blockhash.1, 3).value;
    var instructionsLength := CountsConsumed(blockhash.1);
    var ixs: seq<Instruction>;
    ixs, tail := CheckInstructionsConsumes(count.1, count.0, keys.0, programId, false);
    tx := Transaction(signaturesLength, signatures.0, versioned, header.0, keysLength, keys.0, blockhash.0,
        instructionsLength, ixs);
    LayoutParts(tx, tail);
    CountsIs(signaturesLength, n.0);
  }

  lemma CountsIs(enc: seq<Byte>, n: nat)
    requires Counts(enc, n)
    ensures IsCompact(enc) && CompactValue(enc) == n
  {
  }

  // ---------- the reader as the source runs it ----------

  class Reader {
    const bytes: seq<Byte>
    var offset: nat

    ghost predicate Valid() reads this { offset <= |bytes| }

    ghost function Rest(): seq<Byte>
      requires Valid()
      reads this
    { bytes[offset..] }

    constructor (bytes: seq<Byte>)
      ensures Valid() && this.bytes == bytes && Rest() == bytes
    {
      this.bytes, offset := bytes, 0;
    }

    /** `None` stands for the source's thrown "short". */
    method ReadByte() returns (b: Option<Byte>)
      requires Valid()
      modifies this
      ensures Valid()
      ensures b == (if old(Rest()) == [] then None else Some(old(Rest())[0]))
      ensures Rest() == if old(Rest()) == [] then [] else old(Rest())[1..]
    {
      if offset >= |bytes| { return None; }
      b := Some(bytes[offset]);
      offset := offset + 1;
    }

    method TakeBytes(n: nat) returns (part: Option<seq<Byte>>)
      requires Valid()
      modifies this
      ensures Valid()
      ensures part.Some? <==> Take(old(Rest()), n).Some?
      ensures part.Some? ==> Take(old(Rest()), n) == Some((part.value, Rest()))
    {
      if offset + n > |bytes| { return None; }
      offset := offset + n;
      part := Some(bytes[offset - n..offset]);
      assert bytes[offset - n..][..n] == part.value && bytes[offset - n..][n..] == bytes[offset..];
    }

    method Compact() returns (r: Option<nat>)
      requires Valid()
      modifies this
      ensures Valid()
      ensures r.Some? <==> ReadCompact(old(Rest()), 3).Some?
      ensures r.Some? ==> ReadCompact(old(Rest()), 3) == Some((r.value, Rest()))
    {
      var value, weight := 0, 1;
      for group := 0 to 3
        invariant Valid()
        invariant ReadCompact(old(Rest()), 3) ==
          match ReadCompact(Rest(), 3 - group)
          case None => None
          case Some(t) => Some((value + weight * t.0, t.1))
        invariant weight == (if group == 0 then 1 else if group == 1 then 128 else if group == 2 then 16_384 else 2_097_152)
      {
        var b := ReadByte();
        if b.None? { return None; }
        value := value + weight * (b.value % 128);
        if b.value < 128 { return Some(value); }
        weight := weight * 128;
      }
      return None;
    }
  }

  method CheckSupportTransaction(bytes: seq<Byte>, programId: string) returns (verdict: Verdict)
    ensures verdict == Check(bytes, programId)
  {
    hide ReadCompact, Take, CheckVersioned;
    var reader := new Reader(bytes);
    var n := reader.Compact();
    if n.None? { return SHORT; }
    var signatures := reader.TakeBytes(n.value * 64);
    if signatures.None? { return SHORT; }
    verdict := CheckVersionedBytes(reader, programId);
  }

  method CheckVersionedBytes(reader: Reader, programId: string) returns (verdict: Verdict)
    requires reader.Valid()
    modifies reader
    ensures verdict == CheckVersioned(old(reader.Rest()), programId)
  {
    hide Take, CheckMessage;
    assert reader.offset < |reader.bytes| ==> reader.Rest()[0] == reader.bytes[reader.offset];
    if reader.offset < |reader.bytes| && reader.bytes[reader.offset] >= 128 {
      var version := reader.ReadByte();
      if version != Some(128) { return Reject("unsupported transaction version"); }
    }
    var header := reader.TakeBytes(3);
    if header.None? { return SHORT; }
    verdict := CheckMessageBytes(reader, programId);
  }

  method CheckMessageBytes(reader: Reader, programId: string) returns (verdict: Verdict)
    requires reader.Valid()
    modifies reader
    ensures verdict == CheckMessage(old(reader.Rest()), programId)
  {
    hide ReadCompact, Take, ReadKeys, CheckInstructions;
    var keyCount := reader.Compact();
    if keyCount.None? { return SHORT; }
    var names, keys := ReadKeyNames(reader, keyCount.value);
    if names.None? { return SHORT; }
    var blockhash := reader.TakeBytes(32);
    if blockhash.None? { return SHORT; }
    var count := reader.Compact();
    if count.None? { return SHORT; }
    verdict := CheckInstructionBytes(reader, count.value, keys, names.value, programId);
  }

  /** The keys as base-58 names; `keys` keeps the raw bytes for the specification. */
  method ReadKeyNames(reader: Reader, count: nat) returns (names: Option<seq<string>>, ghost keys: seq<seq<Byte>>)
    requires reader.Valid()
    modifies reader
    ensures reader.Valid()
    ensures names.Some? <==> ReadKeys(old(reader.Rest()), count).Some?
    ensures names.Some? ==>
      && ReadKeys(old(reader.Rest()), count) == Some((keys, reader.Rest()))
      && |names.value| == |keys| && forall j :: 0 <= j < |keys| ==> names.value[j] == Base58.Base58(keys[j])
  {
    keys := [];
    var found: seq<string> := [];
    AfterNone(ReadKeys(reader.Rest(), count));
    for k := 0 to count
      invariant reader.Valid() && |found| == |keys| == k
      invariant forall j :: 0 <= j < k ==> found[j] == Base58.Base58(keys[j])
      invariant ReadKeys(old(reader.Rest()), count) == Preceded(keys, ReadKeys(reader.Rest(), count - k))
    {
      ghost var rest := reader.Rest();
      var key := reader.TakeBytes(32);
      if key.None? { return None, keys; }
      var name := Base58.Encode(key.value);
      AfterOne(keys, key.value, ReadKeys(reader.Rest(), count - k - 1));
      found, keys := found + [name], keys + [key.value];
    }
    assert keys + [] == keys;
    names := Some(found);
  }

  /** Keys already read, in front of the outcome of reading the others. */
  ghost function Preceded(keys: seq<seq<Byte>>, r: Option<(seq<seq<Byte>>, seq<Byte>)>): Option<(seq<seq<Byte>>,
        seq<Byte>)> {
    match r
    case None => None
    case Some(t) => Some((keys + t.0, t.1))
  }

  lemma AfterNone(r: Option<(seq<seq<Byte>>, seq<Byte>)>)
    ensures Preceded([], r) == r
  {
    assert r.Some? ==> [] + r.value.0 == r.value.0;
  }

  lemma AfterOne(keys: seq<seq<Byte>>, key: seq<Byte>, r: Option<(seq<seq<Byte>>, seq<Byte>)>)
    ensures Preceded(keys + [key], r) == Preceded(keys, Preceded([key], r))
  {
    assert r.Some? ==> keys + [key] + r.value.0 == keys + ([key] + r.value.0);
  }

  method CheckInstructionBytes(reader: Reader, count: nat, ghost keys: seq<seq<Byte>>, names: seq<string>,
        programId: string)
      returns (verdict: Verdict)
    requires reader.Valid()
    requires |names| == |keys| && forall j :: 0 <= j < |keys| ==> names[j] == Base58.Base58(keys[j])
    modifies reader
    ensures verdict == CheckInstructions(old(reader.Rest()), count, keys, programId, false)
  {
    hide ReadCompact, Take, Problem;
    var callsSupport := false;
    for i := 0 to count
      invariant reader.Valid()
      invariant CheckInstructions(old(reader.Rest()), count, keys, programId, false)
             == CheckInstructions(reader.Rest(), count - i, keys, programId, callsSupport)
    {
      var index := reader.ReadByte();
      if index.None? { return SHORT; }
      var accountsLength := reader.Compact();
      if accountsLength.None? { return SHORT; }
      var accounts := reader.TakeBytes(accountsLength.value);
      if accounts.None? { return SHORT; }
      var dataLength := reader.Compact();
      if dataLength.None? { return SHORT; }
      var data := reader.TakeBytes(dataLength.value);
      if data.None? { return SHORT; }
      var program := if index.value < |names| then Some(names[index.value]) else None;
      var problem := Problem(program, data.value, programId);
      if problem.Some? { return Reject(problem.value); }
      if program == Some(programId) { callsSupport := true; }
    }
    verdict := if callsSupport then Accept else Reject("doesn't call the support program");
  }
}
