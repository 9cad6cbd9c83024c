/** Base-58 text of a byte string (`convex/supportRpc.ts`). */
module Base58 {
  import opened Common

  const ALPHABET: string := "123456789" + "ABCDEFGH" + "JKLMN" + "PQRSTUVWXYZ" + "abcdefghijk" + "mnopqrstuvwxyz"

  // ---------- positional numbers, most significant digit first ----------

  ghost predicate DigitsOf(ds: seq<nat>, base: nat) {
    forall i :: 0 <= i < |ds| ==> ds[i] < base
  }

  function Value(ds: seq<nat>, base: nat): nat {
    if ds == [] then 0 else base * Value(ds[..|ds| - 1], base) + ds[|ds| - 1]
  }

  /** The shortest numeral for `v`; none at all for zero. */
  function Numeral(v: nat, base: nat): (ds: seq<nat>)
    requires base >= 2
    ensures DigitsOf(ds, base)
    ensures ds != [] ==> ds[0] != 0
    ensures ds == [] <==> v == 0
  {
    if v == 0 then [] else Numeral(v / base, base) + [v % base]
  }

  lemma ValueAppend(ds: seq<nat>, d: nat, base: nat)
    ensures Value(ds + [d], base) == base * Value(ds, base) + d
  {
    assert (ds + [d])[..|ds|] == ds;
  }

  lemma NumeralAppend(q: nat, d: nat, base: nat)
    requires base >= 2 && d < base && (q > 0 || d > 0)
    ensures base * q + d > 0
    ensures Numeral(base * q + d, base) == Numeral(q, base) + [d]
  {
    Between(base, q);
    DivideBy(base * q + d, base, q);
  }

  lemma {:induction false} ValueOfNumeral(v: nat, base: nat)
    requires base >= 2
    ensures Value(Numeral(v, base), base) == v
  {
    if v > 0 {
      DivMod(v, base);
      var q, d := v / base, v % base;
      ValueOfNumeral(q, base);
      hide Value;
      ValueAppend(Numeral(q, base), d, base);
    }
  }

  lemma {:induction false} NumeralOfValue(ds: seq<nat>, base: nat)
    requires base >= 2 && DigitsOf(ds, base)
    requires ds != [] ==> ds[0] != 0
    ensures Numeral(Value(ds, base), base) == ds
  {
    if ds != [] {
      var rest, last := ds[..|ds| - 1], ds[|ds| - 1];
      NumeralOfValue(rest, base);
      hide Numeral, Value;
      assert ds == rest + [last];
      ValueAppend(rest, last, base);
      assert rest == [] ==> last != 0;
      NumeralAppend(Value(rest, base), last, base);
    }
  }

  // ---------- conversion that keeps leading zeros ----------

  function LeadingZeros(ds: seq<nat>): (k: nat)
    ensures k <= |ds|
    ensures forall i :: 0 <= i < k ==> ds[i] == 0
    ensures k < |ds| ==> ds[k] != 0
  {
    if ds == [] || ds[0] != 0 then 0 else 1 + LeadingZeros(ds[1..])
  }

  function Zeros(k: nat): (ds: seq<nat>)
    ensures |ds| == k
  {
    seq(k, _ => 0)
  }

  /** Re-write a digit string in another base, keeping one zero per leading zero. */
  function Convert(ds: seq<nat>, from: nat, to: nat): (r: seq<nat>)
    requires to >= 2
    ensures DigitsOf(r, to)
  {
    var k := LeadingZeros(ds);
    Zeros(k) + Numeral(Value(ds[k..], from), to)
  }

  lemma LeadingZerosAre(k: nat, tail: seq<nat>)
    requires tail != [] ==> tail[0] != 0
    ensures LeadingZeros(Zeros(k) + tail) == k
  {
    var ds := Zeros(k) + tail;
    assert forall i :: 0 <= i < k ==> ds[i] == 0;
    assert tail != [] ==> ds[k] == tail[0];
  }

  lemma TailDigits(ds: seq<nat>, k: nat, base: nat)
    requires DigitsOf(ds, base) && k <= |ds|
    ensures DigitsOf(ds[k..], base)
  {
  }

  /** Conversion is undone by converting back, so it is one-to-one and onto. */
  lemma ConvertBack(ds: seq<nat>, from: nat, to: nat)
    requires from >= 2 && to >= 2 && DigitsOf(ds, from)
    ensures Convert(Convert(ds, from, to), to, from) == ds
  {
    hide Numeral, Value, DigitsOf, LeadingZeros;
    var k := LeadingZeros(ds);
    var tail := ds[k..];
    assert DigitsOf(tail, from) by { TailDigits(ds, k, from); }
    var num := Numeral(Value(tail, from), to);
    LeadingZerosAre(k, num);
    assert (Zeros(k) + num)[k..] == num;
    ValueOfNumeral(Value(tail, from), to);
    NumeralOfValue(tail, from);
    assert ds == Zeros(k) + tail;
  }

  // ---------- the carry loop ----------

  /** Multiply by 256 and add `carry`, least significant digit first, as the carry loop does. */
  function CarryStep(digits: seq<nat>, carry: nat): seq<nat> {
    if digits == [] then Push(carry)
    else
      var c := carry + digits[0] * 256;
      [c % 58] + CarryStep(digits[1..], c / 58)
  }

  function Push(carry: nat): seq<nat> {
    if carry == 0 then [] else [carry % 58] + Push(carry / 58)
  }

  function Reversed<T>(s: seq<T>): (r: seq<T>)
    ensures |r| == |s|
    ensures forall i :: 0 <= i < |s| ==> r[i] == s[|s| - 1 - i]
  {
    seq(|s|, i requires 0 <= i < |s| => s[|s| - 1 - i])
  }

  /** The number a least-significant-first digit list denotes. */
  function ValueUp(ds: seq<nat>): nat {
    if ds == [] then 0 else ds[0] + 58 * ValueUp(ds[1..])
  }

  /** The shape kept by the digit list: base-58 digits, top digit nonzero unless it is the lone `0`. */
  ghost predicate DigitList(ds: seq<nat>) {
    DigitsOf(ds, 58) && ds != [] && (ds == [0] || ds[|ds| - 1] != 0)
  }

  lemma {:induction false} ValueOfPush(carry: nat)
    ensures ValueUp(Push(carry)) == carry && DigitsOf(Push(carry), 58)
    ensures carry > 0 ==> Push(carry)[|Push(carry)| - 1] != 0
  {
    if carry > 0 {
      ValueOfPush(carry / 58);
      assert Push(carry)[1..] == Push(carry / 58);
    }
  }

  /** One pass over the digits multiplies the number by 256 and adds the byte. */
  lemma {:induction false} ValueOfCarryStep(digits: seq<nat>, carry: nat)
    ensures ValueUp(CarryStep(digits, carry)) == 256 * ValueUp(digits) + carry
    ensures DigitsOf(CarryStep(digits, carry), 58)
  {
    if digits == [] {
      ValueOfPush(carry);
    } else {
      var c := carry + digits[0] * 256;
      ValueOfCarryStep(digits[1..], c / 58);
      assert CarryStep(digits, carry)[1..] == CarryStep(digits[1..], c / 58);
    }
  }

  lemma {:induction false} TopOfCarryStep(digits: seq<nat>, carry: nat)
    requires digits != [] ==> digits[|digits| - 1] != 0
    ensures var r := CarryStep(digits, carry); r != [] ==> r[|r| - 1] != 0
    ensures digits != [] || carry > 0 ==> CarryStep(digits, carry) != []
  {
    hide CarryStep, Push;
    CarryStepOn(digits, carry);
    if digits == [] {
      ValueOfPush(carry);
      PushOn(carry);
    } else {
      var c := carry + digits[0] * 256;
      var low, left := c % 58, c / 58;
      assert |digits| == 1 ==> left > 0;
      TopOfCarryStep(digits[1..], left);
      var rest := CarryStep(digits[1..], left);
      assert CarryStep(digits, carry) == [low] + rest && rest != [];
    }
  }

  lemma CarryStepKeepsDigitList(digits: seq<nat>, byte: Byte)
    requires DigitList(digits)
    ensures DigitList(CarryStep(digits, byte))
  {
    ValueOfCarryStep(digits, byte);
    if digits == [0] {
      ValueOfPush(byte / 58);
      assert CarryStep([0], byte) == [byte % 58] + Push(byte / 58);
    } else {
      TopOfCarryStep(digits, byte);
    }
  }

  lemma {:induction false} ValueUpIsValue(ds: seq<nat>)
    ensures ValueUp(ds) == Value(Reversed(ds), 58)
  {
    if ds != [] {
      ValueUpIsValue(ds[1..]);
      var r := Reversed(ds);
      assert r[..|r| - 1] == Reversed(ds[1..]);
    }
  }

  // ---------- the encoder ----------

  function Letters(ds: seq<nat>): string
    requires DigitsOf(ds, 58)
  {
    seq(|ds|, i requires 0 <= i < |ds| => ALPHABET[ds[i]])
  }

  /** The text of a byte string: its base-58 conversion, spelled in the alphabet. */
  function Base58(bytes: seq<Byte>): string {
    Letters(Convert(bytes, 256, 58))
  }

  lemma CarryStepOn(digits: seq<nat>, carry: nat)
    ensures CarryStep(digits, carry) ==
            if digits == [] then Push(carry)
            else [(carry + digits[0] * 256) % 58] + CarryStep(digits[1..], (carry + digits[0] * 256) / 58)
  {
  }

  lemma PushOn(carry: nat)
    ensures Push(carry) == if carry == 0 then [] else [carry % 58] + Push(carry / 58)
  {
  }

  /** The two inner loops: fold one byte into the digit list. */
  method AddByte(before: seq<nat>, byte: Byte) returns (digits: seq<nat>)
    requires DigitsOf(before, 58)
    ensures digits == CarryStep(before, byte)
  {
    hide CarryStep, Push;
    digits := before;
    var carry: nat := byte;
    var i := 0;
    ghost var done: seq<nat> := [];
    while i < |digits|
      invariant i == |done| <= |before| && digits == done + before[i..]
      invariant done + CarryStep(before[i..], carry) == CarryStep(before, byte)
      invariant carry < 256
    {
      CarryMoves(before, done, i, carry);
      carry := carry + digits[i] * 256;
      digits := digits[i := carry % 58];
      done := done + [carry % 58];
      carry := carry / 58;
      i := i + 1;
    }
    assert before[i..] == [] && digits == done;
    CarryStepOn([], carry);
    digits := PushCarry(digits, carry);
  }

  /** The second inner loop: what is left of the carry becomes new digits. */
  method PushCarry(before: seq<nat>, left: nat) returns (digits: seq<nat>)
    ensures digits == before + Push(left)
  {
    hide Push;
    digits := before;
    var carry := left;
    while carry > 0
      invariant digits + Push(carry) == before + Push(left)
    {
      PushOn(carry);
      assert digits + Push(carry) == (digits + [carry % 58]) + Push(carry / 58);
      digits := digits + [carry % 58];
      carry := carry / 58;
    }
    PushOn(0);
  }

  /** One turn of the inner loop: the digit in place, the carry onwards. */
  lemma CarryMoves(before: seq<nat>, done: seq<nat>, i: nat, carry: nat)
    requires DigitsOf(before, 58) && i == |done| < |before| && carry < 256
    ensures var c := carry + before[i] * 256; var digits := done + before[i..];
            && digits[i] == before[i] && c / 58 < 256
            && digits[i := c % 58] == (done + [c % 58]) + before[i + 1..]
            && done + CarryStep(before[i..], carry) == (done + [c % 58]) + CarryStep(before[i + 1..], c / 58)
  {
    hide CarryStep;
    var c := carry + before[i] * 256;
    CarryStepOn(before[i..], carry);
    assert before[i..][1..] == before[i + 1..] && before[i..][0] == before[i];
    assert c <= 57 * 256 + 255;
  }

  method Encode(bytes: seq<Byte>) returns (text: string)
    ensures text == Base58(bytes)
  {
    var digits: seq<nat> := [0];
    for k := 0 to |bytes|
      invariant DigitList(digits)
      invariant ValueUp(digits) == Value(bytes[..k], 256)
    {
      var before := digits;
      digits := AddByte(before, bytes[k]);
      CarryStepKeepsDigitList(before, bytes[k]);
      ValueOfCarryStep(before, bytes[k]);
      ValueAppend(bytes[..k], bytes[k], 256);
      assert bytes[..k + 1] == bytes[..k] + [bytes[k]];
    }
    assert bytes[..|bytes|] == bytes;
    var out := "";
    var z := 0;
    while z < |bytes| && bytes[z] == 0
      invariant z <= |bytes|
      invariant forall j :: 0 <= j < z ==> bytes[j] == 0
      invariant out == seq(z, _ => '1')
    {
      out := out + "1";
      z := z + 1;
    }
    Assembled(bytes, digits, z);
    if |digits| == 1 && digits[0] == 0 {
      text := out;
    } else {
      text := out + Letters(Reversed(digits));
    }
  }

  /** A digit list with the right value, behind its leading ones, is the whole text. */
  lemma Assembled(bytes: seq<Byte>, digits: seq<nat>, z: nat)
    requires DigitList(digits) && ValueUp(digits) == Value(bytes, 256)
    requires z <= |bytes| && (forall j :: 0 <= j < z ==> bytes[j] == 0) && (z < |bytes| ==> bytes[z] != 0)
    ensures DigitsOf(Reversed(digits), 58)
    ensures Base58(bytes) == seq(z, _ => '1') + if digits == [0] then "" else Letters(Reversed(digits))
  {
    hide Value, ValueUp, Numeral, LeadingZeros;
    var ds: seq<nat> := bytes;
    assert z == LeadingZeros(ds);
    LeadingZerosWorthNothing(ds, z, 256);
    ValueUpIsValue(digits);
    var r := Reversed(digits);
    if digits == [0] {
      AllZeros(r, 58);
      assert Numeral(0, 58) == [];
      assert Convert(ds, 256, 58) == Zeros(z);
    } else {
      assert r[0] != 0;
      NumeralOfValue(r, 58);
      assert Convert(ds, 256, 58) == Zeros(z) + r;
    }
  }

  lemma {:induction false} LeadingZerosWorthNothing(ds: seq<nat>, k: nat, base: nat)
    requires k <= |ds| && forall i :: 0 <= i < k ==> ds[i] == 0
    ensures Value(ds[k..], base) == Value(ds, base)
  {
    if |ds| > k {
      var rest := ds[..|ds| - 1];
      LeadingZerosWorthNothing(rest, k, base);
      assert ds[k..] == rest[k..] + [ds[|ds| - 1]];
      ValueAppend(rest[k..], ds[|ds| - 1], base);
    } else {
      AllZeros(ds, base);
    }
  }

  lemma {:induction false} AllZeros(ds: seq<nat>, base: nat)
    requires forall i :: 0 <= i < |ds| ==> ds[i] == 0
    ensures Value(ds, base) == 0
  {
    if ds != [] { AllZeros(ds[..|ds| - 1], base); }
  }

  // ---------- a decoder undoes the encoder ----------

  /** The alphabet by character ranges. */
  function Letter(d: nat): char
    requires d < 58
  {
    (if d < 9 then '1' as int + d
     else if d < 17 then 'A' as int + d - 9
     else if d < 22 then 'J' as int + d - 17
     else if d < 33 then 'P' as int + d - 22
     else if d < 44 then 'a' as int + d - 33
     else 'm' as int + d - 44) as char
  }

  lemma AlphabetLetter(d: nat)
    requires d < 58
    ensures ALPHABET[d] == Letter(d)
  {
    assert d < 9 ==> ALPHABET[d] == "123456789"[d];
    assert 9 <= d < 17 ==> ALPHABET[d] == "ABCDEFGH"[d - 9];
    assert 17 <= d < 22 ==> ALPHABET[d] == "JKLMN"[d - 17];
    assert 22 <= d < 33 ==> ALPHABET[d] == "PQRSTUVWXYZ"[d - 22];
    assert 33 <= d < 44 ==> ALPHABET[d] == "abcdefghijk"[d - 33];
    assert 44 <= d ==> ALPHABET[d] == "mnopqrstuvwxyz"[d - 44];
  }

  function LetterIndex(c: char): (r: Option<nat>)
    ensures r.Some? ==> r.value < 58 && Letter(r.value) == c
  {
    if '1' <= c <= '9' then Some(c as int - '1' as int)
    else if 'A' <= c <= 'H' then Some(c as int - 'A' as int + 9)
    else if 'J' <= c <= 'N' then Some(c as int - 'J' as int + 17)
    else if 'P' <= c <= 'Z' then Some(c as int - 'P' as int + 22)
    else if 'a' <= c <= 'k' then Some(c as int - 'a' as int + 33)
    else if 'm' <= c <= 'z' then Some(c as int - 'm' as int + 44)
    else None
  }

  function Indices(text: string): (r: Option<seq<nat>>)
    ensures r.Some? ==> DigitsOf(r.value, 58) && Letters(r.value) == text
    ensures r.None? ==> exists i :: 0 <= i < |text| && text[i] !in ALPHABET
  {
    if text == "" then Some([])
    else
      match (LetterIndex(text[0]), Indices(text[1..]))
      case (Some(d), Some(rest)) =>
        AlphabetLetter(d);
        assert text == [text[0]] + text[1..];
        Some([d] + rest)
      case (None, _) => NotALetter(text[0]); assert text[0] !in ALPHABET; None
      case (_, None) =>
        var i :| 0 <= i < |text[1..]| && text[1..][i] !in ALPHABET;
        assert text[1 + i] !in ALPHABET;
        None
  }

  lemma NotALetter(c: char)
    requires LetterIndex(c).None?
    ensures c !in ALPHABET
  {
    forall d: nat | d < 58 ensures ALPHABET[d] != c { AlphabetLetter(d); }
  }

  /** The inverse a wallet uses: letters to digits, digits back to bytes. */
  function Decode(text: string): Option<seq<Byte>> {
    match Indices(text)
    case None => None
    case Some(ds) =>
      var bytes: seq<Byte> := Convert(ds, 58, 256);
      Some(bytes)
  }

  lemma IndexOfLetter(d: nat)
    requires d < 58
    ensures LetterIndex(Letter(d)) == Some(d)
  {
  }

  lemma {:induction false} IndicesOfLetters(ds: seq<nat>)
    requires DigitsOf(ds, 58)
    ensures Indices(Letters(ds)) == Some(ds)
  {
    if ds != [] {
      AlphabetLetter(ds[0]);
      IndexOfLetter(ds[0]);
      IndicesOfLetters(ds[1..]);
      assert ds == [ds[0]] + ds[1..];
      assert Letters(ds)[1..] == Letters(ds[1..]);
    }
  }

  /** Decoding the text of any byte string returns that byte string. */
  lemma DecodeOfBase58(bytes: seq<Byte>)
    ensures Decode(Base58(bytes)) == Some(bytes)
  {
    var ds: seq<nat> := bytes;
    IndicesOfLetters(Convert(ds, 256, 58));
    ConvertBack(ds, 256, 58);
  }

  /** Every text over the alphabet, and no other, is the text of exactly one byte string. */
  lemma Base58OfDecode(text: string)
    ensures Decode(text).Some? <==> forall i :: 0 <= i < |text| ==> text[i] in ALPHABET
    ensures Decode(text).Some? ==> Base58(Decode(text).value) == text
  {
    if Decode(text).Some? {
      ConvertBack(Indices(text).value, 58, 256);
    }
  }

  lemma Base58Injective(a: seq<Byte>, b: seq<Byte>)
    requires Base58(a) == Base58(b)
    ensures a == b
  {
    DecodeOfBase58(a);
    DecodeOfBase58(b);
  }
}
