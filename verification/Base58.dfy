// Base58 address recognition (front/next.config.ts).
//
// Numbers are sequences of digits, most significant first. `Convert` rewrites
// a digit sequence from one base to another and carries leading zeros over one
// for one, which is the leading-zero rule of draft-msporny-base58 (sections 3
// and 4). Encoding is `Convert` from base 256 to base 58, decoding is the
// opposite direction; that the two undo each other rests on one fact, that a
// digit sequence is its leading zeros followed by the only minimal
// representation of its value (NormalForm).
module Base58 {

  /** Digits, upper-case and lower-case letters, in runs broken where 0, I, O and l are left out. */
  const ALPHABET := "123456789" + "ABCDEFGH" + "JKLMN" + "PQRSTUVWXYZ" + "abcdefghijk" + "mnopqrstuvwxyz"

  type Byte = b: int | 0 <= b < 256

  // ---- positional numbers ------------------------------------------------

  predicate IsDigits(ds: seq<int>, base: nat) {
    forall i | 0 <= i < |ds| :: 0 <= ds[i] < base
  }

  function Value(ds: seq<int>, base: nat): int {
    if ds == [] then 0 else Value(ds[..|ds| - 1], base) * base + ds[|ds| - 1]
  }

  /** The representation of `n` without leading zeros (empty for zero). */
  function Minimal(n: nat, base: nat): (ds: seq<int>)
    requires base >= 2
    ensures IsDigits(ds, base)
    ensures ds != [] ==> ds[0] != 0
    decreases n
  {
    if n == 0 then [] else Quotient(n, base); Minimal(n / base, base) + [n % base]
  }

  function Zeros(k: nat): (ds: seq<int>)
    ensures |ds| == k && forall i | 0 <= i < k :: ds[i] == 0
  {
    seq(k, _ => 0)
  }

  function LeadingZeros(ds: seq<int>): (k: nat)
    ensures k <= |ds|
    ensures forall i | 0 <= i < k :: ds[i] == 0
    ensures k < |ds| ==> ds[k] != 0
  {
    if ds == [] || ds[0] != 0 then 0 else 1 + LeadingZeros(ds[1..])
  }

  function Convert(ds: seq<int>, from: nat, to: nat): (out: seq<int>)
    requires from >= 2 && to >= 2 && IsDigits(ds, from)
    ensures IsDigits(out, to)
  {
    ValueNonNegative(ds, from);
    Zeros(LeadingZeros(ds)) + Minimal(Value(ds, from), to)
  }

  lemma Quotient(n: nat, base: nat)
    requires n > 0 && base >= 2
    ensures 0 <= n / base < n
    ensures n == n / base * base + n % base
  {
  }

  lemma {:induction false} ValueNonNegative(ds: seq<int>, base: nat)
    requires IsDigits(ds, base)
    ensures Value(ds, base) >= 0
  {
    if ds != [] {
      ValueNonNegative(ds[..|ds| - 1], base);
    }
  }

  lemma DivideBack(q: nat, r: nat, base: nat)
    requires r < base
    ensures (q * base + r) / base == q && (q * base + r) % base == r
  {
    var n := q * base + r;
    var d := n / base - q;
    assert d * base == r - n % base;
  }

  lemma {:induction false} ValueOfMinimal(n: nat, base: nat)
    requires base >= 2
    ensures Value(Minimal(n, base), base) == n
    decreases n
  {
    if n > 0 {
      Quotient(n, base);
      ValueOfMinimal(n / base, base);
      assert Minimal(n, base)[..|Minimal(n, base)| - 1] == Minimal(n / base, base);
    }
  }

  lemma {:induction false} ValueOfZeros(k: nat, ds: seq<int>, base: nat)
    ensures Value(Zeros(k) + ds, base) == Value(ds, base)
    decreases |ds|, k
  {
    var all := Zeros(k) + ds;
    if ds != [] {
      assert all[..|all| - 1] == Zeros(k) + ds[..|ds| - 1];
      ValueOfZeros(k, ds[..|ds| - 1], base);
    } else if k > 0 {
      assert all[..|all| - 1] == Zeros(k - 1) + [];
      ValueOfZeros(k - 1, [], base);
    }
  }

  /** A digit sequence that does not start with zero is the minimal form of its value. */
  lemma {:induction false} MinimalOfValue(ds: seq<int>, base: nat)
    requires base >= 2 && IsDigits(ds, base)
    requires ds != [] ==> ds[0] != 0
    ensures Value(ds, base) >= 0 && Minimal(Value(ds, base), base) == ds
    ensures ds != [] ==> Value(ds, base) > 0
  {
    if ds != [] {
      var init, last := ds[..|ds| - 1], ds[|ds| - 1];
      MinimalOfValue(init, base);
      AppendDigit(Value(init, base), last, base);
      assert init == [] ==> last != 0;
      assert ds == init + [last];
    }
  }

  lemma AppendDigit(q: nat, r: nat, base: nat)
    requires base >= 2 && r < base && (q > 0 || r > 0)
    ensures q * base + r > 0
    ensures Minimal(q * base + r, base) == Minimal(q, base) + [r]
  {
    assert q > 0 ==> q * base > 0;
    DivideBack(q, r, base);
  }

  /** Digits are unique: leading zeros, then the minimal form of the value. */
  lemma NormalForm(ds: seq<int>, base: nat)
    requires base >= 2 && IsDigits(ds, base)
    ensures Value(ds, base) >= 0
    ensures ds == Zeros(LeadingZeros(ds)) + Minimal(Value(ds, base), base)
  {
    var k := LeadingZeros(ds);
    assert ds == Zeros(k) + ds[k..];
    MinimalOfValue(ds[k..], base);
    ValueOfZeros(k, ds[k..], base);
  }

  lemma {:induction false} LeadingZerosOf(k: nat, ds: seq<int>)
    requires ds != [] ==> ds[0] != 0
    ensures LeadingZeros(Zeros(k) + ds) == k
  {
    var all := Zeros(k) + ds;
    assert ds != [] ==> all[k] == ds[0];
  }

  lemma ConvertBack(ds: seq<int>, a: nat, b: nat)
    requires a >= 2 && b >= 2 && IsDigits(ds, a)
    ensures Convert(Convert(ds, a, b), b, a) == ds
  {
    NormalForm(ds, a);
    var n, k := Value(ds, a), LeadingZeros(ds);
    LeadingZerosOf(k, Minimal(n, b));
    ValueOfZeros(k, Minimal(n, b), b);
    ValueOfMinimal(n, b);
  }

  // ---- lengths -----------------------------------------------------------

  function Pow(base: nat, e: nat): nat {
    if e == 0 then 1 else base * Pow(base, e - 1)
  }

  lemma QuotientBelow(n: nat, base: nat, m: nat)
    requires base >= 2 && n < base * m
    ensures n / base < m
  {
    assert n / base * base <= n;
  }

  lemma {:induction false} LengthBelow(n: nat, base: nat, e: nat)
    requires base >= 2 && n < Pow(base, e)
    ensures |Minimal(n, base)| <= e
    decreases e
  {
    if n > 0 {
      Quotient(n, base);
      QuotientBelow(n, base, Pow(base, e - 1));
      LengthBelow(n / base, base, e - 1);
    }
  }

  lemma {:induction false} ValueBelow(ds: seq<int>, base: nat)
    requires IsDigits(ds, base)
    ensures Value(ds, base) < Pow(base, |ds|)
  {
    if ds != [] {
      var init := ds[..|ds| - 1];
      ValueBelow(init, base);
      ValueNonNegative(init, base);
      AppendBelow(Value(init, base), ds[|ds| - 1], base, Pow(base, |init|));
    }
  }

  lemma AppendBelow(v: nat, r: nat, base: nat, bound: nat)
    requires v < bound && r < base
    ensures v * base + r < base * bound
  {
    assert (v + 1) * base <= bound * base;
  }

  /** Two hex digits to a byte, rounded up: the byte length the source reads off a hex string. */
  lemma {:induction false} HexLengthIsByteLength(n: nat)
    ensures |Minimal(n, 256)| == (|Minimal(n, 16)| + 1) / 2
    decreases n
  {
    if n >= 256 {
      assert n / 16 / 16 == n / 256;
      HexLengthIsByteLength(n / 256);
      assert |Minimal(n, 16)| == |Minimal(n / 16, 16)| + 1 == |Minimal(n / 256, 16)| + 2;
      assert |Minimal(n, 256)| == |Minimal(n / 256, 256)| + 1;
    } else if n > 0 {
      assert |Minimal(n / 256, 256)| == 0;
      assert |Minimal(n, 256)| == 1;
      assert |Minimal(n, 16)| == |Minimal(n / 16, 16)| + 1;
      if n >= 16 {
        assert n / 16 / 16 == 0;
        assert |Minimal(n / 16, 16)| == |Minimal(0, 16)| + 1;
      }
    }
  }

  /** 256^k < 58^(k + 12) for every k up to 32: twelve extra base-58 digits are always enough. */
  lemma {:induction false} TwelveMoreDigits(k: nat)
    requires k <= 32
    ensures Pow(256, k) < Pow(58, k + 12)
    decreases 32 - k
  {
    if k == 32 {
      Top();
    } else {
      TwelveMoreDigits(k + 1);
      assert Pow(256, k + 1) == 256 * Pow(256, k);
      assert Pow(58, k + 13) == 58 * Pow(58, k + 12);
    }
  }

  lemma {:induction false} PowAdd(base: nat, a: nat, b: nat)
    ensures Pow(base, a + b) == Pow(base, a) * Pow(base, b)
  {
    if a > 0 {
      PowAdd(base, a - 1, b);
      Associate(base, Pow(base, a - 1), Pow(base, b));
    }
  }

  lemma Associate(x: nat, y: nat, z: nat)
    ensures x * (y * z) == x * y * z
  {
  }

  lemma Top()
    ensures Pow(256, 32) < Pow(58, 44)
  {
    assert Pow(58, 4) == 11316496;
    PowAdd(58, 4, 4);
    PowAdd(58, 8, 3);
    assert Pow(58, 3) == 195112;
    assert Pow(58, 11) == 24986644000165537792;
    PowAdd(58, 11, 11);
    PowAdd(58, 22, 22);
    assert Pow(256, 4) == 4294967296;
    PowAdd(256, 4, 4);
    assert Pow(256, 8) == 18446744073709551616;
    PowAdd(256, 8, 8);
    PowAdd(256, 16, 16);
    var a, b := Pow(256, 8), Pow(58, 11);
    assert a * a < b * b;
    assert Pow(256, 16) == a * a && Pow(58, 22) == b * b;
  }

  lemma {:induction false} FewerBytesThanDigits(n: nat)
    ensures |Minimal(n, 256)| <= |Minimal(n, 58)|
  {
    ValueOfMinimal(n, 58);
    ValueBelow(Minimal(n, 58), 58);
    PowMonotone(|Minimal(n, 58)|);
    LengthBelow(n, 256, |Minimal(n, 58)|);
  }

  lemma {:induction false} PowMonotone(e: nat)
    ensures Pow(58, e) <= Pow(256, e)
  {
    if e > 0 {
      PowMonotone(e - 1);
    }
  }

  /**
   * The source's 32 to 44 character screen rejects nothing: whatever decodes
   * to 32 bytes, however its zeros are split between the two rules, is between
   * 32 and 44 characters long.
   */
  lemma ScreenRejectsNothing(ds: seq<int>)
    requires IsDigits(ds, 58)
    requires |Convert(ds, 58, 256)| == 32
    ensures 32 <= |ds| <= 44
  {
    NormalForm(ds, 58);
    var n, k := Value(ds, 58), LeadingZeros(ds);
    FewerBytesThanDigits(n);
    var bytes := Minimal(n, 256);
    ValueOfMinimal(n, 256);
    ValueBelow(bytes, 256);
    TwelveMoreDigits(|bytes|);
    LengthBelow(n, 58, |bytes| + 12);
    assert k + |bytes| == 32;
  }

  // ---- characters --------------------------------------------------------

  /** The first position of `c` in the alphabet from `i` on, or -1 (JavaScript's indexOf). */
  function IndexFrom(c: char, i: nat): (k: int)
    requires i <= |ALPHABET|
    ensures k == -1 || i <= k < |ALPHABET|
    ensures k >= 0 ==> ALPHABET[k] == c
    ensures k == -1 ==> forall j | i <= j < |ALPHABET| :: ALPHABET[j] != c
    decreases |ALPHABET| - i
  {
    if i == |ALPHABET| then -1 else if ALPHABET[i] == c then i else IndexFrom(c, i + 1)
  }

  function IndexOf(c: char): (k: int)
    ensures -1 <= k < 58
  {
    IndexFrom(c, 0)
  }

  predicate Recognised(s: string) {
    forall i | 0 <= i < |s| :: IndexOf(s[i]) >= 0
  }

  function DigitsOf(s: string): (ds: seq<int>)
    requires Recognised(s)
    ensures |ds| == |s| && IsDigits(ds, 58)
    ensures forall i | 0 <= i < |s| :: ds[i] == IndexOf(s[i])
  {
    seq(|s|, i requires 0 <= i < |s| => IndexOf(s[i]))
  }

  function CharsOf(ds: seq<int>): (s: string)
    requires IsDigits(ds, 58)
    ensures |s| == |ds| && forall i | 0 <= i < |ds| :: s[i] == ALPHABET[ds[i]]
  {
    seq(|ds|, i requires 0 <= i < |ds| => ALPHABET[ds[i]])
  }

  lemma {:induction false} AlphabetAscends(i: nat, j: nat)
    requires i < j < |ALPHABET|
    ensures ALPHABET[i] < ALPHABET[j]
    decreases j
  {
    assert forall k | 0 <= k < |ALPHABET| - 1 :: ALPHABET[k] < ALPHABET[k + 1];
    if i + 1 < j {
      AlphabetAscends(i, j - 1);
    }
  }

  lemma IndexOfCharacter(d: int)
    requires 0 <= d < 58
    ensures IndexOf(ALPHABET[d]) == d
  {
    var k := IndexOf(ALPHABET[d]);
    if 0 <= k < d {
      AlphabetAscends(k, d);
    } else if d < k {
      AlphabetAscends(d, k);
    }
  }

  lemma CharactersRoundTrip(ds: seq<int>)
    requires IsDigits(ds, 58)
    ensures Recognised(CharsOf(ds)) && DigitsOf(CharsOf(ds)) == ds
  {
    forall i | 0 <= i < |ds| ensures IndexOf(CharsOf(ds)[i]) == ds[i] {
      IndexOfCharacter(ds[i]);
    }
  }

  // ---- encoding and decoding ---------------------------------------------

  datatype Decoded = Malformed | Bytes(bytes: seq<Byte>)

  function Encode(bytes: seq<Byte>): string {
    CharsOf(Convert(bytes, 256, 58))
  }

  function AsBytes(ds: seq<int>): (out: seq<Byte>)
    requires IsDigits(ds, 256)
    ensures out == ds
  {
    seq(|ds|, i requires 0 <= i < |ds| => ds[i])
  }

  function Decode(s: string): Decoded {
    if Recognised(s) then Bytes(AsBytes(Convert(DigitsOf(s), 58, 256))) else Malformed
  }

  lemma DecodeOfEncode(bytes: seq<Byte>)
    ensures Decode(Encode(bytes)) == Bytes(bytes)
  {
    CharactersRoundTrip(Convert(bytes, 256, 58));
    ConvertBack(bytes, 256, 58);
  }

  lemma EncodeOfDecode(s: string)
    requires Decode(s).Bytes?
    ensures Encode(Decode(s).bytes) == s
  {
    var ds := DigitsOf(s);
    ConvertBack(ds, 58, 256);
    assert CharsOf(ds) == s;
  }

  /** What the recogniser is for: the 32-byte sequence a string encodes is there, and is the only one. */
  lemma AddressIsUnique(s: string, a: seq<Byte>, b: seq<Byte>)
    requires Encode(a) == s && Encode(b) == s
    ensures a == b
  {
    DecodeOfEncode(a);
    DecodeOfEncode(b);
  }

  ghost predicate EncodesAddress(s: string) {
    exists bytes: seq<Byte> :: |bytes| == 32 && Encode(bytes) == s
  }

  lemma AddressesDecode(s: string)
    ensures EncodesAddress(s) <==> Decode(s).Bytes? && |Decode(s).bytes| == 32
  {
    if EncodesAddress(s) {
      var bytes: seq<Byte> :| |bytes| == 32 && Encode(bytes) == s;
      DecodeOfEncode(bytes);
    } else if Decode(s).Bytes? {
      EncodeOfDecode(s);
    }
  }

  lemma AddressesAreScreened(s: string)
    requires EncodesAddress(s)
    ensures 32 <= |s| <= 44
  {
    AddressesDecode(s);
    ScreenRejectsNothing(DigitsOf(s));
  }

  lemma CountedZeros(s: string, k: nat)
    requires Recognised(s) && k <= |s|
    requires forall i | 0 <= i < k :: s[i] == '1'
    requires k < |s| ==> s[k] != '1'
    ensures LeadingZeros(DigitsOf(s)) == k
  {
    var ds := DigitsOf(s);
    IndexOfCharacter(0);
    assert forall i | 0 <= i < |s| :: ds[i] == 0 <==> s[i] == ALPHABET[0];
    assert k < |s| ==> ds[k] != 0;
  }

  lemma OneMoreDigit(s: string, i: nat)
    requires i < |s| && Recognised(s[..i]) && IndexOf(s[i]) >= 0
    ensures Recognised(s[..i + 1])
    ensures Value(DigitsOf(s[..i + 1]), 58) == Value(DigitsOf(s[..i]), 58) * 58 + IndexOf(s[i])
  {
    assert DigitsOf(s[..i + 1])[..i] == DigitsOf(s[..i]);
  }

  /** The number the digit loop builds, or -1 for a character outside the alphabet. */
  method ReadNumber(value: string) returns (n: int)
    ensures n == -1 <==> !Recognised(value)
    ensures Recognised(value) ==> n == Value(DigitsOf(value), 58)
  {
    n := 0;
    for i := 0 to |value|
      invariant Recognised(value[..i])
      invariant n == Value(DigitsOf(value[..i]), 58) >= 0
    {
      var digit := IndexOf(value[i]);
      if digit < 0 {
        return -1;
      }
      OneMoreDigit(value, i);
      n := n * 58 + digit;
    }
    assert value[..|value|] == value;
  }

  lemma UnrecognisedDecode(s: string)
    requires !Recognised(s)
    ensures !Decode(s).Bytes?
  {
  }

  /** An address is what its leading ones and its hex length add up to: 32 bytes. */
  lemma AddressByParts(s: string, n: nat, zeros: nat)
    requires Recognised(s) && n == Value(DigitsOf(s), 58) && zeros == LeadingZeros(DigitsOf(s))
    ensures EncodesAddress(s) <==> zeros + (if n == 0 then 0 else (|Minimal(n, 16)| + 1) / 2) == 32
  {
    AddressesDecode(s);
    HexLengthIsByteLength(n);
  }

  /** `isBase58Address`: a length screen, a big-integer loop, a leading-zero count and a hex length. */
  method IsBase58Address(value: string) returns (ok: bool)
    ensures ok <==> EncodesAddress(value)
  {
    hide Minimal, Encode, Decode, EncodesAddress, Recognised, DigitsOf;
    if |value| < 32 || |value| > 44 {
      if EncodesAddress(value) { AddressesAreScreened(value); }
      return false;
    }
    var n := ReadNumber(value);
    if n == -1 {
      AddressesDecode(value);
      assert !EncodesAddress(value) by { UnrecognisedDecode(value); }
      return false;
    }
    var leadingZeros := 0;
    while leadingZeros < |value| && value[leadingZeros] == '1'
      invariant 0 <= leadingZeros <= |value|
      invariant forall i | 0 <= i < leadingZeros :: value[i] == '1'
    {
      leadingZeros := leadingZeros + 1;
    }
    CountedZeros(value, leadingZeros);
    ValueNonNegative(DigitsOf(value), 58);
    var bodyBytes := if n == 0 then 0 else (|Minimal(n, 16)| + 1) / 2;
    AddressByParts(value, n, leadingZeros);
    ok := leadingZeros + bodyBytes == 32;
  }
}
