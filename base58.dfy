/**
 * Bitcoin-style base58, as the channel identifier is encoded: the bytes are
 * read as one big-endian number written in base 58, and every leading zero
 * byte becomes a leading '1'. The alphabet
 *   123456789ABCDEFGHJKLMNPQRSTUVWXYZabcdefghijkmnopqrstuvwxyz
 * leaves out 0, O, I, l and every punctuation character, '=' included.
 */
module Base58 {
  import opened Bytes

  /** The alphabet as character ranges: 1-9, A-H, J-N, P-Z, a-k, m-z. */
  predicate InAlphabet(c: char) {
    ('1' <= c <= '9') || ('A' <= c <= 'H') || ('J' <= c <= 'N') ||
    ('P' <= c <= 'Z') || ('a' <= c <= 'k') || ('m' <= c <= 'z')
  }

  /** The symbol of base-58 digit d. */
  function Symbol(d: nat): (c: char)
    requires d < 58
    ensures InAlphabet(c)
    ensures c == '1' <==> d == 0
  {
    if d < 9 then ('1' as int + d) as char
    else if d < 17 then ('A' as int + (d - 9)) as char
    else if d < 22 then ('J' as int + (d - 17)) as char
    else if d < 33 then ('P' as int + (d - 22)) as char
    else if d < 44 then ('a' as int + (d - 33)) as char
    else ('m' as int + (d - 44)) as char
  }

  /** The digit a symbol stands for. */
  function DigitOf(c: char): (d: nat)
    requires InAlphabet(c)
    ensures d < 58 && Symbol(d) == c
  {
    if c <= '9' then c as int - '1' as int
    else if c <= 'H' then 9 + (c as int - 'A' as int)
    else if c <= 'N' then 17 + (c as int - 'J' as int)
    else if c <= 'Z' then 22 + (c as int - 'P' as int)
    else if c <= 'k' then 33 + (c as int - 'a' as int)
    else 44 + (c as int - 'm' as int)
  }

  /** Symbols stand for exactly one digit each. */
  lemma DigitOfSymbol(d: nat)
    requires d < 58
    ensures DigitOf(Symbol(d)) == d
  {
  }

  /** The number a byte string denotes, most significant byte first. */
  function ValueOf(bytes: seq<Byte>): nat {
    if bytes == [] then 0 else ValueOf(bytes[..|bytes| - 1]) * 256 + bytes[|bytes| - 1]
  }

  /** The minimal big-endian byte string of n (empty for zero), as big.Int.Bytes gives it. */
  function BytesOf(n: nat): seq<Byte> {
    if n == 0 then [] else BytesOf(n / 256) + [n % 256]
  }

  function LeadingZeros(bytes: seq<Byte>): (z: nat)
    ensures z <= |bytes|
    ensures forall i :: 0 <= i < z ==> bytes[i] == 0
    ensures z < |bytes| ==> bytes[z] != 0
  {
    if bytes == [] || bytes[0] != 0 then 0 else 1 + LeadingZeros(bytes[1..])
  }

  function LeadingOnes(s: string): (z: nat)
    ensures z <= |s|
  {
    if s == [] || s[0] != '1' then 0 else 1 + LeadingOnes(s[1..])
  }

  function Zeros(n: nat): (r: seq<Byte>)
    ensures |r| == n
  {
    if n == 0 then [] else [0] + Zeros(n - 1)
  }

  function Ones(n: nat): (r: string)
    ensures |r| == n
    ensures forall i :: 0 <= i < n ==> r[i] == '1'
  {
    if n == 0 then [] else ['1'] + Ones(n - 1)
  }

  /** The base-58 digits of n, most significant first, with no leading zero digit. */
  function Digits(n: nat): (s: string)
    ensures forall i :: 0 <= i < |s| ==> InAlphabet(s[i])
    ensures n > 0 ==> |s| > 0 && s[0] != '1'
    ensures n == 0 ==> s == []
  {
    if n == 0 then [] else Digits(n / 58) + [Symbol(n % 58)]
  }

  /** The number a string of symbols denotes, most significant first. */
  function DigitsValue(s: string): nat
    requires forall i :: 0 <= i < |s| ==> InAlphabet(s[i])
  {
    if s == [] then 0 else DigitsValue(s[..|s| - 1]) * 58 + DigitOf(s[|s| - 1])
  }

  /** The encoding the channel identifier is made of. */
  function Encode(bytes: seq<Byte>): (s: string)
    ensures forall i :: 0 <= i < |s| ==> InAlphabet(s[i])
    ensures '=' !in s
  {
    Ones(LeadingZeros(bytes)) + Digits(ValueOf(bytes))
  }

  /** The decoder matching Encode, for strings of alphabet symbols. */
  function Decode(s: string): seq<Byte>
    requires forall i :: 0 <= i < |s| ==> InAlphabet(s[i])
  {
    var z := LeadingOnes(s);
    Zeros(z) + BytesOf(DigitsValue(s[z..]))
  }

  lemma {:induction false} DigitsValueOfDigits(n: nat)
    ensures DigitsValue(Digits(n)) == n
    decreases n
  {
    if n > 0 {
      var s := Digits(n);
      var init := Digits(n / 58);
      assert s == init + [Symbol(n % 58)];
      assert s[..|s| - 1] == init;
      DigitsValueOfDigits(n / 58);
      DigitOfSymbol(n % 58);
    }
  }

  lemma {:induction false} LeadingOnesOfEncoding(z: nat, t: string)
    requires t == [] || t[0] != '1'
    ensures LeadingOnes(Ones(z) + t) == z
    ensures (Ones(z) + t)[z..] == t
    decreases z
  {
    if z > 0 {
      assert Ones(z) + t == ['1'] + (Ones(z - 1) + t);
      assert (Ones(z) + t)[1..] == Ones(z - 1) + t;
      LeadingOnesOfEncoding(z - 1, t);
    }
  }

  /** A zero byte in front does not change the number. */
  lemma {:induction false} ValueOfZeroFront(c: seq<Byte>)
    ensures ValueOf([0] + c) == ValueOf(c)
    decreases |c|
  {
    if c != [] {
      var init := c[..|c| - 1];
      assert ([0] + c)[..|[0] + c| - 1] == [0] + init;
      ValueOfZeroFront(init);
    }
  }

  /** Leading zero bytes do not change the number. */
  lemma {:induction false} ValueOfSkipsLeadingZeros(bytes: seq<Byte>)
    ensures ValueOf(bytes) == ValueOf(bytes[LeadingZeros(bytes)..])
    decreases |bytes|
  {
    if bytes != [] && bytes[0] == 0 {
      assert bytes == [0] + bytes[1..];
      ValueOfZeroFront(bytes[1..]);
      ValueOfSkipsLeadingZeros(bytes[1..]);
      assert bytes[LeadingZeros(bytes)..] == bytes[1..][LeadingZeros(bytes[1..])..];
    }
  }

  /** The leading zero bytes are Zeros of their count. */
  lemma {:induction false} LeadingZerosAreZeros(bytes: seq<Byte>)
    ensures bytes[..LeadingZeros(bytes)] == Zeros(LeadingZeros(bytes))
    decreases |bytes|
  {
    if bytes != [] && bytes[0] == 0 {
      LeadingZerosAreZeros(bytes[1..]);
      assert bytes[..LeadingZeros(bytes)] == [0] + bytes[1..][..LeadingZeros(bytes[1..])];
    }
  }

  lemma {:induction false} ValueOfPositive(c: seq<Byte>)
    requires c != [] && c[0] != 0
    ensures ValueOf(c) > 0
    decreases |c|
  {
    if |c| > 1 {
      ValueOfPositive(c[..|c| - 1]);
    }
  }

  /** Byte strings without a leading zero are exactly the minimal encodings of their value. */
  lemma {:induction false} BytesOfValueOf(c: seq<Byte>)
    requires c == [] || c[0] != 0
    ensures BytesOf(ValueOf(c)) == c
    decreases |c|
  {
    if c != [] {
      var init := c[..|c| - 1];
      var n := ValueOf(c);
      ValueOfPositive(c);
      assert n / 256 == ValueOf(init) && n % 256 == c[|c| - 1];
      BytesOfValueOf(init);
      assert c == init + [c[|c| - 1]];
    }
  }

  /** An encoding is its leading ones followed by the digits of the value. */
  lemma EncodingSplits(bytes: seq<Byte>)
    ensures LeadingOnes(Encode(bytes)) == LeadingZeros(bytes)
    ensures Encode(bytes)[LeadingZeros(bytes)..] == Digits(ValueOf(bytes))
  {
    LeadingOnesOfEncoding(LeadingZeros(bytes), Digits(ValueOf(bytes)));
  }

  /** A byte string is its leading zero bytes followed by the rest. */
  lemma SplitLeadingZeros(bytes: seq<Byte>)
    ensures bytes == Zeros(LeadingZeros(bytes)) + bytes[LeadingZeros(bytes)..]
  {
    var z := LeadingZeros(bytes);
    LeadingZerosAreZeros(bytes);
    assert bytes == bytes[..z] + bytes[z..];
  }

  /** The value, written back as minimal bytes, is what follows the leading zero bytes. */
  lemma ValueRoundTrip(bytes: seq<Byte>)
    ensures bytes == Zeros(LeadingZeros(bytes)) + BytesOf(ValueOf(bytes))
  {
    var z := LeadingZeros(bytes);
    var rest := bytes[z..];
    ValueOfSkipsLeadingZeros(bytes);
    assert rest == [] || rest[0] == bytes[z];
    BytesOfValueOf(rest);
    SplitLeadingZeros(bytes);
  }

  /** Decoding an encoding gives back the bytes, leading zero bytes included. */
  lemma DecodeEncode(bytes: seq<Byte>)
    ensures Decode(Encode(bytes)) == bytes
  {
    var s := Encode(bytes);
    var z := LeadingZeros(bytes);
    EncodingSplits(bytes);
    DigitsValueOfDigits(ValueOf(bytes));
    assert DigitsValue(s[z..]) == ValueOf(bytes);
    ValueRoundTrip(bytes);
  }

  /** Different byte strings have different encodings. */
  lemma EncodeInjective(a: seq<Byte>, b: seq<Byte>)
    requires a != b
    ensures Encode(a) != Encode(b)
  {
    DecodeEncode(a);
    DecodeEncode(b);
  }
}
