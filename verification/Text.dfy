/** The text conversions JSON fields go through: decimal strings, BigInt parsing and hex calldata. */
module Text {
  import opened Types

  function Digit(d: nat): char
    requires d < 10
  {
    '0' + d as char
  }

  /** BigInt.prototype.toString on a non-negative number. */
  function ToDecimal(n: nat): string {
    if n < 10 then [Digit(n)] else ToDecimal(n / 10) + [Digit(n % 10)]
  }

  function DigitValue(c: char): nat {
    if '0' <= c <= '9' then (c - '0') as nat
    else if 'a' <= c <= 'f' then (c - 'a') as nat + 10
    else if 'A' <= c <= 'F' then (c - 'A') as nat + 10
    else 99
  }

  function ParseDigits(s: string, radix: nat): Option<int> {
    if s == [] then None
    else
      var d := DigitValue(s[|s| - 1]);
      if d >= radix then None
      else if |s| == 1 then Some(d)
      else
        match ParseDigits(s[..|s| - 1], radix)
        case None => None
        case Some(high) => Some(high * radix + d)
  }

  /** White space as String.prototype.trim sees it. */
  predicate IsSpace(c: char) {
    var n := c as int;
    n == 0x20 || 0x9 <= n <= 0xD || n == 0xA0 || n == 0x1680 || 0x2000 <= n <= 0x200A
    || n == 0x2028 || n == 0x2029 || n == 0x202F || n == 0x205F || n == 0x3000 || n == 0xFEFF
  }

  function Trim(s: string): string {
    if s != [] && IsSpace(s[0]) then Trim(s[1..])
    else if s != [] && IsSpace(s[|s| - 1]) then Trim(s[..|s| - 1])
    else s
  }

  /** BigInt(s): an empty string is zero, a sign or a radix prefix is allowed, anything else throws. */
  function ParseBigInt(s: string): Option<int> {
    var t := Trim(s);
    if t == [] then Some(0)
    else if |t| > 2 && t[0] == '0' && t[1] in "xX" then ParseDigits(t[2..], 16)
    else if |t| > 2 && t[0] == '0' && t[1] in "oO" then ParseDigits(t[2..], 8)
    else if |t| > 2 && t[0] == '0' && t[1] in "bB" then ParseDigits(t[2..], 2)
    else if t[0] == '-' then
      match ParseDigits(t[1..], 10) case Some(n) => Some(0 - n) case None => None
    else ParseDigits(if t[0] == '+' then t[1..] else t, 10)
  }

  predicate AllDigits(s: string) {
    forall i :: 0 <= i < |s| ==> '0' <= s[i] <= '9'
  }

  lemma {:induction false} DecimalDigits(n: nat)
    ensures ToDecimal(n) != [] && AllDigits(ToDecimal(n))
    ensures ParseDigits(ToDecimal(n), 10) == Some(n)
  {
    if n >= 10 {
      DecimalDigits(n / 10);
      var high := ToDecimal(n / 10);
      assert ToDecimal(n)[..|ToDecimal(n)| - 1] == high;
    }
  }

  /** Printing a number and reading it back gives the number. */
  lemma DecimalRoundTrip(n: nat)
    ensures ParseBigInt(ToDecimal(n)) == Some(n)
  {
    DecimalDigits(n);
    DigitsAreRead(ToDecimal(n));
  }

  /** A string of digits has no white space, sign or radix prefix. */
  lemma DigitsAreRead(s: string)
    requires s != [] && AllDigits(s)
    ensures ParseBigInt(s) == ParseDigits(s, 10)
  {
    assert '0' <= s[0] <= '9' && '0' <= s[|s| - 1] <= '9';
    assert !IsSpace(s[0]) && !IsSpace(s[|s| - 1]);
    assert Trim(s) == s;
    assert |s| > 2 ==> '0' <= s[1] <= '9';
  }

  function LowerChar(c: char): char {
    if 'A' <= c <= 'Z' then (c as int + 32) as char else c
  }

  function Lower(s: string): (r: string)
    ensures |r| == |s| && forall i :: 0 <= i < |s| ==> r[i] == LowerChar(s[i])
  {
    seq(|s|, i requires 0 <= i < |s| => LowerChar(s[i]))
  }

  predicate IsHex(s: string) {
    forall i :: 0 <= i < |s| ==> DigitValue(s[i]) < 16
  }

  /** Calldata in the form both sides compare: lower-case hex behind 0x, and 0x for nothing. */
  function NormalizeTxData(data: string): Option<string> {
    var t := Trim(data);
    if t == "" || t == "0x" || t == "0X" then Some("0x")
    else if |t| < 2 || t[0] != '0' || t[1] !in "xX" || !IsHex(t[2..]) || |t| % 2 != 0 then None
    else Some("0x" + Lower(t[2..]))
  }

  predicate CanonicalData(data: string) {
    NormalizeTxData(data) == Some(data)
  }

  lemma LowerHex(s: string)
    requires IsHex(s)
    ensures IsHex(Lower(s)) && Lower(Lower(s)) == Lower(s)
    ensures forall i :: 0 <= i < |s| ==> !IsSpace(Lower(s)[i])
  {
  }

  /** Normalizing is idempotent, so a value normalized on one side passes the other side unchanged. */
  lemma NormalizedIsCanonical(data: string)
    requires NormalizeTxData(data).Some?
    ensures CanonicalData(NormalizeTxData(data).value)
  {
    var t := Trim(data);
    var r := NormalizeTxData(data).value;
    if t == "" || t == "0x" || t == "0X" {
      assert Trim("0x") == "0x";
    } else {
      LowerHex(t[2..]);
      PrefixedHexIsCanonical(Lower(t[2..]), r);
    }
  }

  lemma PrefixedHexIsCanonical(body: string, r: string)
    requires IsHex(body) && Lower(body) == body && |body| % 2 == 0
    requires forall i :: 0 <= i < |body| ==> !IsSpace(body[i])
    requires r == "0x" + body
    ensures CanonicalData(r)
  {
  }

  // ---- What the conversions mean ----

  predicate AllSpace(s: string) {
    forall i :: 0 <= i < |s| ==> IsSpace(s[i])
  }

  /** No white space at either end. */
  predicate Tight(s: string) {
    s != [] ==> !IsSpace(s[0]) && !IsSpace(s[|s| - 1])
  }

  /** Trimming takes white space off the two ends, all of it, and nothing else. */
  lemma {:induction false} TrimMeans(s: string) returns (front: string, back: string)
    ensures s == front + Trim(s) + back && AllSpace(front) && AllSpace(back) && Tight(Trim(s))
    decreases |s|
  {
    front, back := [], [];
    if s != [] && IsSpace(s[0]) {
      front, back := TrimMeans(s[1..]);
      front := [s[0]] + front;
      assert s == [s[0]] + s[1..];
    } else if s != [] && IsSpace(s[|s| - 1]) {
      front, back := TrimMeans(s[..|s| - 1]);
      back := back + [s[|s| - 1]];
      assert s == s[..|s| - 1] + [s[|s| - 1]];
    } else {
      assert s == [] + s + [];
    }
  }

  /** The word in any mix of cases; the word itself is in lower case. */
  predicate Spells(s: string, word: string) {
    |s| == |word|
    && forall i :: 0 <= i < |s| ==> s[i] == word[i] || ('a' <= word[i] <= 'z' && s[i] as int == word[i] as int - 32)
  }

  lemma LowerSpells(s: string, word: string)
    requires forall i :: 0 <= i < |word| ==> !('A' <= word[i] <= 'Z')
    ensures Lower(s) == word <==> Spells(s, word)
  {
  }

  /** The hex digits of calldata; None if it is not hex, or half a byte is missing. */
  function Calldata(data: string): Option<seq<nat>> {
    var t := Trim(data);
    if t == "" || Spells(t, "0x") then Some([])
    else if |t| >= 2 && Spells(t[..2], "0x") && |t| % 2 == 0 && forall i :: 2 <= i < |t| ==> DigitValue(t[i]) < 16 then
      Some(seq(|t| - 2, i requires 0 <= i < |t| - 2 => DigitValue(t[i + 2])))
    else None
  }

  /** A hex digit in lower case is fixed by its value. */
  lemma LowerDigits(c: char, d: char)
    requires DigitValue(c) < 16 && DigitValue(d) < 16
    ensures LowerChar(c) == LowerChar(d) <==> DigitValue(c) == DigitValue(d)
  {
  }

  /** These hex digits in lower case behind 0x. */
  predicate LowerHexOf(r: string, h: seq<nat>) {
    && |r| == |h| + 2 && r[0] == '0' && r[1] == 'x'
    && forall i :: 0 <= i < |h| ==> DigitValue(r[i + 2]) == h[i] < 16 && LowerChar(r[i + 2]) == r[i + 2]
  }

  lemma LowerHexIsUnique(r: string, h: seq<nat>, r': string, h': seq<nat>)
    requires LowerHexOf(r, h) && LowerHexOf(r', h')
    ensures r == r' <==> h == h'
  {
    if h == h' {
      forall i | 0 <= i < |r| ensures r[i] == r'[i] {
        if i >= 2 {
          var k := i - 2;
          assert h[k] < 16 && h'[k] < 16;
          LowerDigits(r[k + 2], r'[k + 2]);
        }
      }
    } else if |h| == |h'| {
      var k :| 0 <= k < |h| && h[k] != h'[k];
      assert DigitValue(r[k + 2]) != DigitValue(r'[k + 2]);
    }
  }

  /** Normalizing accepts exactly hex calldata, and writes its digits in lower case. */
  lemma NormalizesHex(data: string)
    ensures NormalizeTxData(data).Some? <==> Calldata(data).Some?
    ensures NormalizeTxData(data).Some? ==> LowerHexOf(NormalizeTxData(data).value, Calldata(data).value)
  {
    var t := Trim(data);
    if |t| >= 2 {
      assert t[..2][0] == t[0] && t[..2][1] == t[1];
    }
    if t == "0x" || t == "0X" {
      assert Spells(t, "0x");
    }
  }

  /** Normalizing decides whether two calldata strings are the same bytes. */
  lemma NormalizedIsTheBytes(a: string, b: string)
    requires Calldata(a).Some? && Calldata(b).Some?
    ensures NormalizeTxData(a) == NormalizeTxData(b) <==> Calldata(a) == Calldata(b)
  {
    NormalizesHex(a);
    NormalizesHex(b);
    LowerHexIsUnique(NormalizeTxData(a).value, Calldata(a).value, NormalizeTxData(b).value, Calldata(b).value);
  }

  /** And keeps the bytes. */
  lemma NormalizingKeepsTheBytes(data: string)
    requires NormalizeTxData(data).Some?
    ensures Calldata(NormalizeTxData(data).value) == Calldata(data)
  {
    var r := NormalizeTxData(data).value;
    NormalizesHex(data);
    NormalizedIsCanonical(data);
    NormalizesHex(r);
    LowerHexIsUnique(r, Calldata(r).value, r, Calldata(data).value);
  }
}
