/** Bytes, C strings inside byte buffers, and the decimal texts of the printf family. */
module Bytes {

  type Byte = x: int | 0 <= x < 256

  const NUL: Byte := 0

  datatype Option<+T> = None | Some(value: T)

  /** strlen: the index of the first NUL, or |s| where the buffer holds none. */
  function StrLen(s: seq<Byte>): (n: nat)
    ensures n <= |s|
    ensures n < |s| ==> s[n] == NUL
    ensures NUL !in s[..n]
  {
    if s == [] || s[0] == NUL then 0
    else
      var m := StrLen(s[1..]);
      assert s[..m + 1] == [s[0]] + s[1..][..m];
      m + 1
  }

  /** The C string that starts at the head of a buffer. */
  function CStr(s: seq<Byte>): (t: seq<Byte>)
    ensures NUL !in t
    ensures |t| <= |s|
  {
    s[..StrLen(s)]
  }

  /** A buffer that begins with a NUL-free text is read back as that text exactly when a NUL follows it. */
  lemma CStrOfPrefix(buf: seq<Byte>, text: seq<Byte>)
    requires NUL !in text && |text| < |buf|
    requires buf[..|text|] == text
    ensures text <= CStr(buf)
    ensures CStr(buf) == text <==> buf[|text|] == NUL
    ensures buf[|text|] == NUL ==> StrLen(buf) == |text|
  {
    assert forall i :: 0 <= i < |text| ==> buf[i] == buf[..|text|][i] == text[i] != NUL;
    assert forall i :: 0 <= i < StrLen(buf) ==> buf[i] == buf[..StrLen(buf)][i] != NUL;
    assert buf[..StrLen(buf)][..|text|] == text;
  }

  /** A text stored with its closing NUL is read back, whatever lies behind it. */
  lemma CStrOfStored(buf: seq<Byte>, text: seq<Byte>)
    requires NUL !in text && |text| < |buf| && buf[..|text| + 1] == text + [NUL]
    ensures CStr(buf) == text
  {
    assert buf[..|text|] == buf[..|text| + 1][..|text|] == text;
    assert buf[|text|] == buf[..|text| + 1][|text|] == NUL;
    CStrOfPrefix(buf, text);
  }

  /** A NUL-free text that fills its buffer is read back whole. */
  lemma CStrOfFull(text: seq<Byte>)
    requires NUL !in text
    ensures StrLen(text) == |text| && CStr(text) == text
  {
    assert forall i :: 0 <= i < |text| ==> text[i] in text;
    assert text[..|text|] == text;
  }

  function Zeros(n: nat): (s: seq<Byte>)
    ensures |s| == n && forall i :: 0 <= i < n ==> s[i] == NUL
  {
    seq(n, _ => NUL)
  }

  /** The bytes of `patch` written over `s` from position `at` on. */
  function Patch(s: seq<Byte>, at: nat, patch: seq<Byte>): (r: seq<Byte>)
    requires at + |patch| <= |s|
    ensures |r| == |s|
    ensures r[at..at + |patch|] == patch
    ensures r[..at] == s[..at]
    ensures r[at + |patch|..] == s[at + |patch|..]
  {
    s[..at] + patch + s[at + |patch|..]
  }

  /** Unsigned decimal digits, as %u prints them. */
  function Decimal(n: nat): (s: seq<Byte>)
    ensures |s| >= 1
    ensures forall d :: d in s ==> 48 <= d <= 57
    ensures n < 10 ==> |s| == 1
  {
    if n < 10 then [48 + n] else Decimal(n / 10) + [48 + n % 10]
  }

  /** The number a run of decimal digits denotes. */
  function DigitsValue(s: seq<Byte>): int
  {
    if s == [] then 0 else 10 * DigitsValue(s[..|s| - 1]) + (s[|s| - 1] as int - 48)
  }

  lemma {:induction false} DecimalValue(n: nat)
    ensures DigitsValue(Decimal(n)) == n
  {
    var s := Decimal(n);
    if n >= 10 {
      DecimalValue(n / 10);
      assert s[..|s| - 1] == Decimal(n / 10);
    } else {
      assert s[..0] == [];
    }
  }

  /** A number below 10^k prints in at most k digits. */
  lemma {:induction false} DecimalLength(n: nat, k: nat, bound: nat)
    requires 1 <= k <= 10
    requires bound == [1, 10, 100, 1000, 10000, 100000, 1000000, 10000000, 100000000, 1000000000, 10000000000][k]
    requires n < bound
    ensures |Decimal(n)| <= k
    decreases k
  {
    if n >= 10 {
      DecimalLength(n / 10, k - 1, bound / 10);
    }
  }

  /** The bytes of an ASCII text. */
  function Ascii(s: string): (r: seq<Byte>)
    ensures |r| == |s|
    ensures forall i :: 0 <= i < |s| && s[i] as int < 128 ==> r[i] == s[i] as int
  {
    seq(|s|, i requires 0 <= i < |s| => s[i] as int % 256)
  }

  lemma AppendDigit(s: seq<Byte>, d: Byte)
    ensures DigitsValue(s + [d]) == 10 * DigitsValue(s) + (d as int - 48)
  {
    assert (s + [d])[..|s|] == s;
  }

  /** The most significant digit comes first. */
  lemma DecimalSpelled()
    ensures Decimal(2024) == Ascii("2024") && DigitsValue(Ascii("2024")) == 2024
  {
    assert Decimal(20) == Ascii("20");
    assert Decimal(202) == Ascii("202");
    DecimalValue(2024);
  }

  // ---------- Strings inside a buffer ----------

  /** A C string starts at `from` and ends inside the buffer. */
  predicate StringAt(s: seq<Byte>, from: nat) {
    from < |s| && StrLen(s[from..]) < |s| - from
  }

  function TextAt(s: seq<Byte>, from: nat): (t: seq<Byte>)
    requires from <= |s|
    ensures NUL !in t
  {
    CStr(s[from..])
  }

  /** A string whose bytes stay and whose NUL stays a NUL is still the same string. */
  lemma TextIs(s: seq<Byte>, from: nat, text: seq<Byte>)
    requires from + |text| < |s| && NUL !in text
    requires forall i :: 0 <= i < |text| ==> s[from + i] == text[i]
    requires s[from + |text|] == NUL
    ensures StringAt(s, from) && TextAt(s, from) == text
  {
    assert s[from..][..|text|] == text;
    CStrOfPrefix(s[from..], text);
  }

  lemma TextBytes(s: seq<Byte>, from: nat)
    requires StringAt(s, from)
    ensures var t := TextAt(s, from);
      && from + |t| < |s| && s[from + |t|] == NUL
      && forall i :: from <= i < from + |t| ==> s[i] == t[i - from] && s[i] != NUL
  {
    var d := s[from..];
    assert forall i :: 0 <= i < StrLen(d) ==> d[i] == d[..StrLen(d)][i] != NUL;
  }
}
