/** Text as sequences of characters: searching, case, decimal numbers, order. */
module Strings {
  import opened Options
  import opened Sorting

  // ---- searching ----

  function IndexOf(s: string, ch: char): (i: nat)
    ensures i <= |s| && ch !in s[..i] && (i < |s| ==> s[i] == ch)
  {
    if s == [] || s[0] == ch then 0
    else
      var i := IndexOf(s[1..], ch) + 1;
      assert s[..i] == [s[0]] + s[1..][..i - 1];
      i
  }

  lemma Member(s: string, i: int)
    requires 0 <= i < |s|
    ensures s[i] in s
  {
  }

  /** The first `ch` comes right after a text without one. */
  lemma IndexOfFirst(a: string, ch: char, b: string)
    requires ch !in a
    ensures IndexOf(a + [ch] + b, ch) == |a|
  {
    var s := a + [ch] + b;
    var i := IndexOf(s, ch);
    if i < |a| {
      Member(a, i);
    } else if i > |a| {
      Member(s[..i], |a|);
    }
  }

  function LastIndexOf(s: string, ch: char): (i: Option<nat>)
    ensures i.Some? ==> i.value < |s| && s[i.value] == ch && ch !in s[i.value + 1..]
    ensures i.None? ==> ch !in s
  {
    if s == [] then None
    else
      var n := |s| - 1;
      if s[n] == ch then Some(n)
      else
        var i := LastIndexOf(s[..n], ch);
        assert i.Some? ==> s[i.value + 1..] == s[..n][i.value + 1..] + [s[n]];
        assert s == s[..n] + [s[n]];
        i
  }

  lemma NotAfter(s: string, ch: char, i: int, k: int)
    requires 0 <= i < k < |s| && ch !in s[i + 1..]
    ensures s[k] != ch
  {
    assert s[k] == s[i + 1..][k - i - 1];
  }

  lemma LastIsOne(s: string, ch: char, i: int, k: int)
    requires 0 <= i < |s| && s[i] == ch && ch !in s[i + 1..]
    requires 0 <= k < |s| && s[k] == ch && ch !in s[k + 1..]
    ensures i == k
  {
    if i < k {
      NotAfter(s, ch, i, k);
    } else if k < i {
      NotAfter(s, ch, k, i);
    }
  }

  /** The last `ch` comes right before a text without one. */
  lemma LastIndexAt(a: string, ch: char, b: string)
    requires ch !in b
    ensures LastIndexOf(a + [ch] + b, ch) == Some(|a|)
  {
    var s := a + [ch] + b;
    Member(s, |a|);
    assert s[|a| + 1..] == b;
    LastIsOne(s, ch, LastIndexOf(s, ch).value, |a|);
  }

  // ---- case ----

  function LowerChar(ch: char): char
  {
    if 'A' <= ch <= 'Z' then ch - 'A' + 'a' else ch
  }

  function Lower(s: string): (t: string)
    ensures |t| == |s| && forall i :: 0 <= i < |s| ==> t[i] == LowerChar(s[i])
  {
    seq(|s|, i requires 0 <= i < |s| => LowerChar(s[i]))
  }

  lemma LowerTwice(s: string)
    ensures Lower(Lower(s)) == Lower(s)
  {
  }

  // ---- numbers ----

  function Decimal(n: nat): (s: string)
    ensures s != []
    ensures forall ch :: ch in s ==> IsDigit(ch)
  {
    if n < 10 then ['0' + n as char] else Decimal(n / 10) + ['0' + (n % 10) as char]
  }

  predicate IsDigit(ch: char)
  {
    '0' <= ch <= '9'
  }

  predicate IsDigits(s: string)
  {
    s != [] && forall ch :: ch in s ==> IsDigit(ch)
  }

  function Digits(s: string): (n: int)
    requires IsDigits(s)
    ensures n >= 0
  {
    assert IsDigit(s[|s| - 1]);
    var last := (s[|s| - 1] - '0') as int;
    if |s| == 1 then last else 10 * Digits(s[..|s| - 1]) + last
  }

  /** A signed 64-bit decimal number, with or without a sign in front. */
  function ParseInt(s: string): Option<int>
  {
    var signed := s != [] && (s[0] == '+' || s[0] == '-');
    var digits := if signed then s[1..] else s;
    if !IsDigits(digits) then None
    else
      var v: int := if signed && s[0] == '-' then -Digits(digits) else Digits(digits);
      if -0x8000_0000_0000_0000 <= v < 0x8000_0000_0000_0000 then Some(v) else None
  }

  lemma {:induction false} DigitsOfDecimal(n: nat)
    ensures IsDigits(Decimal(n)) && Digits(Decimal(n)) == n
  {
    var s := Decimal(n);
    if n >= 10 {
      DigitsOfDecimal(n / 10);
      assert s[..|s| - 1] == Decimal(n / 10);
    }
  }

  /** What was printed is read back, if it fits. */
  lemma DecimalRoundTrip(n: nat)
    ensures ParseInt(Decimal(n)) == if n < 0x8000_0000_0000_0000 then Some(n) else None
  {
    DigitsOfDecimal(n);
    assert Decimal(n)[0] in Decimal(n);
  }

  // ---- order ----

  /** Dictionary order. */
  predicate Less(a: string, b: string)
  {
    b != [] && (a == [] || a[0] < b[0] || (a[0] == b[0] && Less(a[1..], b[1..])))
  }

  lemma {:induction false} LessIsTotal(a: string, b: string)
    ensures a == b || Less(a, b) || Less(b, a)
    ensures !(Less(a, b) && Less(b, a)) && !Less(a, a)
  {
    if a != [] && b != [] {
      LessIsTotal(a[1..], b[1..]);
      assert a == [a[0]] + a[1..] && b == [b[0]] + b[1..];
    }
    if a != [] {
      LessIsTotal(a[1..], a[1..]);
    }
  }

  lemma {:induction false} LessIsTransitive(a: string, b: string, c: string)
    requires Less(a, b) && Less(b, c)
    ensures Less(a, c)
  {
    if a != [] && a[0] == b[0] == c[0] {
      LessIsTransitive(a[1..], b[1..], c[1..]);
    }
  }

  lemma LessIsStrictTotal()
    ensures StrictTotal(Less)
  {
    forall a, b ensures (a == b || Less(a, b) || Less(b, a)) && (Less(a, b) ==> !Less(b, a)) {
      LessIsTotal(a, b);
    }
    forall a, b, c | Less(a, b) && Less(b, c) ensures Less(a, c) {
      LessIsTransitive(a, b, c);
    }
  }
}
