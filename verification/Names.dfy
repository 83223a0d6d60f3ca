/** Object names with an index at the end: how they are printed and parsed back. */
module Names {
  import opened Base

  predicate IsDigit(c: char) {
    '0' <= c <= '9'
  }

  function DigitValue(c: char): (d: nat)
    requires IsDigit(c)
  {
    (c as int) - ('0' as int)
  }

  function DigitChar(d: nat): (c: char)
    requires d < 10
    ensures IsDigit(c) && DigitValue(c) == d
  {
    ('0' as int + d) as char
  }

  // fmt's %d of a non-negative int
  function Decimal(n: nat): (s: string)
    ensures |s| > 0 && forall c :: c in s ==> IsDigit(c)
  {
    if n < 10 then [DigitChar(n)] else Decimal(n / 10) + [DigitChar(n % 10)]
  }

  // The number a non-empty digit string denotes.
  function Value(s: string): nat
    requires forall c :: c in s ==> IsDigit(c)
  {
    if s == [] then 0 else 10 * Value(s[..|s| - 1]) + DigitValue(s[|s| - 1])
  }

  lemma {:induction false} ValueOfDecimal(n: nat)
    ensures Value(Decimal(n)) == n
  {
    if n >= 10 {
      ValueOfDecimal(n / 10);
      var s := Decimal(n);
      assert s[..|s| - 1] == Decimal(n / 10);
    }
  }

  lemma DecimalIsInjective(m: nat, n: nat)
    requires Decimal(m) == Decimal(n)
    ensures m == n
  {
    ValueOfDecimal(m);
    ValueOfDecimal(n);
  }

  // fmt.Sprintf("%s-%d", name, idx): a member of the cluster
  function MemberName(name: string, idx: nat): string {
    name + "-" + Decimal(idx)
  }

  // fmt.Sprintf("%s-%s-%d", "pgdata", name, idx)
  const VOLUME_NAME: string := "pgdata"

  function PVCName(name: string, idx: nat): string {
    VOLUME_NAME + "-" + name + "-" + Decimal(idx)
  }

  // What follows the last dash of a string is in one place only.
  lemma LastDash(a: string, m: string, b: string, n: string)
    requires a + "-" + m == b + "-" + n && '-' !in m && '-' !in n
    ensures a == b && m == n
  {
    var s := a + "-" + m;
    assert forall k :: |a| < k < |s| ==> s[k] == m[k - |a| - 1];
    assert forall k :: |b| < k < |s| ==> s[k] == n[k - |b| - 1];
    assert s[|a|] == '-' && s[|b|] == '-';
    assert |a| == |b|;
    assert a == s[..|a|] && b == s[..|a|];
    assert m == s[|a| + 1..] && n == s[|a| + 1..];
  }

  /** No two members of any clusters have the same name, though the name of one cluster may be the beginning of
      another's. */
  lemma MemberNameIsInjective(a: string, i: nat, b: string, j: nat)
    requires MemberName(a, i) == MemberName(b, j)
    ensures a == b && i == j
  {
    assert forall c :: IsDigit(c) ==> c != '-';
    LastDash(a, Decimal(i), b, Decimal(j));
    DecimalIsInjective(i, j);
  }

  /** Nor have two claims. */
  lemma PVCNameIsInjective(a: string, i: nat, b: string, j: nat)
    requires PVCName(a, i) == PVCName(b, j)
    ensures a == b && i == j
  {
    var p := VOLUME_NAME + "-";
    assert PVCName(a, i) == p + MemberName(a, i) && PVCName(b, j) == p + MemberName(b, j);
    assert PVCName(a, i)[|p|..] == MemberName(a, i);
    assert PVCName(b, j)[|p|..] == MemberName(b, j);
    MemberNameIsInjective(a, i, b, j);
  }

  // strings.Split(s, sep): the pieces between separators, at least one
  function Split(s: string, sep: char): (parts: seq<string>)
    ensures |parts| > 0
  {
    if s == [] then [""]
    else
      var rest := Split(s[1..], sep);
      if s[0] == sep then [""] + rest else [[s[0]] + rest[0]] + rest[1..]
  }

  lemma {:induction false} SplitWithout(s: string, sep: char)
    requires sep !in s
    ensures Split(s, sep) == [s]
  {
    if s != [] {
      SplitWithout(s[1..], sep);
      assert [s[0]] + s[1..] == s;
    }
  }

  // The last piece is what follows the last separator, whatever comes before.
  lemma {:induction false} SplitLast(a: string, b: string, sep: char)
    requires sep !in b
    ensures var parts := Split(a + [sep] + b, sep);
            |parts| > 1 && parts[|parts| - 1] == b
  {
    var s := a + [sep] + b;
    if a == [] {
      assert s[1..] == b;
      SplitWithout(b, sep);
    } else {
      assert s[1..] == a[1..] + [sep] + b;
      SplitLast(a[1..], b, sep);
    }
  }

  const MAX_INT: nat := 0x7fff_ffff_ffff_ffff

  // The longest prefix of digits.
  function Digits(s: string): (d: string)
    ensures forall c :: c in d ==> IsDigit(c)
  {
    if s != [] && IsDigit(s[0]) then [s[0]] + Digits(s[1..]) else []
  }

  function SkipSpaces(s: string): string {
    if s != [] && s[0] == ' ' then SkipSpaces(s[1..]) else s
  }

  /** fmt.Sscanf(s, "%d", &index): leading spaces, an optional sign, then digits; what follows them is left alone.
      Without a digit, or beyond 64 bits, it fails. */
  function ScanInt(s: string): Result<int> {
    var t := SkipSpaces(s);
    var negative := t != [] && t[0] == '-';
    var u := if t != [] && (t[0] == '-' || t[0] == '+') then t[1..] else t;
    var d := Digits(u);
    if d == [] then Err
    else
      var n := if negative then 0 - Value(d) as int else Value(d) as int;
      if n < -(MAX_INT as int) - 1 || n > MAX_INT then Err else Ok(n)
  }

  lemma {:induction false} DigitsOfDigits(s: string)
    requires forall c :: c in s ==> IsDigit(c)
    ensures Digits(s) == s
  {
    if s != [] {
      DigitsOfDigits(s[1..]);
      assert [s[0]] + s[1..] == s;
    }
  }

  // A number is scanned as it is printed, with or without a sign, unless it does not fit.
  lemma ScanOfDecimal(sign: string, n: nat)
    requires sign == "" || sign == "+" || sign == "-"
    ensures var v: int := if sign == "-" then 0 - n as int else n as int;
            ScanInt(sign + Decimal(n)) == if v < -(MAX_INT as int) - 1 || v > MAX_INT then Err else Ok(v)
  {
    var d := Decimal(n);
    assert d[0] in d;
    if sign == "" {
      assert sign + d == d;
    } else {
      assert (sign + d)[1..] == d;
    }
    assert SkipSpaces(sign + d) == sign + d;
    DigitsOfDigits(d);
    ValueOfDecimal(n);
  }

  // The parse in GetSyncLeader: the number after the last dash
  function ParseLeader(leader: string): Result<int> {
    var splitted := Split(leader, '-');
    ScanInt(splitted[|splitted| - 1])
  }

  /** Whatever dashes the cluster's name has, the index of its member is read back. */
  lemma LeaderRoundTrip(name: string, idx: nat)
    requires idx <= MAX_INT
    ensures ParseLeader(MemberName(name, idx)) == Ok(idx)
  {
    var d := Decimal(idx);
    assert MemberName(name, idx) == name + ['-'] + d;
    SplitLast(name, d, '-');
    ScanOfDecimal("", idx);
    assert "" + d == d;
  }
}
