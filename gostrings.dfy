/** The Go standard-library string operations the logging package relies on,
    written out so that the package-name derivation and the text layout can be
    reasoned about: `strings.Split` with a one-character separator, its inverse
    join, `strconv.Itoa`, and the operand layout of `fmt.Fprintln` for string
    operands. */
module GoStrings {

  /** Position of the first `c` in `s`, or `|s|` when `s` holds none. */
  function IndexOf(s: string, c: char): (i: nat)
    ensures i <= |s|
    ensures i < |s| ==> s[i] == c
    ensures forall k :: 0 <= k < i ==> s[k] != c
  {
    if s == [] then 0 else if s[0] == c then 0 else 1 + IndexOf(s[1..], c)
  }

  /** `strings.Split(s, string(c))`: the pieces of `s` between occurrences of
      `c`. There is always at least one piece, and no piece contains `c`. */
  function Split(s: string, c: char): (parts: seq<string>)
    ensures |parts| >= 1
    ensures forall k :: 0 <= k < |parts| ==> c !in parts[k]
    decreases |s|
  {
    var i := IndexOf(s, c);
    if i == |s| then [s] else [s[..i]] + Split(s[i + 1..], c)
  }

  /** `strings.Join(parts, string(c))`. */
  function Join(parts: seq<string>, c: char): string
  {
    if parts == [] then ""
    else if |parts| == 1 then parts[0]
    else parts[0] + [c] + Join(parts[1..], c)
  }

  /** Joining the pieces with the separator gives back the split string. */
  lemma {:induction false} JoinSplit(s: string, c: char)
    ensures Join(Split(s, c), c) == s
    decreases |s|
  {
    var i := IndexOf(s, c);
    if i < |s| {
      var rest := Split(s[i + 1..], c);
      JoinSplit(s[i + 1..], c);
      assert Split(s, c) == [s[..i]] + rest;
      assert ([s[..i]] + rest)[1..] == rest;
      assert s == s[..i] + [c] + s[i + 1..];
    }
  }

  /** A string without `c` has no occurrence to find. */
  lemma IndexOfAbsent(s: string, c: char)
    requires c !in s
    ensures IndexOf(s, c) == |s|
  {
  }

  /** A separator-free piece followed by the separator splits off as the first
      piece. */
  lemma SplitCons(p: string, c: char, tail: string)
    requires c !in p
    ensures Split(p + [c] + tail, c) == [p] + Split(tail, c)
  {
    var s := p + [c] + tail;
    assert s[|p|] == c;
    assert forall k :: 0 <= k < |p| ==> s[k] == p[k];
    assert IndexOf(s, c) == |p|;
    assert s[..|p|] == p;
    assert s[|p| + 1..] == tail;
  }

  /** Splitting a join whose pieces avoid the separator recovers the pieces. */
  lemma {:induction false} SplitJoin(parts: seq<string>, c: char)
    requires |parts| >= 1
    requires forall k :: 0 <= k < |parts| ==> c !in parts[k]
    ensures Split(Join(parts, c), c) == parts
  {
    if |parts| == 1 {
      IndexOfAbsent(parts[0], c);
    } else {
      var tail := Join(parts[1..], c);
      assert Join(parts, c) == parts[0] + [c] + tail;
      SplitCons(parts[0], c, tail);
      SplitJoin(parts[1..], c);
      assert parts == [parts[0]] + parts[1..];
    }
  }

  /** Splitting a join whose leading pieces avoid the separator recovers
      those pieces, followed by the split of the last one, which may hold the
      separator. */
  lemma {:induction false} SplitJoinLast(parts: seq<string>, last: string, c: char)
    requires forall k :: 0 <= k < |parts| ==> c !in parts[k]
    ensures Split(Join(parts + [last], c), c) == parts + Split(last, c)
    decreases |parts|
  {
    if parts == [] {
      assert parts + [last] == [last];
    } else {
      var all := parts + [last];
      assert all[1..] == parts[1..] + [last];
      assert Join(all, c) == parts[0] + [c] + Join(parts[1..] + [last], c);
      SplitCons(parts[0], c, Join(parts[1..] + [last], c));
      SplitJoinLast(parts[1..], last, c);
      assert parts == [parts[0]] + parts[1..];
    }
  }

  /** The first piece of `strings.Split(s, string(c))`: the longest prefix of `s`
      without `c`. */
  function FirstSegment(s: string, c: char): (r: string)
    ensures |r| <= |s| && r == s[..|r|]
    ensures c !in r
    ensures |r| < |s| ==> s[|r|] == c
  {
    var i := IndexOf(s, c);
    assert c !in s[..i];
    Split(s, c)[0]
  }

  /** The last piece of `strings.Split(s, string(c))`: the longest suffix of `s`
      without `c`, i.e. everything after the last `c`. */
  function LastSegment(s: string, c: char): (r: string)
    ensures |r| <= |s| && r == s[|s| - |r|..]
    ensures c !in r
    ensures |r| < |s| ==> s[|s| - |r| - 1] == c
  {
    var parts := Split(s, c);
    LastSegmentIsSuffix(s, c);
    parts[|parts| - 1]
  }

  lemma {:induction false} LastSegmentIsSuffix(s: string, c: char)
    ensures var parts := Split(s, c);
      var r := parts[|parts| - 1];
      |r| <= |s| && r == s[|s| - |r|..] && (|r| < |s| ==> s[|s| - |r| - 1] == c)
    decreases |s|
  {
    var i := IndexOf(s, c);
    if i < |s| {
      var t := s[i + 1..];
      LastSegmentIsSuffix(t, c);
      var rest := Split(t, c);
      assert Split(s, c) == [s[..i]] + rest;
      var r := rest[|rest| - 1];
      assert Split(s, c)[|Split(s, c)| - 1] == r;
      assert s[|s| - |r|..] == t[|t| - |r|..];
      if |r| == |t| {
        assert s[|s| - |r| - 1] == s[i];
      } else {
        assert s[|s| - |r| - 1] == t[|t| - |r| - 1];
      }
    }
  }

  /** One decimal digit. */
  function Digit(d: nat): (ch: char)
    requires d < 10
    ensures '0' <= ch <= '9'
  {
    ('0' as int + d) as char
  }

  /** Decimal digits of a natural number, most significant first, with no
      leading zero. */
  function NatToDecimal(n: nat): (r: string)
    ensures |r| >= 1
    ensures forall k :: 0 <= k < |r| ==> '0' <= r[k] <= '9'
    ensures |r| > 1 ==> r[0] != '0'
  {
    if n < 10 then [Digit(n)] else NatToDecimal(n / 10) + [Digit(n % 10)]
  }

  /** The number a string of decimal digits denotes, read most significant
      digit first. */
  function DecimalValue(s: string): nat
    requires forall k :: 0 <= k < |s| ==> '0' <= s[k] <= '9'
  {
    if s == [] then 0
    else DecimalValue(s[..|s| - 1]) * 10 + (s[|s| - 1] as int - '0' as int)
  }

  /** The number an `Itoa`-shaped string denotes: an optional '-' and digits. */
  function IntValue(s: string): int
    requires |s| >= 1
    requires s[0] == '-' ==> forall k :: 1 <= k < |s| ==> '0' <= s[k] <= '9'
    requires s[0] != '-' ==> forall k :: 0 <= k < |s| ==> '0' <= s[k] <= '9'
  {
    if s[0] == '-' then -(DecimalValue(s[1..]) as int) else DecimalValue(s)
  }

  /** The digits `NatToDecimal` produces denote the number they were made from. */
  lemma {:induction false} DecimalRoundTrip(n: nat)
    ensures DecimalValue(NatToDecimal(n)) == n
  {
    if n >= 10 {
      DecimalRoundTrip(n / 10);
      var r := NatToDecimal(n);
      assert r[..|r| - 1] == NatToDecimal(n / 10);
    }
  }

  /** `strconv.Itoa`: a leading '-' exactly for negative numbers, digits otherwise. */
  function Itoa(n: int): (r: string)
    ensures |r| >= 1
    ensures (n < 0) <==> r[0] == '-'
    ensures forall k :: 0 < k < |r| ==> '0' <= r[k] <= '9'
    ensures n >= 0 ==> '0' <= r[0] <= '9'
    ensures var d := if n < 0 then r[1..] else r; |d| >= 1 && (|d| > 1 ==> d[0] != '0')
  {
    if n < 0 then "-" + NatToDecimal(-n) else NatToDecimal(n)
  }

  /** `strconv.Itoa` writes the decimal value of `n`: reading its output back
      gives `n`, so distinct numbers get distinct strings. */
  lemma ItoaValue(n: int)
    ensures IntValue(Itoa(n)) == n
  {
    if n < 0 {
      DecimalRoundTrip(-n);
      assert Itoa(n)[1..] == NatToDecimal(-n);
    } else {
      DecimalRoundTrip(n);
    }
  }

  /** Distinct numbers print differently. */
  lemma ItoaInjective(n: int, m: int)
    requires n != m
    ensures Itoa(n) != Itoa(m)
  {
    ItoaValue(n);
    ItoaValue(m);
  }

  /** `fmt.Fprintln` with string operands: the operands separated by single
      spaces, then a newline. */
  function Println(fields: seq<string>): (r: string)
    ensures |r| >= 1 && r[|r| - 1] == '\n'
    ensures r[..|r| - 1] == Join(fields, ' ')
  {
    Join(fields, ' ') + "\n"
  }

  /** When no operand contains a space, the line is exactly its operands
      separated by single spaces: cutting the newline and splitting at the
      spaces recovers them in order. */
  lemma PrintlnFields(fields: seq<string>)
    requires |fields| >= 1
    requires forall k :: 0 <= k < |fields| ==> ' ' !in fields[k]
    ensures var r := Println(fields); Split(r[..|r| - 1], ' ') == fields
  {
    SplitJoin(fields, ' ');
  }
}
