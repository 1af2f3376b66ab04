/**
 * The string helpers of the Go standard library that the client's own
 * helpers rely on: unicode.IsSpace, strings.TrimSpace, strings.LastIndex
 * (for a one-character needle), strconv.Itoa and the ", " list joining
 * done with a strings.Builder. Each is paired with a reader that undoes it
 * (Atoi, SplitList) or with a characterisation of its result.
 */
module Text {
  import opened Optional

  /** unicode.IsSpace: the characters with the Unicode White_Space property. */
  predicate IsSpace(c: char) {
    var n := c as int;
    (0x09 <= n <= 0x0D) || n == 0x20 || n == 0x85 || n == 0xA0 || n == 0x1680
    || (0x2000 <= n <= 0x200A) || n == 0x2028 || n == 0x2029 || n == 0x202F
    || n == 0x205F || n == 0x3000
  }

  predicate AllSpace(s: string) {
    forall k :: 0 <= k < |s| ==> IsSpace(s[k])
  }

  /** A string with no white space at either end. */
  predicate Trimmed(s: string) {
    s == [] || (!IsSpace(s[0]) && !IsSpace(s[|s| - 1]))
  }

  /** strings.TrimLeftFunc(s, unicode.IsSpace): drops the leading white space. */
  function TrimLeft(s: string): (r: string)
    ensures |r| <= |s| && r == s[|s| - |r|..]
    ensures AllSpace(s[..|s| - |r|])
    ensures r == [] || !IsSpace(r[0])
    decreases |s|
  {
    if |s| > 0 && IsSpace(s[0]) then
      var r := TrimLeft(s[1..]);
      assert s[..|s| - |r|] == [s[0]] + s[1..][..|s| - 1 - |r|];
      r
    else
      s
  }

  /** strings.TrimRightFunc(s, unicode.IsSpace): drops the trailing white space. */
  function TrimRight(s: string): (r: string)
    ensures |r| <= |s| && r == s[..|r|]
    ensures AllSpace(s[|r|..])
    ensures r == [] || !IsSpace(r[|r| - 1])
    decreases |s|
  {
    if |s| > 0 && IsSpace(s[|s| - 1]) then
      var r := TrimRight(s[..|s| - 1]);
      assert s[|r|..] == s[..|s| - 1][|r|..] + [s[|s| - 1]];
      r
    else
      s
  }

  /** strings.TrimSpace: no white space is left at either end. */
  function TrimSpace(s: string): (r: string)
    ensures |r| <= |s| && Trimmed(r)
  {
    var t := TrimLeft(s);
    var r := TrimRight(t);
    assert r != [] ==> r[0] == t[0];
    r
  }

  lemma {:induction false} TrimLeftSkips(a: string, t: string)
    requires AllSpace(a)
    requires t == [] || !IsSpace(t[0])
    ensures TrimLeft(a + t) == t
    decreases |a|
  {
    if |a| > 0 {
      assert (a + t)[1..] == a[1..] + t;
      TrimLeftSkips(a[1..], t);
    } else {
      assert a + t == t;
    }
  }

  lemma {:induction false} TrimRightSkips(t: string, b: string)
    requires AllSpace(b)
    requires t == [] || !IsSpace(t[|t| - 1])
    ensures TrimRight(t + b) == t
    decreases |b|
  {
    if |b| > 0 {
      assert (t + b)[..|t + b| - 1] == t + b[..|b| - 1];
      TrimRightSkips(t, b[..|b| - 1]);
    } else {
      assert t + b == t;
    }
  }

  /**
   * TrimSpace is determined by its characterisation: whatever white space
   * surrounds a trimmed middle part, TrimSpace gives back that middle part.
   */
  lemma {:induction false} TrimSpaceUnique(a: string, m: string, b: string)
    requires AllSpace(a) && AllSpace(b) && Trimmed(m)
    ensures TrimSpace(a + m + b) == m
  {
    if m == [] {
      assert a + m + b == (a + b) + [];
      assert AllSpace(a + b);
      TrimLeftSkips(a + b, []);
    } else {
      assert a + m + b == a + (m + b);
      TrimLeftSkips(a, m + b);
      TrimRightSkips(m, b);
    }
  }

  /** A string with no white space at its ends is left as it is. */
  lemma TrimmedFixed(s: string)
    requires Trimmed(s)
    ensures TrimSpace(s) == s
  {
    assert s == [] + s + [];
    TrimSpaceUnique([], s, []);
  }

  /** Trimming twice is trimming once. */
  lemma TrimSpaceIdempotent(s: string)
    ensures TrimSpace(TrimSpace(s)) == TrimSpace(s)
  {
    TrimmedFixed(TrimSpace(s));
  }

  /** Trimming only removes characters, so it cannot introduce c. */
  lemma TrimSpaceKeepsOut(s: string, c: char)
    requires c !in s
    ensures c !in TrimSpace(s)
  {
    var t := TrimLeft(s);
    NotInSlice(s, |s| - |t|, |s|, c);
    var r := TrimRight(t);
    NotInSlice(t, 0, |r|, c);
  }

  lemma NotInSlice(s: string, i: nat, j: nat, c: char)
    requires i <= j <= |s| && c !in s
    ensures c !in s[i..j]
  {
    forall k | i <= k < j ensures s[k] != c {
    }
  }

  /** strings.LastIndex(s, string([]rune{c})): the last position of c, or -1. */
  function LastIndex(s: string, c: char): (i: int)
    ensures -1 <= i < |s|
    ensures i == -1 ==> c !in s
    ensures 0 <= i ==> s[i] == c
    ensures forall k :: i < k < |s| ==> s[k] != c
    decreases |s|
  {
    if |s| == 0 then -1
    else if s[|s| - 1] == c then |s| - 1
    else LastIndex(s[..|s| - 1], c)
  }

  /** The position LastIndex reports is the only one it can report. */
  lemma {:induction false} LastIndexAt(s: string, c: char, i: nat)
    requires i < |s| && s[i] == c
    requires forall k :: i < k < |s| ==> s[k] != c
    ensures LastIndex(s, c) == i
  {
  }

  // ---- strconv.Itoa and a reader for it ----

  predicate IsDigit(c: char) {
    '0' <= c <= '9'
  }

  predicate AllDigits(s: string) {
    forall k :: 0 <= k < |s| ==> IsDigit(s[k])
  }

  function DigitChar(d: nat): (c: char)
    requires d < 10
    ensures IsDigit(c) && c as int - '0' as int == d
  {
    ('0' as int + d) as char
  }

  /** The decimal digits of n, most significant first, without leading zeros. */
  function Digits(n: nat): (s: string)
    ensures |s| > 0 && AllDigits(s)
    decreases n
  {
    if n < 10 then [DigitChar(n)] else Digits(n / 10) + [DigitChar(n % 10)]
  }

  /** strconv.Itoa: the decimal form of i, with a leading '-' when negative. */
  function Itoa(i: int): (s: string)
    ensures |s| > 0
    ensures ',' !in s && ' ' !in s
  {
    var s := if i < 0 then "-" + Digits(-i) else Digits(i);
    assert forall k :: 0 <= k < |s| ==> s[k] == '-' || IsDigit(s[k]);
    s
  }

  /** The number a non-empty string of decimal digits stands for. */
  function DigitsValue(s: string): nat
    requires AllDigits(s)
    decreases |s|
  {
    if |s| == 0 then 0
    else 10 * DigitsValue(s[..|s| - 1]) + (s[|s| - 1] as int - '0' as int)
  }

  /** Reads an optional '-' followed by one or more decimal digits. */
  function Atoi(s: string): Option<int> {
    if |s| > 1 && s[0] == '-' && AllDigits(s[1..]) then Some(0 - DigitsValue(s[1..]))
    else if |s| > 0 && AllDigits(s) then Some(DigitsValue(s))
    else None
  }

  lemma {:induction false} DigitsRoundTrip(n: nat)
    ensures DigitsValue(Digits(n)) == n
    decreases n
  {
    var s := Digits(n);
    if n >= 10 {
      DigitsRoundTrip(n / 10);
      assert s[..|s| - 1] == Digits(n / 10);
    }
  }

  /** Itoa loses nothing: reading its output back gives the number. */
  lemma ItoaRoundTrip(i: int)
    ensures Atoi(Itoa(i)) == Some(i)
  {
    var s := Itoa(i);
    if i < 0 {
      var d := Digits(-i);
      assert s == "-" + d;
      assert s[1..] == d;
      assert DigitsValue(d) == -i by {
        DigitsRoundTrip(-i);
      }
    } else {
      assert s == Digits(i) && IsDigit(s[0]);
      assert DigitsValue(s) == i by {
        DigitsRoundTrip(i);
      }
    }
  }

  // ---- a separated list, and splitting it at ", " ----

  /**
   * The parts written one after another with sep between them, built from
   * the left as the strings.Builder loop of Error.Error builds its list.
   */
  function Join(parts: seq<string>, sep: string): string
    decreases |parts|
  {
    if |parts| == 0 then ""
    else if |parts| == 1 then parts[0]
    else Join(parts[..|parts| - 1], sep) + sep + parts[|parts| - 1]
  }

  lemma JoinSnoc(parts: seq<string>, sep: string, p: string)
    requires |parts| > 0
    ensures Join(parts + [p], sep) == Join(parts, sep) + sep + p
  {
    assert (parts + [p])[..|parts|] == parts;
  }

  /** One more number written to a joined list, as the Builder loop writes it. */
  lemma JoinItoasStep(ns: seq<int>, i: nat, sep: string)
    requires i < |ns|
    ensures Join(Itoas(ns[..i + 1]), sep)
      == if i == 0 then Itoa(ns[0]) else Join(Itoas(ns[..i]), sep) + sep + Itoa(ns[i])
  {
    assert Itoas(ns[..i + 1]) == Itoas(ns[..i]) + [Itoa(ns[i])];
    if i > 0 {
      JoinSnoc(Itoas(ns[..i]), sep, Itoa(ns[i]));
    }
  }

  /** Cuts s at every ", ", the separator Error.Error writes between indices. */
  function SplitList(s: string): (parts: seq<string>)
    ensures |parts| > 0
    decreases |s|
  {
    var i := LastIndex(s, ',');
    if i < 0 then [s]
    else SplitList(s[..i]) + [if i + 2 <= |s| then s[i + 2..] else ""]
  }

  /** Splitting a ", "-joined list whose parts hold no comma gives the parts back. */
  lemma {:induction false} SplitJoin(parts: seq<string>)
    requires |parts| > 0
    requires forall k :: 0 <= k < |parts| ==> ',' !in parts[k]
    ensures SplitList(Join(parts, ", ")) == parts
    decreases |parts|
  {
    if |parts| > 1 {
      var init, last := parts[..|parts| - 1], parts[|parts| - 1];
      var j := Join(init, ", ");
      var s := j + ", " + last;
      assert Join(parts, ", ") == s;
      assert s[|j| + 1..] == " " + last;
      LastIndexAt(s, ',', |j|);
      assert s[..|j|] == j;
      assert s[|j| + 2..] == last;
      SplitJoin(init);
    }
  }

  /** The decimal form of every number in ns, in order. */
  function Itoas(ns: seq<int>): (ss: seq<string>)
    ensures |ss| == |ns|
    ensures forall k :: 0 <= k < |ns| ==> ss[k] == Itoa(ns[k])
  {
    seq(|ns|, k requires 0 <= k < |ns| => Itoa(ns[k]))
  }

  /** Reads every part with Atoi; None as soon as one part is not a number. */
  function AtoiAll(parts: seq<string>): Option<seq<int>>
    decreases |parts|
  {
    if |parts| == 0 then Some([])
    else match (Atoi(parts[0]), AtoiAll(parts[1..]))
      case (Some(n), Some(ns)) => Some([n] + ns)
      case _ => None
  }

  lemma {:induction false} AtoiAllItoas(ns: seq<int>)
    ensures AtoiAll(Itoas(ns)) == Some(ns)
    decreases |ns|
  {
    if |ns| > 0 {
      var parts := Itoas(ns);
      assert Atoi(parts[0]) == Some(ns[0]) by {
        ItoaRoundTrip(ns[0]);
      }
      assert AtoiAll(parts[1..]) == Some(ns[1..]) by {
        assert parts[1..] == Itoas(ns[1..]);
        AtoiAllItoas(ns[1..]);
      }
      assert [ns[0]] + ns[1..] == ns;
    }
  }

  /** A non-empty list of numbers survives being written as "a, b, c" and read back. */
  lemma NumberListRoundTrip(ns: seq<int>)
    requires |ns| > 0
    ensures AtoiAll(SplitList(Join(Itoas(ns), ", "))) == Some(ns)
  {
    SplitJoin(Itoas(ns));
    AtoiAllItoas(ns);
  }
}
