/**
 The text operations of Python that the modelled code relies on: `str` and `int` on decimal
 numbers, `split` and `rsplit`. `int` is taken on an optional minus sign and digits only.
 */
module Text {
  import opened Wrappers

  // ---------------------------------------------------------------------------
  // Decimal numbers

  predicate IsDigit(c: char) {
    '0' <= c <= '9'
  }

  predicate AllDigits(s: string) {
    forall c <- s :: IsDigit(c)
  }

  function DigitChar(d: nat): (c: char)
    requires d < 10
    ensures IsDigit(c) && DigitValue(c) == d
  {
    ('0' as int + d) as char
  }

  function DigitValue(c: char): (d: nat)
    requires IsDigit(c)
    ensures d < 10
  {
    c as int - '0' as int
  }

  /** `str(n)` for n >= 0 */
  function Digits(n: nat): (s: string)
    ensures s != [] && AllDigits(s)
  {
    if n < 10 then [DigitChar(n)] else Digits(n / 10) + [DigitChar(n % 10)]
  }

  function Value(s: string): nat
    requires AllDigits(s)
  {
    if s == [] then 0 else Value(s[..|s| - 1]) * 10 + DigitValue(s[|s| - 1])
  }

  function ParseNat(s: string): Option<nat> {
    if s != [] && AllDigits(s) then Some(Value(s)) else None
  }

  function IntText(n: int): string {
    if n < 0 then "-" + Digits(-n) else Digits(n)
  }

  function ParseInt(s: string): Option<int> {
    if s != [] && s[0] == '-' then
      match ParseNat(s[1..])
      case Some(n) => Some(0 - (n as int))
      case None => None
    else
      match ParseNat(s)
      case Some(n) => Some(n as int)
      case None => None
  }

  predicate Canonical(s: string) {
    s != [] && AllDigits(s) && (|s| > 1 ==> s[0] != '0')
  }

  /** Printing gives a canonical text, and reading it back gives the number. */
  lemma {:induction false} DigitsRoundTrip(n: nat)
    ensures Canonical(Digits(n)) && ParseNat(Digits(n)) == Some(n)
    ensures n > 0 ==> Digits(n)[0] != '0'
  {
    var s := Digits(n);
    if n < 10 {
      assert s[..|s| - 1] == "" && s[|s| - 1] == DigitChar(n);
      assert Value(s) == Value("") * 10 + n;
    } else {
      DigitsRoundTrip(n / 10);
      assert s[..|s| - 1] == Digits(n / 10);
    }
  }

  /** A canonical text is what printing its value gives. */
  lemma {:induction false} CanonicalRoundTrip(s: string)
    requires Canonical(s)
    ensures Digits(Value(s)) == s
    ensures |s| > 1 ==> Value(s) >= 10
  {
    if |s| == 1 {
      assert s[..0] == "";
      assert s == [s[0]];
    } else {
      var front := s[..|s| - 1];
      CanonicalRoundTrip(front);
      assert front != "0";
      if |front| == 1 {
        assert front[..0] == "";
        assert Value(front) == DigitValue(front[0]) > 0;
      }
      assert s == front + [s[|s| - 1]];
    }
  }

  /** The `k`-th decimal digit from the right. */
  function DecimalDigit(n: nat, k: nat): (d: nat)
    ensures d < 10
  {
    if k == 0 then n % 10 else DecimalDigit(n / 10, k - 1)
  }

  /** A number's text spells its decimal digits; a minus sign stands in front of a negative one's. */
  lemma {:induction false} DigitsSpell(n: nat, k: nat)
    requires k < |Digits(n)|
    ensures Digits(n)[|Digits(n)| - 1 - k] == "0123456789"[DecimalDigit(n, k)]
    ensures n > 0 ==> IntText(0 - (n as int)) == "-" + Digits(n)
  {
    if k > 0 {
      DigitsSpell(n / 10, k - 1);
    }
  }

  /** Leading zeros do not count. */
  lemma {:induction false} LeadingZero(s: string)
    requires AllDigits(s)
    ensures AllDigits("0" + s) && Value("0" + s) == Value(s)
  {
    var t := "0" + s;
    if s == [] {
      assert t[..0] == "" && t == "0";
    } else {
      assert t[..|t| - 1] == "0" + s[..|s| - 1];
      LeadingZero(s[..|s| - 1]);
    }
  }

  lemma IntRoundTrip(n: int)
    ensures ParseInt(IntText(n)) == Some(n)
    ensures forall c <- IntText(n) :: IsDigit(c) || c == '-'
  {
    if n < 0 {
      DigitsRoundTrip(-n);
      assert IntText(n)[1..] == Digits(-n);
    } else {
      DigitsRoundTrip(n);
      assert IsDigit(Digits(n)[0]);
    }
  }

  lemma IntTextInjective(m: int, n: int)
    requires IntText(m) == IntText(n)
    ensures m == n
  {
    IntRoundTrip(m);
    IntRoundTrip(n);
  }

  // ---------------------------------------------------------------------------
  // Splitting

  /** `s.split(c)` */
  function Split(s: string, c: char): (parts: seq<string>)
    ensures parts != []
  {
    if s == [] then [""]
    else
      var rest := Split(s[1..], c);
      if s[0] == c then [""] + rest else [[s[0]] + rest[0]] + rest[1..]
  }

  lemma {:induction false} SplitNone(s: string, c: char)
    requires c !in s
    ensures Split(s, c) == [s]
  {
    if s != [] {
      SplitNone(s[1..], c);
      assert s == [s[0]] + s[1..];
    }
  }

  lemma {:induction false} SplitFirst(a: string, c: char, rest: string)
    requires c !in a
    ensures Split(a + [c] + rest, c) == [a] + Split(rest, c)
  {
    if a == [] {
      assert a + [c] + rest == [c] + rest;
      assert ([c] + rest)[1..] == rest;
    } else {
      SplitFirst(a[1..], c, rest);
      assert (a + [c] + rest)[1..] == a[1..] + [c] + rest;
      assert [a[0]] + a[1..] == a;
    }
  }

  /** `s.split(c, 1)`: the text before and after the first separator, if there is one. */
  function CutFirst(s: string, c: char): (r: Option<(string, string)>)
    ensures r.None? <==> c !in s
    ensures r.Some? ==> s == r.value.0 + [c] + r.value.1 && c !in r.value.0
  {
    if s == [] then None
    else if s[0] == c then Some(("", s[1..]))
    else
      match CutFirst(s[1..], c)
      case None => None
      case Some((a, b)) => Some(([s[0]] + a, b))
  }

  /** `s.rsplit(c, 1)` */
  function CutLast(s: string, c: char): (r: Option<(string, string)>)
    ensures r.None? <==> c !in s
    ensures r.Some? ==> s == r.value.0 + [c] + r.value.1 && c !in r.value.1
  {
    if s == [] then None
    else if s[|s| - 1] == c then Some((s[..|s| - 1], ""))
    else
      match CutLast(s[..|s| - 1], c)
      case None => None
      case Some((a, b)) => Some((a, b + [s[|s| - 1]]))
  }

  /** The first separator is the one before which there is none. */
  lemma {:induction false} CutFirstUnique(a: string, c: char, b: string)
    requires c !in a
    ensures CutFirst(a + [c] + b, c) == Some((a, b))
  {
    var s := a + [c] + b;
    if a == [] {
      assert s[1..] == b;
    } else {
      assert s[1..] == a[1..] + [c] + b;
      CutFirstUnique(a[1..], c, b);
      assert [a[0]] + a[1..] == a;
    }
  }

  /** The last separator is the one after which there is none. */
  lemma {:induction false} CutLastUnique(a: string, c: char, b: string)
    requires c !in b
    ensures CutLast(a + [c] + b, c) == Some((a, b))
  {
    var s := a + [c] + b;
    if b == [] {
      assert s[..|s| - 1] == a;
    } else {
      var front := b[..|b| - 1];
      assert s[..|s| - 1] == a + [c] + front;
      CutLastUnique(a, c, front);
      assert front + [b[|b| - 1]] == b;
    }
  }

  // ---------------------------------------------------------------------------
  // Stripping and joining

  /** ASCII's white space: blank, tab to carriage return, and the four separators. */
  predicate IsSpace(c: char) {
    c == ' ' || 9 <= c as int <= 13 || 28 <= c as int <= 31
  }

  predicate AllSpace(s: string) {
    forall c <- s :: IsSpace(c)
  }

  lemma SpacesAre(c: char)
    ensures IsSpace(c) <==> c as int in {9, 10, 11, 12, 13, 28, 29, 30, 31, 32}
    ensures IsSpace(' ') && IsSpace('\t') && IsSpace('\n') && IsSpace('\r')
  {
  }

  function Strip(s: string): string {
    if s != [] && IsSpace(s[0]) then Strip(s[1..])
    else if s != [] && IsSpace(s[|s| - 1]) then Strip(s[..|s| - 1])
    else s
  }

  lemma NotStripped(s: string)
    requires s == [] || (!IsSpace(s[0]) && !IsSpace(s[|s| - 1]))
    ensures Strip(s) == s
  {
  }

  /** Stripping takes away what surrounds a text, and no more. */
  lemma {:induction false} StripSurrounded(lead: string, s: string, trail: string)
    requires AllSpace(lead) && AllSpace(trail)
    requires s == [] || (!IsSpace(s[0]) && !IsSpace(s[|s| - 1]))
    ensures Strip(lead + s + trail) == s
    decreases |lead| + |trail|
  {
    var t := lead + s + trail;
    if lead != [] {
      assert t[0] == lead[0] && lead[0] in lead && IsSpace(lead[0]);
      assert t[1..] == lead[1..] + s + trail;
      StripSurrounded(lead[1..], s, trail);
    } else if trail != [] && s != [] {
      assert t[0] == s[0] && t[|t| - 1] == trail[|trail| - 1] && trail[|trail| - 1] in trail;
      assert t[..|t| - 1] == lead + s + trail[..|trail| - 1];
      StripSurrounded(lead, s, trail[..|trail| - 1]);
    } else if trail != [] {
      assert t == trail && trail[0] in trail && t[1..] == lead + s + trail[1..];
      StripSurrounded(lead, s, trail[1..]);
    } else {
      assert t == s;
    }
  }

  lemma {:induction false} StripTakesSpaces(t: string) returns (lead: string, trail: string)
    ensures t == lead + Strip(t) + trail && AllSpace(lead) && AllSpace(trail)
  {
    lead, trail := "", "";
    if t != [] && IsSpace(t[0]) {
      lead, trail := StripTakesSpaces(t[1..]);
      lead := [t[0]] + lead;
      assert t == [t[0]] + t[1..];
    } else if t != [] && IsSpace(t[|t| - 1]) {
      lead, trail := StripTakesSpaces(t[..|t| - 1]);
      trail := trail + [t[|t| - 1]];
      assert t == t[..|t| - 1] + [t[|t| - 1]];
    }
  }

  /** `sep.join(parts)` */
  function JoinAll(parts: seq<string>, sep: char): string {
    if parts == [] then ""
    else if |parts| == 1 then parts[0]
    else parts[0] + [sep] + JoinAll(parts[1..], sep)
  }

  lemma {:induction false} JoinUndoesSplit(s: string, c: char)
    ensures JoinAll(Split(s, c), c) == s
  {
    if s != [] {
      JoinUndoesSplit(s[1..], c);
      var rest := Split(s[1..], c);
      assert s == [s[0]] + s[1..];
      if s[0] == c {
        assert ([""] + rest)[1..] == rest;
      } else {
        assert ([[s[0]] + rest[0]] + rest[1..])[1..] == rest[1..];
      }
    }
  }

  lemma {:induction false} SplitUndoesJoin(parts: seq<string>, c: char)
    requires parts != [] && forall p <- parts :: c !in p
    ensures Split(JoinAll(parts, c), c) == parts
  {
    if |parts| == 1 {
      SplitNone(parts[0], c);
    } else {
      SplitUndoesJoin(parts[1..], c);
      SplitFirst(parts[0], c, JoinAll(parts[1..], c));
      assert [parts[0]] + parts[1..] == parts;
    }
  }
}
