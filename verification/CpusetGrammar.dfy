// The lists of CPU numbers that are accepted, by their text alone.
module CpusetGrammar {
  import opened Options
  import opened Decimal
  import opened Text
  import opened Cpusets

  // ----------------------------------------------------------------- blanks

  predicate Blank(s: string) {
    forall i :: 0 <= i < |s| ==> IsSpace(s[i])
  }

  // Nothing is left to trim.
  predicate Trimmed(s: string) {
    s != "" ==> !IsSpace(s[0]) && !IsSpace(s[|s| - 1])
  }

  lemma {:induction false} TrimLeftCuts(s: string)
    ensures var t := TrimLeft(s);
      |t| <= |s| && t == s[|s| - |t|..] && Blank(s[..|s| - |t|]) && (t != "" ==> !IsSpace(t[0]))
  {
    if s != "" && IsSpace(s[0]) {
      TrimLeftCuts(s[1..]);
      var t := TrimLeft(s);
      assert s[..|s| - |t|] == [s[0]] + s[1..][..|s| - 1 - |t|];
    }
  }

  lemma {:induction false} TrimRightCuts(s: string)
    ensures var t := TrimRight(s);
      |t| <= |s| && t == s[..|t|] && Blank(s[|t|..]) && (t != "" ==> !IsSpace(t[|t| - 1]))
  {
    if s != "" && IsSpace(s[|s| - 1]) {
      var n := |s| - 1;
      TrimRightCuts(s[..n]);
      var t := TrimRight(s);
      assert s[|t|..] == s[..n][|t|..] + [s[n]];
    }
  }

  // A text trims to what stands between blanks and has none at its ends.
  lemma TrimAsStated(s: string) returns (a: string, b: string)
    ensures Blank(a) && Blank(b) && s == a + TrimSpace(s) + b
    ensures Trimmed(TrimSpace(s))
  {
    hide IsSpace, TrimLeft, TrimRight;
    var u := TrimLeft(s);
    TrimLeftCuts(s);
    TrimRightCuts(u);
    a, b := s[..|s| - |u|], u[|TrimSpace(s)|..];
    assert u == TrimSpace(s) + b && s == a + u;
    assert TrimSpace(s) != "" ==> TrimSpace(s)[0] == u[0];
  }

  lemma {:induction false} TrimLeftOf(a: string, t: string)
    requires Blank(a) && (t != "" ==> !IsSpace(t[0]))
    ensures TrimLeft(a + t) == t
  {
    if a != "" {
      assert (a + t)[0] == a[0] && (a + t)[1..] == a[1..] + t;
      TrimLeftOf(a[1..], t);
    } else {
      assert a + t == t;
    }
  }

  lemma {:induction false} TrimRightOf(t: string, b: string)
    requires Blank(b) && (t != "" ==> !IsSpace(t[|t| - 1]))
    ensures TrimRight(t + b) == t
  {
    if b != "" {
      var n := |b| - 1;
      assert (t + b)[|t| + n] == b[n] && (t + b)[..|t| + n] == t + b[..n];
      TrimRightOf(t, b[..n]);
    } else {
      assert t + b == t;
    }
  }

  lemma TrimOf(a: string, t: string, b: string)
    requires Blank(a) && Blank(b) && Trimmed(t)
    ensures TrimSpace(a + t + b) == t
  {
    if t == "" {
      assert a + t + b == (a + b) + "";
      TrimLeftOf(a + b, "");
    } else {
      assert a + t + b == a + (t + b) && (t + b)[0] == t[0];
      TrimLeftOf(a, t + b);
      TrimRightOf(t, b);
    }
  }

  // Blanks around a text change nothing.
  lemma BlanksAreTrimmed(a: string, s: string, b: string)
    requires Blank(a) && Blank(b)
    ensures TrimSpace(a + s + b) == TrimSpace(s)
  {
    var c, d := TrimAsStated(s);
    assert a + s + b == (a + c) + TrimSpace(s) + (d + b);
    TrimOf(a + c, TrimSpace(s), d + b);
  }

  // ---------------------------------------------------------------- numbers

  predicate Zeros(s: string) {
    forall i :: 0 <= i < |s| ==> s[i] == '0'
  }

  // A number that fits, with zeros in front of it if need be.
  ghost predicate Numeral(s: string, n: nat) {
    n <= 0x7FFF_FFFF_FFFF_FFFF
    && exists zeros :: Zeros(zeros) && (s == zeros + Itoa(n) || s == "+" + (zeros + Itoa(n)))
  }

  lemma {:induction false} NumberPadded(zeros: string, n: nat)
    requires Zeros(zeros)
    ensures AllDigits(zeros + Itoa(n)) && Number(zeros + Itoa(n)) == n
    decreases n, |zeros|
  {
    var s := zeros + Itoa(n);
    assert forall i :: 0 <= i < |s| ==> IsDigit(s[i]);
    if n < 10 {
      assert s[..|s| - 1] == zeros;
      NumberOfZeros(zeros);
    } else {
      assert s[..|s| - 1] == zeros + Itoa(n / 10);
      NumberPadded(zeros, n / 10);
    }
  }

  lemma {:induction false} NumberOfZeros(zeros: string)
    requires Zeros(zeros)
    ensures AllDigits(zeros) && Number(zeros) == 0
  {
    if zeros != "" { NumberOfZeros(zeros[..|zeros| - 1]); }
  }

  lemma ItoaAppended(m: nat, d: nat)
    requires d < 10
    ensures Itoa(d) == [DigitOf(d)] && (m > 0 ==> Itoa(10 * m + d) == Itoa(m) + [DigitOf(d)])
  {
    var n := 10 * m + d;
    assert n / 10 == m && n % 10 == d;
  }

  lemma NumberAppended(front: string, c: char)
    requires AllDigits(front) && IsDigit(c)
    ensures AllDigits(front + [c]) && Number(front + [c]) == 10 * Number(front) + ValueOf(c)
  {
    assert (front + [c])[..|front|] == front;
  }

  lemma {:induction false} DigitsArePadded(s: string) returns (zeros: string)
    requires s != "" && AllDigits(s)
    ensures Zeros(zeros) && s == zeros + Itoa(Number(s))
  {
    hide Itoa, Number, ValueOf;
    var n := |s| - 1;
    var front, c := s[..n], s[n];
    assert s == front + [c] && AllDigits(front) && IsDigit(c);
    NumberAppended(front, c);
    ItoaAppended(Number(front), ValueOf(c));
    zeros := "";
    if front == "" {
      NumberOfZeros("");
    } else {
      zeros := DigitsArePadded(front);
      if Number(front) == 0 {
        ItoaAppended(0, 0);
        zeros := front;
      }
    }
  }

  lemma AtoiReads(s: string, n: nat) returns (digits: string)
    requires '-' !in s && Atoi(s) == Some(n)
    ensures digits != "" && AllDigits(digits) && Number(digits) == n <= MAX_INT
    ensures s == digits || s == "+" + digits
  {
    hide Number;
    digits := if s[0] == '+' then s[1..] else s;
    assert s[0] == '+' ==> s == "+" + digits;
  }

  lemma AtoiIsNumeral(s: string, n: nat)
    requires '-' !in s && Atoi(s) == Some(n)
    ensures Numeral(s, n)
  {
    hide Itoa, Number, Atoi, AllDigits;
    var digits := AtoiReads(s, n);
    var zeros := DigitsArePadded(digits);
  }

  lemma NumeralIsAtoi(s: string, n: nat)
    requires '-' !in s && Numeral(s, n)
    ensures Atoi(s) == Some(n)
  {
    hide Itoa, Number;
    var zeros :| Zeros(zeros) && (s == zeros + Itoa(n) || s == "+" + (zeros + Itoa(n)));
    var digits := zeros + Itoa(n);
    NumberPadded(zeros, n);
    assert IsDigit(digits[0]);
    if s != digits { assert s[1..] == digits; }
  }

  lemma NumeralAsStated(s: string, n: nat)
    requires '-' !in s
    ensures Atoi(s) == Some(n) <==> Numeral(s, n)
  {
    hide Atoi, Numeral;
    if Atoi(s) == Some(n) { AtoiIsNumeral(s, n); }
    if Numeral(s, n) { NumeralIsAtoi(s, n); }
  }

  // ------------------------------------------------------------------ ranges

  // One number, or two joined by a dash, the first not the larger.
  ghost predicate RangeText(t: string, start: nat, end: nat) {
    || (start == end && '-' !in t && Numeral(t, start))
    || (start <= end && exists u, v :: t == u + "-" + v && Bounds(u, v, start, end))
  }

  ghost predicate Bounds(u: string, v: string, start: nat, end: nat) {
    '-' !in u && '-' !in v && Numeral(u, start) && Numeral(v, end)
  }

  lemma {:induction false} JoinSplit(s: string, sep: char)
    ensures Join(Split(s, sep), sep) == s
  {
    if s != "" {
      var n := |s| - 1;
      var front := Split(s[..n], sep);
      JoinSplit(s[..n], sep);
      assert s == s[..n] + [s[n]];
      var parts := Split(s, sep);
      if s[n] == sep {
        assert parts[..|parts| - 1] == front;
      } else {
        assert parts[..|parts| - 1] == front[..|front| - 1];
      }
    }
  }

  lemma SplitInTwo(s: string, sep: char, u: string, v: string)
    requires Split(s, sep) == [u, v]
    ensures s == u + [sep] + v
  {
    JoinSplit(s, sep);
    assert [u, v][..1] == [u] && Join([u], sep) == u;
  }

  lemma RangesAreNatural(t: string)
    requires ParseRange(t).Some?
    ensures 0 <= ParseRange(t).value.0 <= ParseRange(t).value.1
  {
    hide Atoi;
    if '-' in t {
      AtoiUnsigned(Split(t, '-')[0]);
    } else {
      AtoiUnsigned(t);
    }
  }

  lemma NumeralEnds(s: string, n: nat)
    requires Numeral(s, n)
    ensures s != "" && Trimmed(s)
  {
    assert IsDigit(Itoa(n)[0]) && IsDigit(Itoa(n)[|Itoa(n)| - 1]);
    assert s[|s| - 1] == Itoa(n)[|Itoa(n)| - 1];
  }

  lemma RangeEnds(t: string, start: nat, end: nat)
    requires RangeText(t, start, end)
    ensures t != "" && Trimmed(t)
  {
    hide Numeral, IsSpace;
    if start == end && '-' !in t && Numeral(t, start) {
      NumeralEnds(t, start);
    } else {
      var u, v :| t == u + "-" + v && Bounds(u, v, start, end);
      NumeralEnds(u, start);
      NumeralEnds(v, end);
      assert t[0] == u[0] && t[|t| - 1] == v[|v| - 1];
    }
  }

  // The ranges that are accepted are those written so.
  lemma RangeAsStated(t: string, start: nat, end: nat)
    ensures ParseRange(t) == Some((start, end)) <==> RangeText(t, start, end)
  {
    hide Atoi, Split, Numeral;
    if '-' !in t {
      NumeralAsStated(t, start);
    } else {
      var parts := Split(t, '-');
      if ParseRange(t) == Some((start, end)) {
        SplitInTwo(t, '-', parts[0], parts[1]);
        NumeralAsStated(parts[0], start);
        NumeralAsStated(parts[1], end);
        assert Bounds(parts[0], parts[1], start, end);
        assert t == parts[0] + "-" + parts[1];
      }
      if RangeText(t, start, end) {
        var u, v :| t == u + "-" + v && Bounds(u, v, start, end);
        SplitWord(u, '-');
        SplitAppended(u, v, '-');
        assert u + ['-'] + v == t;
        NumeralAsStated(u, start);
        NumeralAsStated(v, end);
      }
    }
  }

  // ------------------------------------------------------------------- lists

  lemma {:induction false} SplitJoined(s: string, t: string, sep: char)
    ensures Split(s + [sep] + t, sep) == Split(s, sep) + Split(t, sep)
  {
    var w := s + [sep] + t;
    var n := |w| - 1;
    if t == "" {
      assert w[..n] == s;
    } else {
      var m := |t| - 1;
      assert w[..n] == s + [sep] + t[..m] && w[n] == t[m];
      SplitJoined(s, t[..m], sep);
    }
  }

  function Both(a: Option<set<nat>>, b: Option<set<nat>>): Option<set<nat>> {
    if a.Some? && b.Some? then Some(a.value + b.value) else None
  }

  lemma {:induction false} PartsJoined(p: seq<string>, q: seq<string>)
    ensures ParseParts(p + q) == Both(ParseParts(p), ParseParts(q))
  {
    hide TrimSpace, ParseRange, Interval;
    if q == [] {
      assert p + q == p;
      if ParseParts(p).Some? { assert ParseParts(p).value + {} == ParseParts(p).value; }
    } else {
      var n := |q| - 1;
      assert (p + q)[..|p| + n] == p + q[..n];
      PartsJoined(p, q[..n]);
      assert (p + q)[|p| + n] == q[n];
      var t := TrimSpace(q[n]);
      if ParseParts(p).Some? && ParseParts(q[..n]).Some? && ParseRange(t).Some? {
        var c := Interval(ParseRange(t).value.0, ParseRange(t).value.1);
        var a, b := ParseParts(p).value, ParseParts(q[..n]).value;
        assert a + b + c == a + (b + c);
      }
    }
  }

  lemma EmptyList()
    ensures ParseList("") == ParseParts(Split("", ','))
  {
    assert ParseParts([""][..0]) == Some({});
  }

  // Lists joined by a comma are accepted exactly when both are, and stand for
  // the union.
  lemma ListsJoined(s: string, t: string)
    ensures ParseList(s + "," + t) == Both(ParseList(s), ParseList(t))
  {
    hide ParseParts, Split;
    SplitJoined(s, t, ',');
    PartsJoined(Split(s, ','), Split(t, ','));
    EmptyList();
    assert s + [','] + t == s + "," + t;
  }

  lemma OnePartParsed(s: string)
    requires ',' !in s
    ensures var t := TrimSpace(s);
      ParseList(s) == if t == "" then Some({}) else if ParseRange(t).None? then None
        else Some(Interval(ParseRange(t).value.0, ParseRange(t).value.1))
  {
    hide TrimSpace, ParseRange, Split, Interval;
    SplitWord(s, ',');
    EmptyList();
    assert [s][..0] == [] && ParseParts([]) == Some({});
    assert ParseList(s) == ParseParts([s]);
    var t := TrimSpace(s);
    if ParseRange(t).Some? {
      var c := Interval(ParseRange(t).value.0, ParseRange(t).value.1);
      assert {} + c == c;
    }
  }

  ghost predicate RangeBetween(a: string, t: string, b: string, start: nat, end: nat, c: set<nat>) {
    && Blank(a) && Blank(b) && RangeText(t, start, end)
    && forall i: nat :: i in c <==> start <= i <= end
  }

  // A list of one part is blank, or one range between blanks.
  lemma OnePart(s: string, c: set<nat>)
    requires ',' !in s
    ensures ParseList(s) == Some(c)
      <==> || (Blank(s) && c == {})
           || exists a, t, b, start: nat, end: nat :: s == a + t + b && RangeBetween(a, t, b, start, end, c)
  {
    hide IsSpace, ParseRange, RangeText, TrimSpace, ParseList;
    OnePartParsed(s);
    var a, b := TrimAsStated(s);
    var t := TrimSpace(s);
    if ParseList(s) == Some(c) {
      if t != "" {
        RangesAreNatural(t);
        var start, end := ParseRange(t).value.0, ParseRange(t).value.1;
        RangeAsStated(t, start, end);
        assert RangeBetween(a, t, b, start, end, c);
      }
    }
    if Blank(s) && c == {} {
      TrimOf(s, "", "");
      assert s + "" + "" == s;
    }
    if p, r, q, start: nat, end: nat :| s == p + r + q && RangeBetween(p, r, q, start, end, c) {
      RangeEnds(r, start, end);
      TrimOf(p, r, q);
      RangeAsStated(r, start, end);
      assert c == Interval(start, end);
    }
  }

  // Blanks around a part change nothing.
  lemma BlanksAroundAPart(a: string, s: string, b: string)
    requires ',' !in s && Blank(a) && Blank(b)
    ensures ParseList(a + s + b) == ParseList(s)
  {
    hide ParseRange, TrimSpace, ParseList;
    BlanksAreTrimmed(a, s, b);
    NoComma(a);
    NoComma(b);
    OnePartParsed(s);
    OnePartParsed(a + s + b);
  }

  lemma NoComma(a: string)
    requires Blank(a)
    ensures ',' !in a
  {
  }

  // A range is printed in the shortest way there is to write it.
  lemma PrintedIsShortest(r: Range, t: string)
    requires RangeText(t, r.start, r.end)
    ensures |PrintRange(r)| <= |t|
  {
    hide Numeral, Itoa;
    if r.start == r.end && Numeral(t, r.start) {
      NumeralLength(t, r.start);
    } else {
      var u, v :| t == u + "-" + v && Bounds(u, v, r.start, r.end);
      NumeralLength(u, r.start);
      NumeralLength(v, r.end);
    }
  }

  lemma NumeralLength(s: string, n: nat)
    requires Numeral(s, n)
    ensures |Itoa(n)| <= |s|
  {
  }
}
