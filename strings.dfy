/** The behaviour of Python's `str` that the header reader depends on:
    whitespace, `split(maxsplit=1)`, `split()`, `split(' ')`,
    `replace("'", "")`, `int()`, the quoted-name regular expression and
    `readlines()`. */
module Strings {
  import opened Outcomes

  /** The characters for which Python's `str.isspace()` holds; `str.split()`,
      `str.strip()` and the regular-expression class `\s` use this set, and
      `int()` a part of it (`IsIntSpace`). None of them is a digit, a sign,
      an underscore or a quote, so whitespace never runs into a number or
      into the quotes around a name. */
  predicate IsSpace(c: char)
    ensures IsSpace(c) ==> !IsDigit(c) && c != '+' && c != '-' && c != '_' && c != '\''
  {
    ('\t' <= c <= '\r') || ('\U{1c}' <= c <= ' ') || c == '\U{85}' || c == '\U{a0}'
    || c == '\U{1680}' || ('\U{2000}' <= c <= '\U{200a}') || c == '\U{2028}'
    || c == '\U{2029}' || c == '\U{202f}' || c == '\U{205f}' || c == '\U{3000}'
  }

  predicate AllSpace(s: string) {
    forall i :: 0 <= i < |s| ==> IsSpace(s[i])
  }

  predicate NoSpace(s: string) {
    forall i :: 0 <= i < |s| ==> !IsSpace(s[i])
  }

  /** Length of the whitespace run at the start of `s`. */
  function SpaceRun(s: string): (n: nat)
    ensures n <= |s| && forall i :: 0 <= i < n ==> IsSpace(s[i])
    ensures n < |s| ==> !IsSpace(s[n])
  {
    if s == [] || !IsSpace(s[0]) then 0 else 1 + SpaceRun(s[1..])
  }

  /** Length of the non-whitespace run at the start of `s`. */
  function TokenRun(s: string): (n: nat)
    ensures n <= |s| && forall i :: 0 <= i < n ==> !IsSpace(s[i])
    ensures n < |s| ==> IsSpace(s[n])
  {
    if s == [] || IsSpace(s[0]) then 0 else 1 + TokenRun(s[1..])
  }

  /** Length of the whitespace run at the end of `s`. */
  function TrailingSpace(s: string): (n: nat)
    ensures n <= |s| && forall i :: |s| - n <= i < |s| ==> IsSpace(s[i])
    ensures n < |s| ==> !IsSpace(s[|s| - n - 1])
  {
    if s == [] || !IsSpace(s[|s| - 1]) then 0 else 1 + TrailingSpace(s[..|s| - 1])
  }

  /** `s.strip()`: `s` without its leading and trailing whitespace. The
      result is a piece of `s`, it is empty exactly when `s` is all
      whitespace, and otherwise it starts and ends with something else. */
  function Strip(s: string): (r: string)
    ensures SpaceRun(s) + |r| <= |s| && r == s[SpaceRun(s)..SpaceRun(s) + |r|]
    ensures r == [] <==> AllSpace(s)
    ensures r != [] ==> !IsSpace(r[0]) && !IsSpace(r[|r| - 1])
  {
    var a := SpaceRun(s);
    var t := s[a..];
    var r := t[..|t| - TrailingSpace(t)];
    assert a < |s| ==> TrailingSpace(t) < |t|;
    r
  }

  /** The whitespace run at the start of `s` ends exactly at `k`. */
  lemma SpaceRunIs(s: string, k: nat)
    requires k <= |s| && forall i :: 0 <= i < k ==> IsSpace(s[i])
    requires k < |s| ==> !IsSpace(s[k])
    ensures SpaceRun(s) == k
  {
  }

  /** The token at the start of `s` ends exactly at `k`. */
  lemma TokenRunIs(s: string, k: nat)
    requires k <= |s| && forall i :: 0 <= i < k ==> !IsSpace(s[i])
    requires k < |s| ==> IsSpace(s[k])
    ensures TokenRun(s) == k
  {
  }

  /** The whitespace run at the end of `s` starts exactly `k` from the end. */
  lemma TrailingSpaceIs(s: string, k: nat)
    requires k <= |s| && forall i :: |s| - k <= i < |s| ==> IsSpace(s[i])
    requires k < |s| ==> !IsSpace(s[|s| - k - 1])
    ensures TrailingSpace(s) == k
  {
  }

  lemma SpaceRunOf(a: string, b: string)
    requires AllSpace(a)
    requires b == [] || !IsSpace(b[0])
    ensures SpaceRun(a + b) == |a|
  {
    SpaceRunIs(a + b, |a|);
  }

  lemma TokenRunOf(a: string, b: string)
    requires NoSpace(a)
    requires b == [] || IsSpace(b[0])
    ensures TokenRun(a + b) == |a|
  {
    TokenRunIs(a + b, |a|);
  }

  lemma SpaceRunAppend(a: string, b: string)
    requires AllSpace(a)
    ensures SpaceRun(a + b) == |a| + SpaceRun(b)
  {
    var k := SpaceRun(b);
    var s := a + b;
    assert forall i :: |a| <= i < |s| ==> s[i] == b[i - |a|];
    SpaceRunIs(s, |a| + k);
  }

  /** Stripping removes exactly the whitespace padding around a text that
      neither starts nor ends with whitespace. */
  lemma StripPadded(lead: string, t: string, trail: string)
    requires AllSpace(lead) && AllSpace(trail)
    requires t != [] && !IsSpace(t[0]) && !IsSpace(t[|t| - 1])
    ensures Strip(lead + t + trail) == t
  {
    var s := lead + t + trail;
    SpaceRunIs(s, |lead|);
    var u := s[|lead|..];
    assert u == t + trail;
    TrailingSpaceIs(u, |trail|);
    assert u[..|t|] == t;
  }

  // ---------------------------------------------------------------------
  // str.split(maxsplit=1)

  /** `line.split(maxsplit=1)`: the first whitespace-delimited token and,
      when anything but whitespace follows it, the rest of the line after
      the whitespace run that ends the token. The rest keeps its trailing
      characters, whitespace included. */
  function SplitOnce(line: string): (parts: seq<string>)
    ensures |parts| <= 2
    ensures parts != [] ==> parts[0] != [] && NoSpace(parts[0])
    ensures |parts| == 2 ==> parts[1] != [] && !IsSpace(parts[1][0])
  {
    var a := SpaceRun(line);
    if a == |line| then
      assert line[..a] == line;
      []
    else
      var t := line[a..];
      var n := TokenRun(t);
      var u := t[n..];
      var b := SpaceRun(u);
      if b == |u| then [t[..n]] else [t[..n], u[b..]]
  }

  /** Only a whitespace-only line has no token. */
  lemma SplitOnceBlank(line: string)
    ensures SplitOnce(line) == [] <==> AllSpace(line)
  {
    var a := SpaceRun(line);
    if a == |line| {
      assert line[..a] == line;
    }
  }

  /** A line `lead + key + gap + rest` splits into `key` and `rest`. */
  lemma SplitOnceTwo(lead: string, key: string, gap: string, rest: string)
    requires AllSpace(lead) && AllSpace(gap) && gap != []
    requires key != [] && NoSpace(key)
    requires rest != [] && !IsSpace(rest[0])
    ensures SplitOnce(lead + key + gap + rest) == [key, rest]
  {
    var u := gap + rest;
    var tail := key + u;
    assert lead + key + gap + rest == lead + tail;
    SplitOnceLead(lead, tail);
    SpaceRunOf(gap, rest);
    assert u[|gap|..] == rest;
    assert !IsSpace(u[|gap|]);
    SplitOnceKey(key, u);
  }

  /** Leading whitespace does not change the split. */
  lemma SplitOnceLead(lead: string, tail: string)
    requires AllSpace(lead) && tail != [] && !IsSpace(tail[0])
    ensures SplitOnce(lead + tail) == SplitOnce(tail)
  {
    SpaceRunOf(lead, tail);
    assert (lead + tail)[|lead|..] == tail;
    assert tail[0..] == tail;
  }

  /** A split that starts at a token: the token, and whatever follows the
      whitespace behind it. */
  lemma SplitOnceKey(key: string, u: string)
    requires key != [] && NoSpace(key) && u != [] && IsSpace(u[0])
    requires SpaceRun(u) < |u|
    ensures SplitOnce(key + u) == [key, u[SpaceRun(u)..]]
  {
    var line := key + u;
    SpaceRunIs(line, 0);
    assert line[0..] == line;
    TokenRunOf(key, u);
    assert line[..|key|] == key && line[|key|..] == u;
  }

  /** A line holding a single token, possibly padded, splits into that token. */
  lemma SplitOnceOne(lead: string, key: string, trail: string)
    requires AllSpace(lead) && AllSpace(trail)
    requires key != [] && NoSpace(key)
    ensures SplitOnce(lead + key + trail) == [key]
  {
    var line := lead + key + trail;
    assert line == lead + (key + trail);
    SpaceRunOf(lead, key + trail);
    var t := line[|lead|..];
    assert t == key + trail;
    TokenRunOf(key, trail);
    var u := t[|key|..];
    assert u == trail;
    SpaceRunOf(trail, []);
    assert trail + [] == trail;
  }

  // ---------------------------------------------------------------------
  // Joining

  /** `sep.join(parts)`. */
  function Join(parts: seq<string>, sep: string): string {
    if parts == [] then []
    else if |parts| == 1 then parts[0]
    else parts[0] + sep + Join(parts[1..], sep)
  }

  // ---------------------------------------------------------------------
  // str.split()

  /** `s.split()`: the maximal non-whitespace runs of `s`, in order. */
  function Words(s: string): (ws: seq<string>)
    ensures forall i :: 0 <= i < |ws| ==> ws[i] != [] && NoSpace(ws[i])
    decreases |s|
  {
    var a := SpaceRun(s);
    if a == |s| then []
    else
      var t := s[a..];
      var n := TokenRun(t);
      [t[..n]] + Words(t[n..])
  }

  lemma WordsSkipSpace(a: string, b: string)
    requires AllSpace(a)
    ensures Words(a + b) == Words(b)
  {
    SpaceRunAppend(a, b);
    assert (a + b)[|a| + SpaceRun(b)..] == b[SpaceRun(b)..];
  }

  /** Splitting words joined by a whitespace separator gives the words back. */
  lemma {:induction false} WordsJoin(ws: seq<string>, sep: string)
    requires sep != [] && AllSpace(sep)
    requires forall i :: 0 <= i < |ws| ==> ws[i] != [] && NoSpace(ws[i])
    ensures Words(Join(ws, sep)) == ws
    decreases |ws|
  {
    if ws == [] {
    } else if |ws| == 1 {
      WordsOne(ws[0]);
    } else {
      WordsFront(ws[0], sep, Join(ws[1..], sep));
      WordsJoin(ws[1..], sep);
    }
  }

  lemma WordsOne(w: string)
    requires w != [] && NoSpace(w)
    ensures Words(w) == [w]
  {
    SpaceRunOf([], w);
    assert [] + w == w;
    TokenRunOf(w, []);
    assert w + [] == w;
    assert w[|w|..] == [];
  }

  /** A word, a whitespace separator and a rest split into the word and the
      words of the rest. */
  lemma WordsFront(w: string, sep: string, rest: string)
    requires w != [] && NoSpace(w) && sep != [] && AllSpace(sep)
    ensures Words(w + sep + rest) == [w] + Words(rest)
  {
    var s := w + sep + rest;
    assert s == [] + (w + (sep + rest));
    SpaceRunOf([], w + (sep + rest));
    TokenRunOf(w, sep + rest);
    assert s[..|w|] == w;
    assert s[|w|..] == sep + rest;
    WordsSkipSpace(sep, rest);
  }

  // ---------------------------------------------------------------------
  // str.split(c) for a single character c

  /** `s.split(c)`: the pieces between the occurrences of `c`; consecutive
      occurrences give empty pieces. */
  function SplitAt(s: string, c: char): (parts: seq<string>)
    ensures |parts| >= 1
    ensures forall i :: 0 <= i < |parts| ==> c !in parts[i]
  {
    if s == [] then [[]]
    else if s[0] == c then [[]] + SplitAt(s[1..], c)
    else
      var r := SplitAt(s[1..], c);
      [[s[0]] + r[0]] + r[1..]
  }

  /** Joining the pieces with `c` rebuilds the text. */
  lemma {:induction false} JoinSplitAt(s: string, c: char)
    ensures Join(SplitAt(s, c), [c]) == s
  {
    if s == [] {
    } else if s[0] == c {
      var r := SplitAt(s[1..], c);
      JoinSplitAt(s[1..], c);
      assert [[]] + r == [[]] + r;
      assert ([[]] + r)[1..] == r;
    } else {
      var r := SplitAt(s[1..], c);
      JoinSplitAt(s[1..], c);
      var p := [[s[0]] + r[0]] + r[1..];
      if |r| == 1 {
        assert Join(p, [c]) == [s[0]] + r[0];
        assert Join(r, [c]) == r[0];
      } else {
        assert p[1..] == r[1..];
        assert Join(r, [c]) == r[0] + [c] + Join(r[1..], [c]);
      }
    }
  }

  /** Splitting pieces free of `c` that were joined with `c` gives the pieces back. */
  lemma {:induction false} SplitAtJoin(ps: seq<string>, c: char)
    requires |ps| >= 1
    requires forall i :: 0 <= i < |ps| ==> c !in ps[i]
    ensures SplitAt(Join(ps, [c]), c) == ps
    decreases |ps|, |ps[0]|
  {
    var p := ps[0];
    if p == [] {
      if |ps| > 1 {
        var rest := Join(ps[1..], [c]);
        assert Join(ps, [c]) == [c] + rest;
        SplitAtJoin(ps[1..], c);
        assert ps == [[]] + ps[1..];
      }
    } else {
      var qs := [p[1..]] + ps[1..];
      assert forall i :: 1 <= i < |qs| ==> qs[i] == ps[i];
      SplitAtJoin(qs, c);
      assert [p[0]] + qs[0] == p && qs[1..] == ps[1..];
      assert ps == [[p[0]] + qs[0]] + qs[1..];
      JoinFront(p[0], qs, [c]);
      SplitAtChar(p[0], Join(qs, [c]), c);
    }
  }

  /** Joining a list whose first piece starts with `x` puts `x` first. */
  lemma JoinFront(x: char, qs: seq<string>, sep: string)
    requires qs != []
    ensures Join([[x] + qs[0]] + qs[1..], sep) == [x] + Join(qs, sep)
  {
    var ps := [[x] + qs[0]] + qs[1..];
    assert ps[1..] == qs[1..];
  }

  /** A character other than `c` joins the first piece. */
  lemma SplitAtChar(x: char, rest: string, c: char)
    requires x != c
    ensures SplitAt([x] + rest, c) == [[x] + SplitAt(rest, c)[0]] + SplitAt(rest, c)[1..]
  {
    assert ([x] + rest)[1..] == rest;
  }

  // ---------------------------------------------------------------------
  // str.replace(c, "")

  /** `s.replace(c, "")`: `s` with every `c` deleted. */
  function Remove(s: string, c: char): (r: string)
    ensures c !in r
    ensures |r| <= |s|
    ensures c !in s ==> r == s
  {
    if s == [] then []
    else if s[0] == c then Remove(s[1..], c)
    else [s[0]] + Remove(s[1..], c)
  }

  lemma {:induction false} RemoveAppend(a: string, b: string, c: char)
    ensures Remove(a + b, c) == Remove(a, c) + Remove(b, c)
  {
    if a != [] {
      assert (a + b)[1..] == a[1..] + b;
      RemoveAppend(a[1..], b, c);
    } else {
      assert a + b == b;
    }
  }

  /** Deleting the quotes around a quote-free text gives the text. */
  lemma RemoveQuotes(s: string)
    requires '\'' !in s
    ensures Remove("'" + s + "'", '\'') == s
  {
    RemoveAppend("'" + s, "'", '\'');
    RemoveAppend("'", s, '\'');
  }

  // ---------------------------------------------------------------------
  // int()

  predicate IsDigit(c: char) {
    '0' <= c <= '9'
  }

  /** Python's decimal integer literal body: digits, with single underscores
      allowed between two digits. */
  predicate IsDigitGroup(s: string) {
    && s != []
    && IsDigit(s[0]) && IsDigit(s[|s| - 1])
    && (forall i :: 0 <= i < |s| ==> IsDigit(s[i]) || s[i] == '_')
    && (forall i :: 0 <= i < |s| - 1 ==> !(s[i] == '_' && s[i + 1] == '_'))
  }

  /** The base-10 value of the digits of `s`, underscores ignored. */
  function DigitsValue(s: string): nat {
    if s == [] then 0
    else if IsDigit(s[|s| - 1]) then
      DigitsValue(s[..|s| - 1]) * 10 + (s[|s| - 1] as int - '0' as int)
    else DigitsValue(s[..|s| - 1])
  }

  /** A character that `int()` skips around a number: the ASCII whitespace
      of CPython's `Py_ISSPACE`, or any non-ASCII character for which
      `str.isspace()` holds. The separators U+001C..U+001F count as
      whitespace for `str.isspace()` but not for `int()`. */
  predicate IsIntSpace(c: char) {
    IsSpace(c) && !('\U{1c}' <= c <= '\U{1f}')
  }

  predicate AllIntSpace(s: string) {
    forall i :: 0 <= i < |s| ==> IsIntSpace(s[i])
  }

  /** What `int()` parses in place of `c`. CPython hands an all-ASCII text
      to its ASCII parser unchanged; in any other text it first replaces
      each non-ASCII whitespace character with a space and the first other
      non-ASCII character with '?', cutting the text there. The ASCII
      parser skips only `Py_ISSPACE` whitespace and accepts only signs,
      digits and underscores, so a U+001C..U+001F separator, a '?' and a
      cut-off tail all make it fail; writing each as '?' keeps that. */
  function IntChar(c: char): (d: char)
    ensures IsSpace(d) <==> IsIntSpace(c)
    ensures IsDigit(d) <==> IsDigit(c)
    ensures (c == '+' || c == '-' || c == '_') ==> d == c
  {
    if '\U{1c}' <= c <= '\U{1f}' then '?'
    else if c < '\U{80}' then c
    else if IsSpace(c) then ' '
    else '?'
  }

  function IntText(s: string): (t: string)
    ensures |t| == |s| && forall i :: 0 <= i < |s| ==> t[i] == IntChar(s[i])
  {
    seq(|s|, i requires 0 <= i < |s| => IntChar(s[i]))
  }

  lemma IntTextAppend(a: string, b: string)
    ensures IntText(a + b) == IntText(a) + IntText(b)
  {
  }

  lemma IntTextPadding(s: string)
    requires AllIntSpace(s)
    ensures AllSpace(IntText(s))
  {
  }

  /** `int(s)` for a `str` argument: the whitespace `int()` skips is
      ignored at both ends, and what remains must be an optional sign and a
      digit group. `None` stands for the ValueError. Text without a single
      digit is always rejected. */
  function ParseInt(s: string): (r: Option<int>)
    ensures r.Some? ==> exists i :: 0 <= i < |s| && IsDigit(s[i])
  {
    var t := IntText(s);
    StripDigit(t);
    IntLiteral(Strip(t))
  }

  /** An optional sign and a digit group, with nothing around them. An
      accepted literal ends with a digit, and only a leading '-' makes its
      value negative. */
  function IntLiteral(t: string): (r: Option<int>)
    ensures r.Some? ==> t != [] && IsDigit(t[|t| - 1])
    ensures r.Some? && r.value < 0 ==> t[0] == '-'
  {
    if t != [] && (t[0] == '+' || t[0] == '-') then
      if IsDigitGroup(t[1..]) then
        var v: int := DigitsValue(t[1..]);
        Some(if t[0] == '-' then -v else v)
      else None
    else if IsDigitGroup(t) then Some(DigitsValue(t))
    else None
  }

  /** A digit of the stripped text is a digit of the text. */
  lemma StripDigit(s: string)
    ensures (exists i :: 0 <= i < |Strip(s)| && IsDigit(Strip(s)[i]))
         ==> exists j :: 0 <= j < |s| && IsDigit(s[j])
  {
    var a := SpaceRun(s);
    assert forall i :: 0 <= i < |Strip(s)| ==> Strip(s)[i] == s[a + i];
  }

  /** Whitespace that `int()` skips does not change what it reads. */
  lemma IntPadded(lead: string, t: string, trail: string)
    requires AllIntSpace(lead) && AllIntSpace(trail)
    requires t != [] && !IsIntSpace(t[0]) && !IsIntSpace(t[|t| - 1])
    ensures ParseInt(lead + t + trail) == ParseInt(t)
  {
    var u := IntText(t);
    StripIntPadded(lead, t, trail);
    assert u == [] + u + [];
    StripPadded([], u, []);
  }

  lemma StripIntPadded(lead: string, t: string, trail: string)
    requires AllIntSpace(lead) && AllIntSpace(trail)
    requires t != [] && !IsIntSpace(t[0]) && !IsIntSpace(t[|t| - 1])
    ensures Strip(IntText(lead + t + trail)) == IntText(t)
  {
    IntTextAppend(lead + t, trail);
    IntTextAppend(lead, t);
    IntTextPadding(lead);
    IntTextPadding(trail);
    StripPadded(IntText(lead), IntText(t), IntText(trail));
  }

  /** The decimal rendering of `n`, as `str(n)` gives it. */
  function Decimal(n: nat): (s: string)
    ensures IsDigitGroup(s) && DigitsValue(s) == n
  {
    var d := (n % 10 + '0' as int) as char;
    if n < 10 then
      assert [d][..0] == [];
      [d]
    else
      var p := Decimal(n / 10);
      var s := p + [d];
      assert s[..|s| - 1] == p;
      assert forall i :: 0 <= i < |s| - 1 ==> s[i] == p[i];
      s
  }

  /** `int()` reads back what `str()` writes, with any padding it skips. */
  lemma ParseIntDecimal(lead: string, n: nat, trail: string)
    requires AllIntSpace(lead) && AllIntSpace(trail)
    ensures ParseInt(lead + Decimal(n) + trail) == Some(n)
  {
    PaddedDigits(lead, Decimal(n), trail);
  }

  /** `int()` passes a digit group through unchanged. */
  lemma DigitsText(d: string)
    requires IsDigitGroup(d)
    ensures IntText(d) == d
  {
    forall i | 0 <= i < |d| ensures IntText(d)[i] == d[i] {
      assert IsDigit(d[i]) || d[i] == '_';
    }
  }

  lemma PaddedDigits(lead: string, d: string, trail: string)
    requires AllIntSpace(lead) && AllIntSpace(trail) && IsDigitGroup(d)
    ensures ParseInt(lead + d + trail) == Some(DigitsValue(d))
  {
    IntTextAppend(lead + d, trail);
    IntTextAppend(lead, d);
    IntTextPadding(lead);
    IntTextPadding(trail);
    DigitsText(d);
    StripPadded(IntText(lead), d, IntText(trail));
  }

  /** A decimal rendering is a single token that `int()` reads back. */
  lemma DecimalToken(n: nat)
    ensures Decimal(n) != [] && NoSpace(Decimal(n)) && ParseInt(Decimal(n)) == Some(n)
  {
    DigitsToken(Decimal(n));
  }

  lemma DigitsToken(d: string)
    requires IsDigitGroup(d)
    ensures d != [] && NoSpace(d) && ParseInt(d) == Some(DigitsValue(d))
  {
    forall j | 0 <= j < |d| ensures !IsSpace(d[j]) {
      assert IsDigit(d[j]) || d[j] == '_';
    }
    assert d == [] + d + [];
    PaddedDigits([], d, []);
  }

  /** The same for a negative number. */
  lemma ParseIntNegative(lead: string, n: nat, trail: string)
    requires AllIntSpace(lead) && AllIntSpace(trail)
    ensures ParseInt(lead + "-" + Decimal(n) + trail) == Some(0 - n)
  {
    SignedDigits(lead, Decimal(n), trail);
  }

  lemma SignedDigits(lead: string, d: string, trail: string)
    requires AllIntSpace(lead) && AllIntSpace(trail) && IsDigitGroup(d)
    ensures ParseInt(lead + "-" + d + trail) == Some(0 - DigitsValue(d))
  {
    StripSigned(lead, d, trail);
    NegativeLiteral(d);
  }

  lemma StripSigned(lead: string, d: string, trail: string)
    requires AllIntSpace(lead) && AllIntSpace(trail) && IsDigitGroup(d)
    ensures Strip(IntText(lead + "-" + d + trail)) == "-" + d
  {
    var t := "-" + d;
    assert lead + "-" + d + trail == lead + t + trail;
    IntTextAppend(lead + t, trail);
    IntTextAppend(lead, t);
    IntTextAppend("-", d);
    DigitsText(d);
    assert IntText("-") == "-";
    IntTextPadding(lead);
    IntTextPadding(trail);
    assert t[|t| - 1] == d[|d| - 1];
    StripPadded(IntText(lead), t, IntText(trail));
  }

  lemma NegativeLiteral(d: string)
    requires IsDigitGroup(d)
    ensures IntLiteral("-" + d) == Some(0 - DigitsValue(d))
  {
    assert ("-" + d)[1..] == d;
  }

  // ---------------------------------------------------------------------
  // re.findall(r"'([\w\s\-()/.]+)'", s)

  /** The ASCII part of the regular-expression class `\w`. */
  predicate IsWordChar(c: char) {
    ('a' <= c <= 'z') || ('A' <= c <= 'Z') || ('0' <= c <= '9') || c == '_'
  }

  /** The character class `[\w\s\-()/.]` of a variable name. */
  predicate IsNameChar(c: char) {
    IsWordChar(c) || IsSpace(c) || c == '-' || c == '(' || c == ')' || c == '/' || c == '.'
  }

  predicate AllNameChars(s: string) {
    forall i :: 0 <= i < |s| ==> IsNameChar(s[i])
  }

  /** Length of the run of name characters at the start of `s`. */
  function NameRun(s: string): (n: nat)
    ensures n <= |s| && forall i :: 0 <= i < n ==> IsNameChar(s[i])
    ensures n < |s| ==> !IsNameChar(s[n])
  {
    if s == [] || !IsNameChar(s[0]) then 0 else 1 + NameRun(s[1..])
  }

  lemma NameRunOf(a: string, b: string)
    requires AllNameChars(a)
    requires b == [] || !IsNameChar(b[0])
    ensures NameRun(a + b) == |a|
  {
    var s := a + b;
    var n := NameRun(s);
    assert forall i :: 0 <= i < |a| ==> s[i] == a[i];
    assert b != [] ==> s[|a|] == b[0];
  }

  /** The names `re.findall` returns, left to right. A match starts at a
      quote, needs a non-empty run of name characters and then a closing
      quote; after a match the search resumes behind the closing quote,
      otherwise one character further on. A quote is not a name
      character, so the greedy run cannot backtrack into a match. */
  function QuotedNames(s: string): (names: seq<string>)
    ensures forall i :: 0 <= i < |names| ==> names[i] != [] && AllNameChars(names[i])
    decreases |s|
  {
    if s == [] then []
    else if s[0] == '\'' then
      var n := NameRun(s[1..]);
      if n > 0 && 1 + n < |s| && s[1 + n] == '\'' then
        [s[1..1 + n]] + QuotedNames(s[2 + n..])
      else QuotedNames(s[1..])
    else QuotedNames(s[1..])
  }

  lemma {:induction false} QuotedNamesSkip(a: string, b: string)
    requires '\'' !in a
    ensures QuotedNames(a + b) == QuotedNames(b)
    decreases |a|
  {
    if a != [] {
      assert (a + b)[0] == a[0];
      assert (a + b)[1..] == a[1..] + b;
      QuotedNamesSkip(a[1..], b);
    } else {
      assert a + b == b;
    }
  }

  function Quote(n: string): string {
    "'" + n + "'"
  }

  /** The names, each in quotes, separated by single spaces. */
  function QuotedList(names: seq<string>): string {
    if names == [] then []
    else if |names| == 1 then Quote(names[0])
    else Quote(names[0]) + " " + QuotedList(names[1..])
  }

  /** A quoted name at the front is the first name found. */
  lemma QuotedNamesHead(n: string, rest: string)
    requires n != [] && AllNameChars(n)
    ensures QuotedNames("'" + n + "'" + rest) == [n] + QuotedNames(rest)
  {
    var s := "'" + n + "'" + rest;
    assert s[1..] == n + ("'" + rest);
    NameRunOf(n, "'" + rest);
    assert s[1 + |n|] == '\'';
    assert s[1..1 + |n|] == n;
    assert s[2 + |n|..] == rest;
  }

  lemma QuotedNamesOne(n: string)
    requires n != [] && AllNameChars(n)
    ensures QuotedNames(Quote(n)) == [n]
  {
    assert Quote(n) == "'" + n + "'" + [];
    QuotedNamesHead(n, []);
  }

  lemma QuotedNamesSpaced(n: string, rest: string)
    requires n != [] && AllNameChars(n)
    ensures QuotedNames(Quote(n) + " " + rest) == [n] + QuotedNames(rest)
  {
    assert Quote(n) + " " + rest == "'" + n + "'" + (" " + rest);
    QuotedNamesHead(n, " " + rest);
    QuotedNamesSkip(" ", rest);
  }

  /** The quoted-name scan reads back every name of a quoted list. */
  lemma {:induction false} QuotedNamesOfList(names: seq<string>)
    requires forall i :: 0 <= i < |names| ==> names[i] != [] && AllNameChars(names[i])
    ensures QuotedNames(QuotedList(names)) == names
    decreases |names|
  {
    if names != [] {
      var n := names[0];
      assert forall i :: 0 <= i < |names[1..]| ==> names[1..][i] == names[i + 1];
      QuotedNamesOfList(names[1..]);
      assert n != [] && AllNameChars(n);
      if |names| == 1 {
        QuotedNamesOne(n);
      } else {
        QuotedNamesSpaced(n, QuotedList(names[1..]));
      }
      assert names == [n] + names[1..];
    }
  }

  // ---------------------------------------------------------------------
  // readlines()

  /** `text.readlines()` with the '\n' of every line deleted: the pieces
      between newlines, without the empty piece a final newline leaves. */
  function Lines(text: string): (ls: seq<string>)
    ensures forall i :: 0 <= i < |ls| ==> '\n' !in ls[i]
  {
    var ps := SplitAt(text, '\n');
    if ps[|ps| - 1] == [] then ps[..|ps| - 1] else ps
  }

  /** The text of a file whose lines are `ls`, each ended by a newline. */
  function Unlines(ls: seq<string>): string {
    Join(ls + [[]], "\n")
  }

  /** Reading the lines of a file written line by line gives the lines back. */
  lemma LinesUnlines(ls: seq<string>)
    requires forall i :: 0 <= i < |ls| ==> '\n' !in ls[i]
    ensures Lines(Unlines(ls)) == ls
  {
    var ps := ls + [[]];
    assert forall i :: 0 <= i < |ps| ==> '\n' !in ps[i];
    SplitAtJoin(ps, '\n');
    assert ps[..|ps| - 1] == ls;
  }
}
