/** The pieces of Go's strings and strconv the model needs. */
module Text {
  import opened Results

  predicate IsSpace(c: char)
  {
    c in {' ', '\t', '\n', '\r', '\U{000B}', '\U{000C}', '\U{0085}', '\U{00A0}', '\U{1680}', '\U{2028}', '\U{2029}',
          '\U{202F}', '\U{205F}', '\U{3000}'} || '\U{2000}' <= c <= '\U{200A}'
  }

  function TrimSpace(s: string): (t: string)
    ensures t != "" ==> !IsSpace(t[0]) && !IsSpace(t[|t| - 1])
    ensures t == "" <==> forall c :: c in s ==> IsSpace(c)
  {
    if s == "" then ""
    else if IsSpace(s[0]) then
      assert s == [s[0]] + s[1..];
      TrimSpace(s[1..])
    else if IsSpace(s[|s| - 1]) then TrimSpace(s[..|s| - 1])
    else s
  }

  predicate Blank(s: string) { forall c :: c in s ==> IsSpace(c) }

  /** A text with the blanks at its ends, and nothing else, taken off. */
  ghost predicate Trimmed(s: string, before: string, t: string, after: string)
  {
    s == before + t + after && Blank(before) && Blank(after)
  }

  lemma {:induction false} TrimMeaning(s: string)
    ensures exists before, after :: Trimmed(s, before, TrimSpace(s), after)
  {
    hide IsSpace, Trimmed;
    if s != "" && IsSpace(s[0]) {
      TrimMeaning(s[1..]);
      var before, after :| Trimmed(s[1..], before, TrimSpace(s[1..]), after);
      assert TrimSpace(s) == TrimSpace(s[1..]);
      BlankBefore(s, before, TrimSpace(s[1..]), after);
    } else if s != "" && IsSpace(s[|s| - 1]) {
      TrimMeaning(s[..|s| - 1]);
      var before, after :| Trimmed(s[..|s| - 1], before, TrimSpace(s[..|s| - 1]), after);
      assert TrimSpace(s) == TrimSpace(s[..|s| - 1]);
      BlankAfter(s, before, TrimSpace(s[..|s| - 1]), after);
    } else {
      assert TrimSpace(s) == s;
      NothingToTrim(s);
    }
  }

  lemma NothingToTrim(s: string)
    ensures Trimmed(s, "", s, "")
  {
  }

  lemma BlankBefore(s: string, before: string, t: string, after: string)
    requires s != "" && IsSpace(s[0]) && Trimmed(s[1..], before, t, after)
    ensures Trimmed(s, [s[0]] + before, t, after)
  {
    hide IsSpace;
    assert s == [s[0]] + s[1..] == ([s[0]] + before) + t + after;
  }

  lemma BlankAfter(s: string, before: string, t: string, after: string)
    requires s != "" && IsSpace(s[|s| - 1]) && Trimmed(s[..|s| - 1], before, t, after)
    ensures Trimmed(s, before, t, after + [s[|s| - 1]])
  {
    hide IsSpace;
    assert s == s[..|s| - 1] + [s[|s| - 1]] == before + t + (after + [s[|s| - 1]]);
  }

  predicate IsDigit(c: char) { '0' <= c <= '9' }

  function DigitsValue(s: string): Option<int>
  {
    if s == "" then Some(0)
    else if !IsDigit(s[|s| - 1]) then None
    else
      match DigitsValue(s[..|s| - 1])
      case None => None
      case Some(n) => Some(10 * n + (s[|s| - 1] as int - '0' as int))
  }

  /** A decimal number with an optional sign. */
  function Atoi(s: string): Option<int>
  {
    var signed := s != "" && s[0] in {'+', '-'};
    var digits := if signed then s[1..] else s;
    if digits == "" then None
    else
      match DigitsValue(digits)
      case None => None
      case Some(n) => Some(if s[0] == '-' then -n else n)
  }

  /** The pieces between occurrences of a character. */
  function Split(s: string, c: char): (parts: seq<string>)
    ensures |parts| > 0
  {
    if s == "" then [""]
    else
      var rest := Split(s[1..], c);
      if s[0] == c then [""] + rest else [[s[0]] + rest[0]] + rest[1..]
  }

  /** What stands before and after the first occurrence of a character. */
  function Cut(s: string, c: char): Option<(string, string)>
  {
    if s == "" then None
    else if s[0] == c then Some(("", s[1..]))
    else
      match Cut(s[1..], c)
      case None => None
      case Some(p) => Some(([s[0]] + p.0, p.1))
  }

  function Digit(d: int): (c: char)
    requires 0 <= d < 10
    ensures IsDigit(c)
  {
    ('0' as int + d) as char
  }

  /** A number below a hundred in two digits. */
  function TwoDigits(n: int): (s: string)
    requires 0 <= n < 100
    ensures |s| == 2 && IsDigit(s[0]) && IsDigit(s[1])
  {
    [Digit(n / 10), Digit(n % 10)]
  }

  lemma OneDigitReadsBack(d: int)
    requires 0 <= d < 10
    ensures DigitsValue([Digit(d)]) == Some(d) && Atoi([Digit(d)]) == Some(d)
  {
    var s := [Digit(d)];
    assert s[..0] == "" && DigitsValue("") == Some(0);
    assert DigitsValue(s) == Some(d);
  }

  lemma TwoDigitsReadBack(n: int)
    requires 0 <= n < 100
    ensures Atoi(TwoDigits(n)) == Some(n)
  {
    var s := TwoDigits(n);
    OneDigitReadsBack(n / 10);
    assert s[..1] == [Digit(n / 10)];
    assert DigitsValue(s) == Some(n);
  }

  /** Two pieces come only from a text with one separator, and are what stands on its either side. */
  lemma {:induction false} SplitMeaning(s: string, c: char)
    ensures |Split(s, c)| == 1 ==> c !in s && Split(s, c) == [s]
    ensures |Split(s, c)| == 2 ==> s == Split(s, c)[0] + [c] + Split(s, c)[1] && c !in Split(s, c)[0] && c !in Split(s, c)[1]
  {
    if s != "" {
      SplitMeaning(s[1..], c);
      assert s == [s[0]] + s[1..];
    }
  }

  /** What is cut stands before and after the first separator. */
  lemma {:induction false} CutMeaning(s: string, c: char)
    ensures Cut(s, c).None? <==> c !in s
    ensures Cut(s, c).Some? ==> s == Cut(s, c).value.0 + [c] + Cut(s, c).value.1 && c !in Cut(s, c).value.0
  {
    if s != "" {
      CutMeaning(s[1..], c);
      assert s == [s[0]] + s[1..];
    }
  }

  /** A piece without the separator comes off whole. */
  lemma {:induction false} CutAfter(a: string, c: char, b: string)
    requires c !in a
    ensures Cut(a + [c] + b, c) == Some((a, b))
  {
    if a == "" {
      assert a + [c] + b == [c] + b;
    } else {
      var s := a + [c] + b;
      assert s[0] == a[0] && s[1..] == a[1..] + [c] + b;
      CutAfter(a[1..], c, b);
      assert [a[0]] + a[1..] == a;
    }
  }

  lemma {:induction false} SplitWhole(a: string, c: char)
    requires c !in a
    ensures Split(a, c) == [a]
  {
    if a != "" {
      SplitWhole(a[1..], c);
      assert [a[0]] + a[1..] == a;
    }
  }

  lemma {:induction false} SplitOnce(a: string, c: char, b: string)
    requires c !in a && c !in b
    ensures Split(a + [c] + b, c) == [a, b]
  {
    if a == "" {
      assert a + [c] + b == [c] + b;
      SplitWhole(b, c);
    } else {
      var s := a + [c] + b;
      assert s[0] == a[0] && s[1..] == a[1..] + [c] + b;
      SplitOnce(a[1..], c, b);
      assert [a[0]] + a[1..] == a;
    }
  }

  // ---------------------------------------------------------------- the length of a text in bytes

  predicate IsAscii(s: string) { forall i :: 0 <= i < |s| ==> s[i] < '\U{0080}' }

  function Utf8Width(c: char): (n: nat)
    ensures n >= 1
    ensures n == 1 <==> c < '\U{0080}'
  {
    if c < '\U{0080}' then 1 else if c < '\U{0800}' then 2 else if c < '\U{10000}' then 3 else 4
  }

  function Utf8Length(s: string): (n: nat)
    ensures n >= |s|
  {
    if s == "" then 0 else Utf8Length(s[..|s| - 1]) + Utf8Width(s[|s| - 1])
  }

  lemma {:induction false} AsciiIsOneByteEach(s: string)
    ensures Utf8Length(s) == |s| <==> IsAscii(s)
  {
    if s != "" {
      var init := s[..|s| - 1];
      AsciiIsOneByteEach(init);
      assert IsAscii(s) <==> IsAscii(init) && s[|s| - 1] < '\U{0080}';
    }
  }

  // ---------------------------------------------------------------- lexicographic order

  predicate TextLess(a: string, b: string)
  {
    b != [] && (a == [] || a[0] < b[0] || (a[0] == b[0] && TextLess(a[1..], b[1..])))
  }

  lemma {:induction false} TextOrder(a: string, b: string, c: string)
    ensures !(TextLess(a, b) && TextLess(b, a))
    ensures TextLess(a, b) && TextLess(b, c) ==> TextLess(a, c)
    ensures a != b ==> TextLess(a, b) || TextLess(b, a)
    decreases |a| + |b| + |c|
  {
    if a != [] && b != [] {
      if c != [] {
        TextOrder(a[1..], b[1..], c[1..]);
      } else {
        TextOrder(a[1..], b[1..], []);
      }
      assert a == [a[0]] + a[1..] && b == [b[0]] + b[1..];
    }
  }

  lemma {:induction false} OrderExtends(s: string, t: string, x: string, y: string)
    requires |s| == |t| && TextLess(s, t)
    ensures TextLess(s + x, t + y)
  {
    var a, b := s + x, t + y;
    assert a[0] == s[0] && b[0] == t[0];
    if s[0] == t[0] {
      OrderExtends(s[1..], t[1..], x, y);
      assert a[1..] == s[1..] + x && b[1..] == t[1..] + y;
    }
  }

  lemma {:induction false} OrderAfter(lead: string, s: string, t: string)
    requires TextLess(s, t)
    ensures TextLess(lead + s, lead + t)
  {
    if lead == "" {
      assert lead + s == s && lead + t == t;
    } else {
      var a, b := lead + s, lead + t;
      OrderAfter(lead[1..], s, t);
      assert a[0] == lead[0] == b[0] && a[1..] == lead[1..] + s && b[1..] == lead[1..] + t;
    }
  }
}
