/** Time-ordered identifiers: how they are printed, what reading accepts, and why they sort by time. */
module Ids {
  import opened Results
  import opened Text

  const ALPHABET := "0123456789ABCDEFGHJKMNPQRSTVWXYZ"
  const TIME_CHARS := 10
  const RANDOM_CHARS := 16
  const TOTAL_CHARS := 26

  /** The character for five bits. */
  function Symbol(v: nat): char
    requires v < 32
  {
    ALPHABET[v]
  }

  lemma AlphabetClimbs(i: nat, j: nat)
    requires i < j < 32
    ensures Symbol(i) < Symbol(j)
  {
    if i < j - 1 {
      AlphabetClimbs(i, j - 1);
    }
  }

  /** The place of a character in the alphabet at or after i. */
  function IndexFrom(c: char, i: nat): (v: Option<nat>)
    requires i <= 32
    ensures v.Some? ==> i <= v.value < 32 && Symbol(v.value) == c
    ensures v.None? ==> forall k :: i <= k < 32 ==> Symbol(k) != c
    decreases 32 - i
  {
    if i == 32 then None else if Symbol(i) == c then Some(i) else IndexFrom(c, i + 1)
  }

  function IndexOf(c: char): (v: Option<nat>)
    ensures v.Some? ==> v.value < 32 && Symbol(v.value) == c
  {
    IndexFrom(c, 0)
  }

  lemma IndexOfChar(v: nat)
    requires v < 32
    ensures IndexOf(Symbol(v)) == Some(v)
  {
    var found := IndexOf(Symbol(v));
    if found.Some? && found.value < v {
      AlphabetClimbs(found.value, v);
    } else if found.Some? && found.value > v {
      AlphabetClimbs(v, found.value);
    }
  }

  /** An arithmetic shift to the right by five bits, i times over. */
  function Shift(ms: int, i: nat): int { if i == 0 then ms else Shift(ms, i - 1) / 32 }

  lemma {:induction false} ShiftInside(ms: int, i: nat)
    ensures Shift(ms / 32, i) == Shift(ms, i + 1)
  {
    if i > 0 {
      ShiftInside(ms, i - 1);
    }
  }

  /** The low 5n bits of a time, most significant character first. */
  function TimeText(ms: int, n: nat): (s: string)
    ensures |s| == n
    decreases n
  {
    if n == 0 then "" else TimeText(ms / 32, n - 1) + [Symbol(ms % 32)]
  }

  function RandomText(bytes: seq<int>): (s: string)
    ensures |s| == |bytes|
  {
    seq(|bytes|, i requires 0 <= i < |bytes| => Symbol(bytes[i] % 32))
  }

  function Payload(ms: int, bytes: seq<int>): string { TimeText(ms, TIME_CHARS) + RandomText(bytes) }

  function Lead(prefix: string): string { if prefix == "" then "" else prefix + "_" }

  lemma NextTimeSymbol(ms: int, i: nat, n: nat)
    ensures TimeText(Shift(ms, i), n + 1) == TimeText(Shift(ms, i + 1), n) + [Symbol(Shift(ms, i) % 32)]
  {
  }

  lemma NextRandomSymbol(bytes: seq<int>, k: nat)
    requires k < |bytes|
    ensures RandomText(bytes)[..k + 1] == RandomText(bytes)[..k] + [Symbol(bytes[k] % 32)]
  {
  }

  method WriteTime(start: string, ms: int) returns (s: string)
    ensures s == start + TimeText(ms, TIME_CHARS)
  {
    s := start;
    assert s == start + TimeText(Shift(ms, TIME_CHARS), 0) && Shift(ms, 0) == ms;
    hide Symbol, Shift, TimeText;
    var i := TIME_CHARS - 1;
    while i >= 0
      invariant -1 <= i < TIME_CHARS
      invariant s == start + TimeText(Shift(ms, i + 1), TIME_CHARS - 1 - i)
    {
      NextTimeSymbol(ms, i, TIME_CHARS - 1 - i);
      s := s + [Symbol(Shift(ms, i) % 32)];
      i := i - 1;
    }
  }

  method WriteRandom(start: string, bytes: seq<int>) returns (s: string)
    ensures s == start + RandomText(bytes)
  {
    hide Symbol, RandomText;
    s := start;
    for k := 0 to |bytes|
      invariant s == start + RandomText(bytes)[..k]
    {
      NextRandomSymbol(bytes, k);
      s := s + [Symbol(bytes[k] % 32)];
    }
    assert RandomText(bytes)[..|bytes|] == RandomText(bytes);
  }

  method New(prefix: string, ms: int, bytes: seq<int>) returns (s: string)
    requires |bytes| == RANDOM_CHARS
    ensures s == Lead(prefix) + Payload(ms, bytes)
  {
    s := "";
    if prefix != "" {
      s := s + prefix;
      s := s + "_";
    }
    s := WriteTime(s, ms);
    s := WriteRandom(s, bytes);
  }

  // ---- Reading ----

  /** What follows the last underscore; everything, when there is none. */
  function AfterLast(s: string): string
  {
    if s == "" || s[|s| - 1] == '_' then ""
    else AfterLast(s[..|s| - 1]) + [s[|s| - 1]]
  }

  lemma {:induction false} AfterLastMeaning(s: string)
    ensures '_' !in AfterLast(s)
    ensures exists head :: s == head + AfterLast(s) && (head == "" || head[|head| - 1] == '_')
  {
    if s == "" || s[|s| - 1] == '_' {
      assert s == s + AfterLast(s);
    } else {
      var init := s[..|s| - 1];
      AfterLastMeaning(init);
      var head :| init == head + AfterLast(init) && (head == "" || head[|head| - 1] == '_');
      assert s == init + [s[|s| - 1]] == head + AfterLast(s);
    }
  }

  const LONG_S: char := '\U{017F}'

  /**
   The upper case of a character. Two letters beyond ASCII have theirs within it, the dotless i and the long s; the upper
   case of any other is beyond ASCII as it is itself, and no such character is in the alphabet.
   */
  function UpperChar(c: char): char
  {
    if 'a' <= c <= 'z' then (c as int - 32) as char
    else if c == '\U{0131}' then 'I'
    else if c == LONG_S then 'S'
    else c
  }

  function ToUpper(s: string): (t: string)
    ensures |t| == |s|
  {
    seq(|s|, i requires 0 <= i < |s| => UpperChar(s[i]))
  }

  predicate Spelled(s: string) { forall i :: 0 <= i < |s| ==> IndexOf(s[i]).Some? }

  function Value(s: string): int
    requires Spelled(s)
  {
    if s == "" then 0 else 32 * Value(s[..|s| - 1]) + IndexOf(s[|s| - 1]).value
  }

  /** What reading a text comes to; an overrun is an index past the end of the upper-cased text, which stops the program. */
  datatype Reading = Time(ms: int) | Invalid | Overrun

  function Parsed(s: string): Reading
  {
    var t := AfterLast(s);
    var u := ToUpper(t);
    if Utf8Length(t) != TOTAL_CHARS || !Spelled(u) then Invalid
    else if |u| < TOTAL_CHARS then Overrun
    else Time(Value(u[..TIME_CHARS]))
  }

  lemma ValueStep(t: string, i: nat, v: nat)
    requires i < |t| && Spelled(t[..i]) && IndexOf(t[i]) == Some(v)
    ensures Spelled(t[..i + 1]) && Value(t[..i + 1]) == 32 * Value(t[..i]) + v
  {
    hide IndexOf;
    assert t[..i + 1][..i] == t[..i];
  }

  lemma MisspelledAt(t: string, i: nat)
    requires i < |t| && IndexOf(t[i]).None?
    ensures !Spelled(t)
  {
  }

  lemma SpelledThroughout(t: string, n: nat)
    requires n <= |t| && Spelled(t[..n]) && forall k :: n <= k < |t| ==> IndexOf(t[k]).Some?
    ensures Spelled(t)
  {
    hide IndexOf;
    assert forall k :: 0 <= k < n ==> t[..n][k] == t[k];
  }

  /** The bytes of the upper-cased text, one after the other: up to the first that is no symbol each is one character. */
  method Parse(s: string) returns (r: Reading)
    ensures r == Parsed(s)
  {
    hide AfterLast, ToUpper, IndexOf, Spelled, Value, Utf8Length;
    var t := AfterLast(s);
    if Utf8Length(t) != TOTAL_CHARS { return Invalid; }
    t := ToUpper(t);
    var ms := 0;
    EmptyReads(t);
    for i := 0 to TIME_CHARS
      invariant i <= |t| && Spelled(t[..i]) && ms == Value(t[..i])
    {
      if i >= |t| {
        SpelledThroughout(t, i);
        return Overrun;
      }
      var v := IndexOf(t[i]);
      if v.None? {
        MisspelledAt(t, i);
        return Invalid;
      }
      ValueStep(t, i, v.value);
      ms := 32 * ms + v.value;
    }
    for i := TIME_CHARS to TOTAL_CHARS
      invariant i <= |t| && forall k :: TIME_CHARS <= k < i ==> IndexOf(t[k]).Some?
    {
      if i >= |t| {
        SpelledThroughout(t, TIME_CHARS);
        return Overrun;
      }
      var v := IndexOf(t[i]);
      if v.None? {
        MisspelledAt(t, i);
        return Invalid;
      }
    }
    SpelledThroughout(t, TIME_CHARS);
    return Time(ms);
  }

  lemma EmptyReads(t: string)
    ensures Spelled(t[..0]) && Value(t[..0]) == 0
  {
  }

  // ---- Round trips ----

  function Pow32(n: nat): (p: int)
    ensures p > 0
  {
    if n == 0 then 1 else 32 * Pow32(n - 1)
  }

  lemma TimeTextIsSpelled(ms: int, n: nat)
    ensures Spelled(TimeText(ms, n))
    decreases n
  {
    if n > 0 {
      TimeTextIsSpelled(ms / 32, n - 1);
      IndexOfChar(ms % 32);
    }
  }

  lemma {:induction false} ValueFits(s: string)
    requires Spelled(s)
    ensures 0 <= Value(s) < Pow32(|s|)
  {
    if s != "" {
      ValueFits(s[..|s| - 1]);
    }
  }

  /** Reading a printed time gives it back when it fits the characters; what does not fit is lost. */
  lemma {:induction false} TimeReadsBack(ms: int, n: nat)
    ensures Spelled(TimeText(ms, n))
    ensures Value(TimeText(ms, n)) == ms <==> 0 <= ms < Pow32(n)
    decreases n
  {
    TimeTextIsSpelled(ms, n);
    ValueFits(TimeText(ms, n));
    if 0 <= ms < Pow32(n) && n > 0 {
      TimeReadsBack(ms / 32, n - 1);
      IndexOfChar(ms % 32);
      assert TimeText(ms, n)[..n - 1] == TimeText(ms / 32, n - 1);
    }
  }

  /** Only one text of its length reads as a value. */
  lemma {:induction false} ValuePrintsBack(s: string)
    requires Spelled(s)
    ensures TimeText(Value(s), |s|) == s
  {
    if s != "" {
      var init, v := s[..|s| - 1], IndexOf(s[|s| - 1]).value;
      ValueFits(init);
      ValuePrintsBack(init);
      assert Value(s) / 32 == Value(init) && Value(s) % 32 == v;
      assert s == init + [s[|s| - 1]];
    }
  }

  lemma SpelledIsUpper(s: string)
    requires Spelled(s)
    ensures ToUpper(s) == s && '_' !in s
  {
    forall i | 0 <= i < |s| ensures UpperChar(s[i]) == s[i] && s[i] != '_' {
      UpperAlphabet(IndexOf(s[i]).value);
    }
  }

  lemma UpperAlphabet(v: nat)
    requires v < 32
    ensures UpperChar(Symbol(v)) == Symbol(v) && Symbol(v) != '_'
  {
    if v < 31 {
      AlphabetClimbs(v, 31);
    }
  }

  lemma AfterLastStep(s: string, c: char)
    requires c != '_'
    ensures AfterLast(s + [c]) == AfterLast(s) + [c]
  {
    assert (s + [c])[..|s|] == s;
  }

  lemma {:induction false} AfterLastKeepsTail(s: string, t: string)
    requires '_' !in t
    ensures AfterLast(s + t) == AfterLast(s) + t
  {
    hide AfterLast;
    if t == "" {
      assert s + t == s && AfterLast(s) + t == AfterLast(s);
    } else {
      var init, last := t[..|t| - 1], t[|t| - 1];
      AfterLastKeepsTail(s, init);
      assert s + t == (s + init) + [last];
      AfterLastStep(s + init, last);
      assert AfterLast(s) + t == AfterLast(s) + init + [last];
    }
  }

  lemma AfterLead(prefix: string, t: string)
    requires '_' !in t
    ensures AfterLast(Lead(prefix) + t) == t
  {
    AfterLastKeepsTail(Lead(prefix), t);
  }

  lemma RandomTextIsSpelled(bytes: seq<int>)
    ensures Spelled(RandomText(bytes))
  {
    forall i | 0 <= i < |bytes| ensures IndexOf(RandomText(bytes)[i]).Some? {
      IndexOfChar(bytes[i] % 32);
    }
  }

  /** An identifier reads as the time it was made, under every prefix, exactly for the times fifty bits hold. */
  lemma ParseUndoesNew(prefix: string, ms: int, bytes: seq<int>)
    requires |bytes| == RANDOM_CHARS
    ensures Parsed(Lead(prefix) + Payload(ms, bytes)).Time?
    ensures Parsed(Lead(prefix) + Payload(ms, bytes)) == Time(ms) <==> 0 <= ms < 0x4_0000_0000_0000
  {
    var p := Payload(ms, bytes);
    TimeReadsBack(ms, TIME_CHARS);
    RandomTextIsSpelled(bytes);
    SpelledIsUpper(p);
    SpelledIsAscii(p);
    hide Spelled, Value, Utf8Length, AfterLast, ToUpper, TimeText, RandomText;
    AfterLead(prefix, p);
    assert p[..TIME_CHARS] == TimeText(ms, TIME_CHARS);
    assert Pow32(10) == 0x4_0000_0000_0000;
  }

  lemma RandomPrintsBack(p: string) returns (bytes: seq<int>)
    requires Spelled(p)
    ensures |bytes| == |p| && RandomText(bytes) == p
  {
    bytes := seq(|p|, i requires 0 <= i < |p| => IndexOf(p[i]).value as int);
  }

  lemma SpelledIsPrinted(p: string)
    requires Spelled(p) && |p| == TOTAL_CHARS
    ensures exists ms, bytes: seq<int> :: |bytes| == RANDOM_CHARS && p == Payload(ms, bytes)
  {
    var time, random := p[..TIME_CHARS], p[TIME_CHARS..];
    assert Spelled(time) && Spelled(random);
    hide TimeText, Value, IndexOf, Symbol, RandomText, Spelled;
    var bytes := RandomPrintsBack(random);
    ValuePrintsBack(time);
    assert p == time + random == Payload(Value(time), bytes);
  }

  lemma PrintedIsSpelled(ms: int, bytes: seq<int>)
    ensures Spelled(Payload(ms, bytes))
  {
    TimeTextIsSpelled(ms, TIME_CHARS);
    RandomTextIsSpelled(bytes);
  }

  lemma SymbolIsAscii(c: char)
    requires IndexOf(c).Some?
    ensures c < '\U{0080}'
  {
    UpperAlphabet(IndexOf(c).value);
    if IndexOf(c).value < 31 {
      AlphabetClimbs(IndexOf(c).value, 31);
    }
  }

  lemma SpelledIsAscii(s: string)
    requires Spelled(s)
    ensures IsAscii(s) && Utf8Length(s) == |s|
  {
    forall i | 0 <= i < |s| ensures s[i] < '\U{0080}' {
      SymbolIsAscii(s[i]);
    }
    AsciiIsOneByteEach(s);
  }

  /** A text that upper-cases to symbols is ASCII, but for the long s. */
  lemma UpperSpelled(t: string)
    requires Spelled(ToUpper(t))
    ensures IsAscii(t) <==> LONG_S !in t
  {
    forall i | 0 <= i < |t| && t[i] >= '\U{0080}' ensures t[i] == LONG_S {
      assert ToUpper(t)[i] == UpperChar(t[i]);
      SymbolIsAscii(UpperChar(t[i]));
      NoIInTheAlphabet();
    }
  }

  lemma NoIInTheAlphabet()
    ensures IndexOf('I').None?
  {
    forall k | 0 <= k < 32 ensures Symbol(k) != 'I' {
      if k < 17 {
        AlphabetClimbs(k, 17);
      } else if k > 18 {
        AlphabetClimbs(18, k);
      }
    }
  }

  /** Reading accepts, after any prefix and in any case, exactly what can be printed. */
  lemma AcceptsWhatIsPrinted(s: string)
    ensures Parsed(s).Time? <==>
              && IsAscii(AfterLast(s))
              && exists ms, bytes: seq<int> :: |bytes| == RANDOM_CHARS && ToUpper(AfterLast(s)) == Payload(ms, bytes)
  {
    hide AfterLast, ToUpper, Spelled, TimeText, RandomText, Value, IsAscii, Utf8Length;
    var p := ToUpper(AfterLast(s));
    AsciiIsOneByteEach(AfterLast(s));
    if Parsed(s).Time? {
      SpelledIsPrinted(p);
    }
    if ms, bytes: seq<int> :| |bytes| == RANDOM_CHARS && p == Payload(ms, bytes) {
      PrintedIsSpelled(ms, bytes);
    }
  }

  /** Reading runs past the end exactly for 26 bytes that upper-case to symbols and hold a long s, whose capital is a byte shorter. */
  lemma OverrunsOnTheLongS(s: string)
    ensures Parsed(s).Overrun? <==>
            var t := AfterLast(s); Utf8Length(t) == TOTAL_CHARS && Spelled(ToUpper(t)) && LONG_S in t
  {
    hide AfterLast, ToUpper, Spelled, Value, IsAscii, Utf8Length;
    var t := AfterLast(s);
    AsciiIsOneByteEach(t);
    if Spelled(ToUpper(t)) {
      UpperSpelled(t);
    }
  }

  const ZEROS: string := "000000000000000000000000"

  lemma LongSBytes()
    ensures Utf8Length(ZEROS + [LONG_S]) == TOTAL_CHARS
  {
    AsciiIsOneByteEach(ZEROS);
    assert (ZEROS + [LONG_S])[..24] == ZEROS;
  }

  lemma LongSUpper()
    ensures Spelled(ToUpper(ZEROS + [LONG_S]))
  {
    IndexOfChar(0);
    IndexOfChar(25);
    hide IndexOf;
    forall i | 0 <= i < 25 ensures IndexOf(ToUpper(ZEROS + [LONG_S])[i]).Some? {
      assert ToUpper(ZEROS + [LONG_S])[i] == if i < 24 then Symbol(0) else Symbol(25);
    }
  }

  /** Twenty-four symbols and a long s. */
  lemma OverrunIsReachable()
    ensures Parsed(ZEROS + [LONG_S]).Overrun?
  {
    var s := ZEROS + [LONG_S];
    AfterLastKeepsTail("", s);
    assert "" + s == s;
    LongSBytes();
    LongSUpper();
    assert LONG_S in s && AfterLast(s) == s;
    hide AfterLast, ToUpper, Spelled, Value, IsAscii, Utf8Length, ZEROS;
    OverrunsOnTheLongS(s);
  }

  lemma {:induction false} AfterLastIgnoresCase(s: string)
    ensures AfterLast(ToUpper(s)) == ToUpper(AfterLast(s))
  {
    if s != "" {
      assert ToUpper(s)[..|s| - 1] == ToUpper(s[..|s| - 1]);
      AfterLastIgnoresCase(s[..|s| - 1]);
      assert UpperChar(s[|s| - 1]) == '_' <==> s[|s| - 1] == '_';
    }
  }

  lemma UpperIsFinal(s: string)
    ensures ToUpper(ToUpper(s)) == ToUpper(s)
  {
  }

  /** A long s counts two bytes before upper-casing and one after. */
  predicate CaseMatters(s: string)
  {
    var t := AfterLast(s);
    LONG_S in t && Spelled(ToUpper(t)) && (Utf8Length(t) == TOTAL_CHARS || |t| == TOTAL_CHARS)
  }

  /** Upper-casing an identifier changes how it reads only through a long s. */
  lemma CaseIsIgnored(s: string)
    ensures Parsed(ToUpper(s)) == Parsed(s) <==> !CaseMatters(s)
  {
    hide AfterLast, Spelled, Value, ToUpper, IsAscii, Utf8Length;
    var t := AfterLast(s);
    AfterLastIgnoresCase(s);
    UpperIsFinal(t);
    AsciiIsOneByteEach(t);
    if Spelled(ToUpper(t)) {
      SpelledIsAscii(ToUpper(t));
      UpperSpelled(t);
    }
  }

  // ---- Order ----

  lemma {:induction false} TimesSort(a: int, b: int, n: nat)
    requires 0 <= a < b < Pow32(n)
    ensures TextLess(TimeText(a, n), TimeText(b, n))
  {
    if a / 32 < b / 32 {
      TimesSort(a / 32, b / 32, n - 1);
      OrderExtends(TimeText(a / 32, n - 1), TimeText(b / 32, n - 1), [Symbol(a % 32)], [Symbol(b % 32)]);
    } else {
      AlphabetClimbs(a % 32, b % 32);
      OrderAfter(TimeText(a / 32, n - 1), [Symbol(a % 32)], [Symbol(b % 32)]);
    }
  }

  /** Of two identifiers of one kind, the one made in an earlier millisecond sorts first, whatever the randomness. */
  lemma IdentifiersSortByTime(prefix: string, a: int, b: int, x: seq<int>, y: seq<int>)
    requires 0 <= a < b < 0x4_0000_0000_0000 && |x| == |y| == RANDOM_CHARS
    ensures TextLess(Lead(prefix) + Payload(a, x), Lead(prefix) + Payload(b, y))
  {
    assert Pow32(10) == 0x4_0000_0000_0000;
    TimesSort(a, b, TIME_CHARS);
    OrderExtends(TimeText(a, TIME_CHARS), TimeText(b, TIME_CHARS), RandomText(x), RandomText(y));
    OrderAfter(Lead(prefix), Payload(a, x), Payload(b, y));
  }

  /** Two identifiers are equal only when made in one millisecond from bytes that agree in their low five bits. */
  lemma EqualIdentifiers(prefix: string, a: int, b: int, x: seq<int>, y: seq<int>)
    requires 0 <= a < 0x4_0000_0000_0000 && 0 <= b < 0x4_0000_0000_0000 && |x| == |y| == RANDOM_CHARS
    requires Lead(prefix) + Payload(a, x) == Lead(prefix) + Payload(b, y)
    ensures a == b && forall i :: 0 <= i < RANDOM_CHARS ==> x[i] % 32 == y[i] % 32
  {
    hide Parsed, TimeText, IndexOf, Symbol;
    ParseUndoesNew(prefix, a, x);
    ParseUndoesNew(prefix, b, y);
    var s := Lead(prefix) + Payload(a, x);
    var at := |Lead(prefix)| + TIME_CHARS;
    forall i | 0 <= i < RANDOM_CHARS ensures x[i] % 32 == y[i] % 32 {
      assert s[at + i] == Symbol(x[i] % 32) == Symbol(y[i] % 32);
      IndexOfChar(x[i] % 32);
      IndexOfChar(y[i] % 32);
    }
  }
}
