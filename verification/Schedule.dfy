/** A weekly timetable: windows of the day, what makes a set of them a timetable, its stored form, and what it answers. */
module Schedule {
  import opened Results
  import opened Text

  datatype Error = InvalidTimeOfDay | InvalidWindow | OverlappingWindows | InvalidWeekday | TooManyWindows

  const END_OF_DAY := 1440

  function NewTimeOfDay(hour: int, minute: int): (r: Result<int, Error>)
    ensures r.Success? ==> 0 <= r.value <= END_OF_DAY && r.value / 60 == hour && r.value % 60 == minute
    ensures r.Failure? <==> !(0 <= 60 * hour + minute <= END_OF_DAY && 0 <= minute < 60)
    ensures r.Failure? ==> r.error == InvalidTimeOfDay
  {
    if hour < 0 || hour > 24 || minute < 0 || minute > 59 || (hour == 24 && minute != 0) then Failure(InvalidTimeOfDay)
    else Success(hour * 60 + minute)
  }

  function ParseTimeOfDay(s: string): (r: Result<int, Error>)
    ensures r.Success? ==> 0 <= r.value <= END_OF_DAY
    ensures r.Failure? ==> r.error == InvalidTimeOfDay
  {
    var parts := Split(TrimSpace(s), ':');
    if |parts| != 2 || |parts[0]| != 2 || |parts[1]| != 2 then Failure(InvalidTimeOfDay)
    else
      match (Atoi(parts[0]), Atoi(parts[1]))
      case (Some(hour), Some(minute)) => NewTimeOfDay(hour, minute)
      case _ => Failure(InvalidTimeOfDay)
  }

  function TimeText(t: int): (s: string)
    requires 0 <= t <= END_OF_DAY
    ensures |s| == 5 && IsDigit(s[0]) && IsDigit(s[4]) && '-' !in s
  {
    TwoDigits(t / 60) + ":" + TwoDigits(t % 60)
  }

  lemma TimeReadsBack(t: int)
    requires 0 <= t <= END_OF_DAY
    ensures ParseTimeOfDay(TimeText(t)) == Success(t)
  {
    hide Atoi, Split, TwoDigits;
    TwoDigitsReadBack(t / 60);
    TwoDigitsReadBack(t % 60);
    TrimmedStays(TimeText(t));
    SplitOnce(TwoDigits(t / 60), ':', TwoDigits(t % 60));
  }

  /** A text is a clock time exactly when, blanks at its ends aside, it is two figures, a colon and two figures in range. */
  lemma AcceptedTimes(s: string, t: int)
    ensures ParseTimeOfDay(s) == Success(t) <==>
      var text := TrimSpace(s);
      && |text| == 5 && text[2] == ':' && ':' !in text[..2] && ':' !in text[3..]
      && Atoi(text[..2]) == Some(t / 60) && Atoi(text[3..]) == Some(t % 60) && 0 <= t <= END_OF_DAY
  {
    hide TrimSpace, Split, Atoi;
    var text := TrimSpace(s);
    SplitMeaning(text, ':');
    if |text| == 5 && text[2] == ':' && ':' !in text[..2] && ':' !in text[3..] {
      assert text == text[..2] + [':'] + text[3..];
      SplitOnce(text[..2], ':', text[3..]);
    } else if |Split(text, ':')| == 2 {
      var parts := Split(text, ':');
      assert |parts[0]| == 2 ==> text[..2] == parts[0] && text[3..] == parts[1];
    }
  }

  lemma TextsOfTimes()
    ensures TimeText(0) == "00:00" && TimeText(570) == "09:30" && TimeText(1380) == "23:00" && TimeText(END_OF_DAY) == "24:00"
    ensures WindowText(Window(570, 1380)) == "09:30-23:00"
  {
    var opens, closes := TimeText(570), TimeText(1380);
    assert opens + "-" + closes == "09:30-23:00";
  }

  /** A half-open stretch of the day. */
  datatype Window = Window(open: int, close: int)

  predicate Fits(w: Window) { 0 <= w.open < w.close <= END_OF_DAY }

  predicate Contains(w: Window, now: int) { w.open <= now < w.close }

  function NewWindow(open: int, close: int): (r: Result<Window, Error>)
    ensures r == if Fits(Window(open, close)) then Success(Window(open, close)) else Failure(InvalidWindow)
  {
    if open < 0 || open >= END_OF_DAY then Failure(InvalidWindow)
    else if close <= open || close > END_OF_DAY then Failure(InvalidWindow)
    else Success(Window(open, close))
  }

  function ParseWindow(s: string): (r: Result<Window, Error>)
    ensures r.Success? ==> Fits(r.value)
    ensures r.Failure? ==> r.error in {InvalidTimeOfDay, InvalidWindow}
  {
    match Cut(TrimSpace(s), '-')
    case None => Failure(InvalidWindow)
    case Some((opens, closes)) =>
      match ParseTimeOfDay(opens)
      case Failure(e) => Failure(e)
      case Success(from) =>
        match ParseTimeOfDay(closes)
        case Failure(e) => Failure(e)
        case Success(to) => NewWindow(from, to)
  }

  function WindowText(w: Window): string
    requires Fits(w)
  {
    TimeText(w.open) + "-" + TimeText(w.close)
  }

  lemma TrimmedStays(s: string)
    requires s != "" && IsDigit(s[0]) && IsDigit(s[|s| - 1])
    ensures TrimSpace(s) == s
  {
  }

  lemma WindowReadsBack(w: Window)
    requires Fits(w)
    ensures ParseWindow(WindowText(w)) == Success(w)
  {
    hide TrimSpace, Cut, ParseTimeOfDay, TimeText;
    TrimmedStays(WindowText(w));
    CutAfter(TimeText(w.open), '-', TimeText(w.close));
    TimeReadsBack(w.open);
    TimeReadsBack(w.close);
  }

  // ---- What makes a day's windows a timetable ----

  predicate Apart(a: Window, b: Window) { a.close <= b.open || b.close <= a.open }

  /** No two windows of the collection share an instant; a window written twice shares all of its own. */
  predicate Disjoint(bag: multiset<Window>)
  {
    (forall a :: a in bag ==> Fits(a) && bag[a] == 1) &&
    (forall a, b :: a in bag && b in bag && a != b ==> Apart(a, b))
  }

  predicate InOrder(day: seq<Window>)
  {
    (forall i :: 0 <= i < |day| ==> Fits(day[i])) &&
    (forall i, j :: 0 <= i < j < |day| ==> day[i].close <= day[j].open)
  }

  predicate SortedByOpen(day: seq<Window>) { forall i :: 0 < i < |day| ==> day[i - 1].open <= day[i].open }

  /** The test the constructor makes: each window fits, and opens no earlier than the one just before it closes. */
  predicate NeighboursApart(day: seq<Window>)
  {
    (forall i :: 0 <= i < |day| ==> Fits(day[i])) &&
    (forall i :: 0 < i < |day| ==> day[i - 1].close <= day[i].open)
  }

  lemma {:induction false} NeighboursSettleAll(day: seq<Window>)
    requires NeighboursApart(day)
    ensures InOrder(day)
  {
    forall i, j | 0 <= i < j < |day| ensures day[i].close <= day[j].open {
      ChainUp(day, i, j);
    }
  }

  lemma {:induction false} ChainUp(day: seq<Window>, i: nat, j: nat)
    requires NeighboursApart(day) && i < j < |day|
    ensures day[i].close <= day[j].open
    decreases j
  {
    if i < j - 1 {
      ChainUp(day, i, j - 1);
    }
  }

  lemma CountsOne(day: seq<Window>, i: nat)
    requires InOrder(day) && i < |day|
    ensures multiset(day)[day[i]] == 1
  {
    var before, after := day[..i], day[i + 1..];
    forall k | 0 <= k < |before| ensures before[k] != day[i] {
      assert before[k] == day[k];
    }
    forall k | 0 <= k < |after| ensures after[k] != day[i] {
      assert after[k] == day[i + 1 + k];
    }
    hide InOrder;
    assert day == before + [day[i]] + after;
    assert multiset(before)[day[i]] == 0 && multiset(after)[day[i]] == 0;
  }

  lemma OrderedIsDisjoint(day: seq<Window>)
    requires InOrder(day)
    ensures Disjoint(multiset(day))
  {
    forall a | a in multiset(day) ensures Fits(a) && multiset(day)[a] == 1 {
      var i :| 0 <= i < |day| && day[i] == a;
      CountsOne(day, i);
    }
    forall a, b | a in multiset(day) && b in multiset(day) && a != b ensures Apart(a, b) {
      var i :| 0 <= i < |day| && day[i] == a;
      var j :| 0 <= j < |day| && day[j] == b;
    }
  }

  lemma TwiceCounts(day: seq<Window>, i: int)
    requires 0 < i < |day| && day[i - 1] == day[i]
    ensures multiset(day)[day[i]] >= 2
  {
    assert day == day[..i - 1] + [day[i - 1], day[i]] + day[i + 1..];
  }

  /** Comparing neighbours of a sorted day decides whether any two windows of the day collide. */
  lemma NeighboursDecide(day: seq<Window>)
    requires SortedByOpen(day)
    ensures NeighboursApart(day) <==> Disjoint(multiset(day))
    ensures NeighboursApart(day) ==> InOrder(day)
  {
    if NeighboursApart(day) {
      NeighboursSettleAll(day);
      OrderedIsDisjoint(day);
    }
    if Disjoint(multiset(day)) {
      forall i | 0 <= i < |day| ensures Fits(day[i]) {
        assert day[i] in multiset(day);
      }
      forall i | 0 < i < |day| ensures day[i - 1].close <= day[i].open {
        assert day[i - 1] in multiset(day) && day[i] in multiset(day);
        if day[i - 1] == day[i] {
          TwiceCounts(day, i);
        }
      }
    }
  }

  lemma FirstIsShared(a: seq<Window>, b: seq<Window>)
    requires InOrder(a) && InOrder(b) && multiset(a) == multiset(b) && a != []
    ensures b != [] && a[0] == b[0]
  {
    assert a[0] in multiset(b);
    var i :| 0 <= i < |b| && b[i] == a[0];
    assert b[0] in multiset(a);
    var j :| 0 <= j < |a| && a[j] == b[0];
  }

  lemma TailBag(a: seq<Window>)
    requires a != []
    ensures multiset(a[1..]) == multiset(a) - multiset{a[0]}
  {
    assert a == [a[0]] + a[1..];
  }

  /** One collection of windows has one order. */
  lemma {:induction false} OrderIsUnique(a: seq<Window>, b: seq<Window>)
    requires InOrder(a) && InOrder(b) && multiset(a) == multiset(b)
    ensures a == b
  {
    if a == [] {
      assert |multiset(b)| == 0;
    } else {
      FirstIsShared(a, b);
      TailBag(a);
      TailBag(b);
      OrderIsUnique(a[1..], b[1..]);
      assert a == [a[0]] + a[1..] && b == [b[0]] + b[1..];
    }
  }

  // ---- Building a timetable ----

  /** A day by its number, Sunday being 0; any integer can be written. */
  datatype Weekday = Weekday(number: int)

  datatype Weekly = Weekly(days: seq<seq<Window>>)

  predicate Valid(w: Weekly) { |w.days| == 7 && forall d :: 0 <= d < 7 ==> InOrder(w.days[d]) }

  predicate WithinCap(windows: seq<Window>, cap: int) { cap > 0 ==> |windows| <= cap }

  function Given(days: map<Weekday, seq<Window>>, d: int): seq<Window>
  {
    if Weekday(d) in days then days[Weekday(d)] else []
  }

  /** The days hold the given windows, each day in order; a day not given is off. */
  predicate Holds(w: Weekly, days: map<Weekday, seq<Window>>)
  {
    Valid(w) && forall d :: 0 <= d < 7 ==> multiset(w.days[d]) == multiset(Given(days, d))
  }

  predicate Acceptable(days: map<Weekday, seq<Window>>, cap: int)
  {
    forall d :: d in days ==> 0 <= d.number < 7 && WithinCap(days[d], cap) && Disjoint(multiset(days[d]))
  }

  /** What an error says about the day it was raised for. */
  predicate Blames(e: Error, d: int, windows: seq<Window>, cap: int)
  {
    match e
    case InvalidWeekday => !(0 <= d < 7)
    case TooManyWindows => 0 <= d < 7 && !WithinCap(windows, cap)
    case InvalidWindow => 0 <= d < 7 && WithinCap(windows, cap) && exists a :: a in windows && !Fits(a)
    case OverlappingWindows => 0 <= d < 7 && WithinCap(windows, cap) && !Disjoint(multiset(windows))
    case InvalidTimeOfDay => false
  }

  ghost predicate Built(r: Result<Weekly, Error>, days: map<Weekday, seq<Window>>, cap: int)
  {
    (r.Success? <==> Acceptable(days, cap)) &&
    (r.Success? ==> Holds(r.value, days)) &&
    (r.Failure? ==> exists d :: d in days && Blames(r.error, d.number, days[d], cap))
  }

  /** Stands in for the library's sort: by opening time, in no promised order among equals. */
  function SortByOpen(day: seq<Window>): (s: seq<Window>)
    ensures multiset(s) == multiset(day) && SortedByOpen(s)
  {
    if day == [] then []
    else
      assert day == [day[0]] + day[1..];
      Insert(day[0], SortByOpen(day[1..]))
  }

  function Insert(w: Window, day: seq<Window>): (s: seq<Window>)
    requires SortedByOpen(day)
    ensures multiset(s) == multiset(day) + multiset{w} && SortedByOpen(s)
    ensures s != [] && (s[0] == w || (day != [] && s[0] == day[0]))
  {
    if day == [] || w.open <= day[0].open then
      SortedAfter(w, day);
      [w] + day
    else
      assert day == [day[0]] + day[1..];
      var rest := Insert(w, day[1..]);
      SortedAfter(day[0], rest);
      [day[0]] + rest
  }

  lemma SortedAfter(first: Window, rest: seq<Window>)
    requires SortedByOpen(rest) && (rest != [] ==> first.open <= rest[0].open)
    ensures SortedByOpen([first] + rest)
  {
    var day := [first] + rest;
    forall i | 0 < i < |day| ensures day[i - 1].open <= day[i].open {
      assert day[i] == rest[i - 1] && (i > 1 ==> day[i - 1] == rest[i - 2]);
    }
  }

  method CheckDay(sorted: seq<Window>) returns (r: Outcome<Error>)
    ensures r.Pass? <==> NeighboursApart(sorted)
    ensures r.Fail? ==> r.error == OverlappingWindows || (r.error == InvalidWindow && exists a :: a in sorted && !Fits(a))
  {
    for i := 0 to |sorted|
      invariant forall k :: 0 <= k < i ==> Fits(sorted[k])
      invariant forall k :: 0 < k < i ==> sorted[k - 1].close <= sorted[k].open
    {
      var checked := NewWindow(sorted[i].open, sorted[i].close);
      if checked.Failure? { return Fail(checked.error); }
      if i > 0 && sorted[i].open < sorted[i - 1].close { return Fail(OverlappingWindows); }
    }
    return Pass;
  }

  /** One day of a timetable. */
  method NewDay(day: int, windows: seq<Window>, cap: int) returns (r: Result<seq<Window>, Error>)
    ensures r.Success? <==> 0 <= day < 7 && WithinCap(windows, cap) && Disjoint(multiset(windows))
    ensures r.Success? ==> InOrder(r.value) && multiset(r.value) == multiset(windows)
    ensures r.Failure? ==> Blames(r.error, day, windows, cap)
  {
    if day < 0 || day > 6 { return Failure(InvalidWeekday); }
    if cap > 0 && |windows| > cap { return Failure(TooManyWindows); }
    hide Disjoint, InOrder, NeighboursApart, Fits;
    var sorted := SortByOpen(windows);
    NeighboursDecide(sorted);
    var checked := CheckDay(sorted);
    if checked.Pass? { return Success(sorted); }
    if checked.error == InvalidWindow {
      var a :| a in sorted && !Fits(a);
      assert a in multiset(sorted);
      assert a in windows;
    }
    return Failure(checked.error);
  }

  /** A day's place in the week, filled as the windows given for it ask. */
  ghost predicate Filled(week: seq<seq<Window>>, d: int, windows: seq<Window>, cap: int)
    requires |week| == 7
  {
    0 <= d < 7 && WithinCap(windows, cap) && Disjoint(multiset(windows)) &&
    InOrder(week[d]) && multiset(week[d]) == multiset(windows)
  }

  lemma FilledWeek(week: seq<seq<Window>>, days: map<Weekday, seq<Window>>, cap: int)
    requires |week| == 7
    requires forall d :: d in days ==> Filled(week, d.number, days[d], cap)
    requires forall d :: 0 <= d < 7 && Weekday(d) !in days ==> week[d] == []
    ensures Built(Success(Weekly(week)), days, cap)
  {
    hide Disjoint;
    forall d | 0 <= d < 7 ensures InOrder(week[d]) {
    }
  }

  lemma BlamedDay(days: map<Weekday, seq<Window>>, d: Weekday, e: Error, cap: int)
    requires d in days && Blames(e, d.number, days[d], cap)
    requires !(0 <= d.number < 7 && WithinCap(days[d], cap) && Disjoint(multiset(days[d])))
    ensures Built(Failure(e), days, cap)
  {
    hide Disjoint, Blames;
  }

  /** The timetable of a week, the days visited in whatever order the map yields them. */
  method New(days: map<Weekday, seq<Window>>, cap: int) returns (r: Result<Weekly, Error>)
    ensures Built(r, days, cap)
  {
    hide Built, Blames, Disjoint, InOrder, WithinCap;
    var week: seq<seq<Window>> := [[], [], [], [], [], [], []];
    var left := days.Keys;
    while left != {}
      invariant left <= days.Keys && |week| == 7
      invariant forall d :: d in days && d !in left ==> Filled(week, d.number, days[d], cap)
      invariant forall d :: 0 <= d < 7 && (Weekday(d) !in days || Weekday(d) in left) ==> week[d] == []
      decreases |left|
    {
      var d :| d in left;
      var built := NewDay(d.number, days[d], cap);
      if built.Failure? {
        BlamedDay(days, d, built.error, cap);
        return Failure(built.error);
      }
      week := week[d.number := built.value];
      left := left - {d};
    }
    FilledWeek(week, days, cap);
    return Success(Weekly(week));
  }

  /** What the constructor builds is decided by the windows given, not by the order of days or of the sort. */
  lemma TimetableIsUnique(a: Weekly, b: Weekly, days: map<Weekday, seq<Window>>)
    requires Holds(a, days) && Holds(b, days)
    ensures a == b
  {
    forall d | 0 <= d < 7 ensures a.days[d] == b.days[d] {
      OrderIsUnique(a.days[d], b.days[d]);
    }
  }

  // ---- The stored form ----

  function DayKey(d: int): string
    requires 0 <= d < 7
  {
    [Digit(d)]
  }

  lemma DayKeysDiffer(d: int, e: int)
    requires 0 <= d < 7 && 0 <= e < 7 && DayKey(d) == DayKey(e)
    ensures d == e
  {
    OneDigitReadsBack(d);
    OneDigitReadsBack(e);
  }

  function Texts(day: seq<Window>): (t: seq<string>)
    requires forall i :: 0 <= i < |day| ==> Fits(day[i])
    ensures |t| == |day|
  {
    seq(|day|, i requires 0 <= i < |day| => WindowText(day[i]))
  }

  /** The days that open, under their numbers, as text. */
  ghost predicate EncodingOf(m: map<string, seq<string>>, w: Weekly)
    requires Valid(w)
  {
    (forall d :: 0 <= d < 7 && w.days[d] != [] ==> DayKey(d) in m && m[DayKey(d)] == Texts(w.days[d])) &&
    (forall k :: k in m ==> exists d :: 0 <= d < 7 && w.days[d] != [] && k == DayKey(d))
  }

  method Render(day: seq<Window>) returns (rendered: seq<string>)
    requires forall i :: 0 <= i < |day| ==> Fits(day[i])
    ensures rendered == Texts(day)
  {
    hide WindowText;
    rendered := [];
    for i := 0 to |day|
      invariant |rendered| == i
      invariant forall k :: 0 <= k < i ==> rendered[k] == WindowText(day[k])
    {
      rendered := rendered + [WindowText(day[i])];
    }
  }

  method Encode(w: Weekly) returns (m: map<string, seq<string>>)
    requires Valid(w)
    ensures EncodingOf(m, w)
  {
    m := map[];
    hide Texts, DayKey;
    for day := 0 to 7
      invariant forall d :: 0 <= d < day && w.days[d] != [] ==> DayKey(d) in m && m[DayKey(d)] == Texts(w.days[d])
      invariant forall k :: k in m ==> exists d :: 0 <= d < day && w.days[d] != [] && k == DayKey(d)
    {
      if w.days[day] != [] {
        var rendered := Render(w.days[day]);
        forall d | 0 <= d < day && w.days[d] != [] ensures DayKey(d) != DayKey(day) {
          if DayKey(d) == DayKey(day) { DayKeysDiffer(d, day); }
        }
        m := m[DayKey(day) := rendered];
      }
    }
  }

  function DayOf(key: string): (d: Option<int>)
    ensures d.Some? ==> 0 <= d.value < 7
  {
    match Atoi(key)
    case None => None
    case Some(d) => if d < 0 || d > 6 then None else Some(d)
  }

  predicate Legible(texts: seq<string>) { forall i :: 0 <= i < |texts| ==> ParseWindow(texts[i]).Success? }

  function Windows(texts: seq<string>): (day: seq<Window>)
    requires Legible(texts)
    ensures |day| == |texts|
  {
    seq(|texts|, i requires 0 <= i < |texts| => ParseWindow(texts[i]).value)
  }

  predicate Readable(m: map<string, seq<string>>) { forall k :: k in m ==> DayOf(k).Some? && Legible(m[k]) }

  /** The entry under k gives these windows for day d. */
  predicate Names(m: map<string, seq<string>>, k: string, d: int, windows: seq<Window>)
  {
    k in m && DayOf(k) == Some(d) && Legible(m[k]) && windows == Windows(m[k])
  }

  /** The days a stored form gives: each is one of the entries that name it. */
  ghost predicate Reads(m: map<string, seq<string>>, days: map<Weekday, seq<Window>>)
    requires Readable(m)
  {
    (forall k :: k in m ==> Weekday(DayOf(k).value) in days) &&
    (forall d :: d in days ==> exists k :: Names(m, k, d.number, days[d]))
  }

  /** Why an entry cannot be read: its key is no day, or one of its texts no window. */
  predicate Unread(k: string, texts: seq<string>, e: Error)
  {
    if DayOf(k).None? then e == InvalidWeekday
    else exists i :: 0 <= i < |texts| && ParseWindow(texts[i]) == Failure(e)
  }

  ghost predicate Decoded(r: Result<Weekly, Error>, m: map<string, seq<string>>, cap: int)
  {
    if Readable(m) then exists days :: Reads(m, days) && Built(r, days, cap)
    else r.Failure? && exists k :: k in m && Unread(k, m[k], r.error)
  }

  method ReadDay(texts: seq<string>) returns (r: Result<seq<Window>, Error>)
    ensures r.Success? <==> Legible(texts)
    ensures r.Success? ==> r.value == Windows(texts)
    ensures r.Failure? ==> exists i :: 0 <= i < |texts| && ParseWindow(texts[i]) == Failure(r.error)
  {
    var windows: seq<Window> := [];
    for i := 0 to |texts|
      invariant |windows| == i
      invariant forall k :: 0 <= k < i ==> ParseWindow(texts[k]) == Success(windows[k])
    {
      var parsed := ParseWindow(texts[i]);
      if parsed.Failure? { return Failure(parsed.error); }
      windows := windows + [parsed.value];
    }
    return Success(windows);
  }

  method Decode(encoded: map<string, seq<string>>, cap: int) returns (r: Result<Weekly, Error>)
    ensures Decoded(r, encoded, cap)
  {
    var days: map<Weekday, seq<Window>> := map[];
    var left := encoded.Keys;
    hide DayOf, Legible, Windows, Built;
    while |left| > 0
      invariant left <= encoded.Keys
      invariant forall k :: k in encoded && k !in left ==>
        DayOf(k).Some? && Legible(encoded[k]) && Weekday(DayOf(k).value) in days
      invariant forall d :: d in days ==> exists k :: Names(encoded, k, d.number, days[d])
      decreases |left|
    {
      var key :| key in left;
      var day := DayOf(key);
      if day.None? {
        assert Unread(key, encoded[key], InvalidWeekday);
        return Failure(InvalidWeekday);
      }
      var windows := ReadDay(encoded[key]);
      if windows.Failure? {
        assert Unread(key, encoded[key], windows.error);
        return Failure(windows.error);
      }
      days := days[Weekday(day.value) := windows.value];
      assert Names(encoded, key, day.value, windows.value);
      left := left - {key};
    }
    r := New(days, cap);
  }

  lemma KeyReadsBack(d: int)
    requires 0 <= d < 7
    ensures DayOf(DayKey(d)) == Some(d)
  {
    OneDigitReadsBack(d);
  }

  lemma TextsReadBack(day: seq<Window>)
    requires InOrder(day)
    ensures Legible(Texts(day)) && Windows(Texts(day)) == day
  {
    forall i | 0 <= i < |day| ensures ParseWindow(Texts(day)[i]) == Success(day[i]) {
      WindowReadsBack(day[i]);
    }
  }

  lemma EntriesReadBack(w: Weekly, m: map<string, seq<string>>, k: string)
    requires Valid(w) && EncodingOf(m, w) && k in m
    ensures DayOf(k).Some? && k == DayKey(DayOf(k).value)
    ensures Legible(m[k]) && Windows(m[k]) == w.days[DayOf(k).value]
  {
    hide DayOf, DayKey, Legible, Windows, Texts;
    var d :| 0 <= d < 7 && w.days[d] != [] && k == DayKey(d);
    KeyReadsBack(d);
    TextsReadBack(w.days[d]);
  }

  lemma NamedIsHeld(w: Weekly, m: map<string, seq<string>>, k: string, d: int, windows: seq<Window>)
    requires Valid(w) && EncodingOf(m, w) && Names(m, k, d, windows)
    ensures 0 <= d < 7 && windows == w.days[d]
  {
    EntriesReadBack(w, m, k);
  }

  lemma ReadingHolds(w: Weekly, m: map<string, seq<string>>, days: map<Weekday, seq<Window>>)
    requires Valid(w) && EncodingOf(m, w) && Readable(m) && Reads(m, days)
    ensures Holds(w, days) && forall d :: d in days ==> 0 <= d.number < 7
  {
    hide DayOf, DayKey, Legible, Windows, Texts, InOrder, Names;
    forall d | d in days ensures 0 <= d.number < 7 && days[d] == w.days[d.number] {
      var k :| Names(m, k, d.number, days[d]);
      NamedIsHeld(w, m, k, d.number, days[d]);
    }
    forall d | 0 <= d < 7 && Weekday(d) !in days ensures w.days[d] == [] {
      KeyReadsBack(d);
    }
  }

  lemma HeldIsAcceptable(w: Weekly, days: map<Weekday, seq<Window>>, cap: int)
    requires Holds(w, days) && (forall d :: d in days ==> 0 <= d.number < 7)
    requires forall d :: 0 <= d < 7 ==> WithinCap(w.days[d], cap)
    ensures Acceptable(days, cap)
  {
    hide Disjoint, InOrder;
    forall d | d in days ensures WithinCap(days[d], cap) && Disjoint(multiset(days[d])) {
      assert d == Weekday(d.number) && multiset(days[d]) == multiset(w.days[d.number]);
      OrderedIsDisjoint(w.days[d.number]);
      assert |days[d]| == |multiset(days[d])| && |w.days[d.number]| == |multiset(w.days[d.number])|;
    }
  }

  /** Whatever a timetable is stored as reads back as that timetable, wherever its days keep to the cap. */
  lemma DecodeUndoesEncode(w: Weekly, m: map<string, seq<string>>, r: Result<Weekly, Error>, cap: int)
    requires Valid(w) && (forall d :: 0 <= d < 7 ==> WithinCap(w.days[d], cap))
    requires EncodingOf(m, w) && Decoded(r, m, cap)
    ensures r == Success(w)
  {
    hide EncodingOf, Legible, DayOf, Holds, Valid, WithinCap, Acceptable, Reads, Blames;
    forall k | k in m ensures DayOf(k).Some? && Legible(m[k]) {
      EntriesReadBack(w, m, k);
    }
    var days :| Reads(m, days) && Built(r, days, cap);
    ReadingHolds(w, m, days);
    HeldIsAcceptable(w, days, cap);
    TimetableIsUnique(r.value, w, days);
  }

  method StoreAndRead(w: Weekly, cap: int) returns (r: Result<Weekly, Error>)
    requires Valid(w) && (forall d :: 0 <= d < 7 ==> WithinCap(w.days[d], cap))
    ensures r == Success(w)
  {
    var stored := Encode(w);
    r := Decode(stored, cap);
    DecodeUndoesEncode(w, stored, r, cap);
  }

  // ---- What a timetable answers ----

  const DAY := 86400

  /** Seconds since local midnight, six hours east of Greenwich. */
  function IntoDay(t: int): int { (t + 21600) % DAY }

  /** The local weekday and minute of an instant given in Unix seconds; the first of January 1970 was a Thursday. */
  function Local(t: int): (r: (int, int))
    ensures 0 <= r.0 < 7 && 0 <= r.1 < END_OF_DAY
  {
    (((t + 21600) / DAY + 4) % 7, IntoDay(t) / 60)
  }

  /** Clocks stand six hours ahead of Greenwich, and days are counted from Thursday, the first of January 1970. */
  lemma LocalMeaning(days: int, minute: int, second: int)
    requires 0 <= minute < END_OF_DAY && 0 <= second < 60
    ensures var t := DAY * days + 60 * minute + second - 6 * 3600;
            Local(t) == ((days + 4) % 7, minute) && IntoDay(t) == 60 * minute + second
  {
    var t := DAY * days + 60 * minute + second - 6 * 3600;
    assert (t + 21600) / DAY == days;
  }

  /** Some window of the instant's day contains it and closes at c. */
  predicate OpenUntil(w: Weekly, t: int, c: int)
    requires Valid(w)
  {
    var (day, now) := Local(t);
    exists i :: 0 <= i < |w.days[day]| && Contains(w.days[day][i], now) && w.days[day][i].close == c
  }

  method Covers(w: Weekly, t: int) returns (r: bool)
    requires Valid(w)
    ensures r <==> exists c :: OpenUntil(w, t, c)
  {
    var (day, now) := Local(t);
    for i := 0 to |w.days[day]|
      invariant forall k :: 0 <= k < i ==> !Contains(w.days[day][k], now)
    {
      if Contains(w.days[day][i], now) {
        assert OpenUntil(w, t, w.days[day][i].close);
        return true;
      }
    }
    return false;
  }

  method EndsAfter(w: Weekly, t: int) returns (r: Option<int>)
    requires Valid(w)
    ensures r.Some? <==> exists c :: OpenUntil(w, t, c)
    ensures forall c :: OpenUntil(w, t, c) <==> r == Some(c)
  {
    var (day, now) := Local(t);
    for i := 0 to |w.days[day]|
      invariant forall k :: 0 <= k < i ==> !Contains(w.days[day][k], now)
    {
      var window := w.days[day][i];
      if Contains(window, now) {
        assert OpenUntil(w, t, window.close);
        forall c | OpenUntil(w, t, c) ensures c == window.close {
          OneWindowAtATime(w, t, c, window.close);
        }
        return Some(window.close);
      }
    }
    return None;
  }

  /** Disjoint windows: an instant has one closing time. */
  lemma OneWindowAtATime(w: Weekly, t: int, c: int, e: int)
    requires Valid(w) && OpenUntil(w, t, c) && OpenUntil(w, t, e)
    ensures c == e
  {
    var (day, now) := Local(t);
    var i :| 0 <= i < |w.days[day]| && Contains(w.days[day][i], now) && w.days[day][i].close == c;
    var j :| 0 <= j < |w.days[day]| && Contains(w.days[day][j], now) && w.days[day][j].close == e;
    assert InOrder(w.days[day]);
  }

  lemma SameDay(t: int, u: int)
    requires t <= u < t - IntoDay(t) + DAY
    ensures IntoDay(u) == IntoDay(t) + (u - t) && Local(u).0 == Local(t).0
  {
    var q := (t + 21600) / DAY;
    assert u + 21600 == DAY * q + (IntoDay(t) + (u - t));
    assert (u + 21600) / DAY == q;
  }

  /** The answer is a promise: the timetable stays open, with the same answer, at every instant up to that clock time. */
  lemma StaysOpenUntilThen(w: Weekly, t: int, c: int, u: int)
    requires Valid(w) && OpenUntil(w, t, c)
    requires t <= u < t - IntoDay(t) + 60 * c
    ensures OpenUntil(w, u, c)
  {
    var (day, now) := Local(t);
    var i :| 0 <= i < |w.days[day]| && Contains(w.days[day][i], now) && w.days[day][i].close == c;
    assert Fits(w.days[day][i]);
    SameDay(t, u);
    assert Contains(w.days[day][i], Local(u).1);
  }

  /** The first opening that is later today or on one of the six days after. */
  predicate OpensNext(w: Weekly, t: int, ahead: int, i: int)
    requires Valid(w)
  {
    var (day, now) := Local(t);
    0 <= ahead < 7 && 0 <= i < |w.days[(day + ahead) % 7]| && (ahead > 0 || w.days[day][i].open > now)
  }

  method NextStart(w: Weekly, t: int) returns (r: Option<int>)
    requires Valid(w)
    ensures r.None? ==> !SomethingOpensNext(w, t)
    ensures r.Some? ==>
      exists ahead, i :: OpensNext(w, t, ahead, i) && r.value == w.days[(Local(t).0 + ahead) % 7][i].open &&
        forall later, k :: OpensNext(w, t, later, k) ==> later > ahead || (later == ahead && k >= i)
  {
    var (day, now) := Local(t);
    for ahead := 0 to 7
      invariant forall before, k :: OpensNext(w, t, before, k) ==> before >= ahead
    {
      var index := (day + ahead) % 7;
      for i := 0 to |w.days[index]|
        invariant forall before, k :: OpensNext(w, t, before, k) ==> before > ahead || (before == ahead && k >= i)
      {
        if ahead > 0 || w.days[index][i].open > now {
          assert OpensNext(w, t, ahead, i);
          return Some(w.days[index][i].open);
        }
      }
    }
    return None;
  }

  /** The instant of an opening: so many minutes into the local day so many days ahead. */
  function StartOf(t: int, ahead: int, open: int): int { t - IntoDay(t) + DAY * ahead + 60 * open }

  lemma DaysAhead(t: int, u: int, n: int)
    requires StartOf(t, n, 0) <= u < StartOf(t, n + 1, 0)
    ensures Local(u) == ((Local(t).0 + n) % 7, (u - StartOf(t, n, 0)) / 60) && IntoDay(u) == u - StartOf(t, n, 0)
  {
    var q := (t + 21600) / DAY;
    assert t + 21600 == DAY * q + IntoDay(t);
    assert (u + 21600) / DAY == q + n;
    assert (q + n + 4) % 7 == ((q + 4) % 7 + n) % 7;
  }

  /**
   The opening answered is an instant yet to come at which a window opens, and between now and then the timetable is
   open only for as long as a window already open lasts.
   */
  lemma NextStartIsTheNextOpening(w: Weekly, t: int, ahead: int, i: int)
    requires Valid(w) && OpensNext(w, t, ahead, i)
    requires forall later, k :: OpensNext(w, t, later, k) ==> later > ahead || (later == ahead && k >= i)
    ensures var window := w.days[(Local(t).0 + ahead) % 7][i];
            var start := StartOf(t, ahead, window.open);
            && t < start && Local(start).1 == window.open && OpenUntil(w, start, window.close)
            && forall u, c :: t < u < start && OpenUntil(w, u, c) ==> OpenUntil(w, t, c)
  {
    var day := (Local(t).0 + ahead) % 7;
    assert InOrder(w.days[day]);
    var window := w.days[day][i];
    var start := StartOf(t, ahead, window.open);
    assert Fits(window);
    DaysAhead(t, start, ahead);
    assert Local(start) == (day, window.open);
    assert Contains(window, Local(start).1);
    forall u, c | t < u < start && OpenUntil(w, u, c)
      ensures OpenUntil(w, t, c)
    {
      BetweenNowAndThen(w, t, ahead, i, u, c);
    }
  }

  lemma DayBetween(t: int, u: int, ahead: nat, open: int) returns (n: nat)
    requires t < u < StartOf(t, ahead, open) && 0 <= open < END_OF_DAY
    ensures n <= ahead && Local(u).0 == (Local(t).0 + n) % 7
    ensures n == 0 ==> Local(t).1 <= Local(u).1
    ensures n == ahead ==> Local(u).1 < open
  {
    n := (u - StartOf(t, 0, 0)) / DAY;
    DaysAhead(t, u, n);
  }

  lemma BetweenNowAndThen(w: Weekly, t: int, ahead: int, i: int, u: int, c: int)
    requires Valid(w) && OpensNext(w, t, ahead, i)
    requires forall later, k :: OpensNext(w, t, later, k) ==> later > ahead || (later == ahead && k >= i)
    requires t < u < StartOf(t, ahead, w.days[(Local(t).0 + ahead) % 7][i].open) && OpenUntil(w, u, c)
    ensures OpenUntil(w, t, c)
  {
    var opening := w.days[(Local(t).0 + ahead) % 7];
    assert InOrder(opening) && Fits(opening[i]);
    hide Local, StartOf;
    var n := DayBetween(t, u, ahead, opening[i].open);
    var (day, now) := Local(u);
    assert InOrder(w.days[day]);
    var k :| 0 <= k < |w.days[day]| && Contains(w.days[day][k], now) && w.days[day][k].close == c;
    assert Fits(w.days[day][k]);
    assert !OpensNext(w, t, n, k);
    assert n == 0 && Contains(w.days[day][k], Local(t).1);
  }

  ghost predicate SomethingOpensNext(w: Weekly, t: int)
    requires Valid(w)
  {
    exists ahead, i :: OpensNext(w, t, ahead, i)
  }

  predicate Behind(w: Weekly, t: int, d: int, i: int)
    requires Valid(w)
  {
    0 <= d < 7 && 0 <= i < |w.days[d]| ==> d == Local(t).0 && w.days[d][i].open <= Local(t).1
  }

  /** The search has no answer exactly when every opening of the week is today, now or earlier. */
  lemma NoNextStart(w: Weekly, t: int)
    requires Valid(w)
    ensures !SomethingOpensNext(w, t) <==> forall d, i :: Behind(w, t, d, i)
  {
    var day := Local(t).0;
    if !SomethingOpensNext(w, t) {
      forall d, i ensures Behind(w, t, d, i) {
        var ahead := (d - day) % 7;
        assert 0 <= d < 7 ==> (day + ahead) % 7 == d;
        assert !OpensNext(w, t, ahead, i);
      }
    } else {
      var ahead, i :| OpensNext(w, t, ahead, i);
      assert (day + ahead) % 7 == day ==> ahead == 0;
      assert !Behind(w, t, (day + ahead) % 7, i);
    }
  }

  /** A timetable that does open may still get no answer: today's weekday a week from now is not looked at. */
  lemma OpensButHasNoNextStart()
    ensures exists w, t :: Valid(w) && w.days[Local(t).0] != [] && !SomethingOpensNext(w, t)
  {
    var w := Weekly([[], [], [], [], [Window(0, 60)], [], []]);
    var t := 0;
    forall d, i ensures Behind(w, t, d, i) {
    }
    NoNextStart(w, t);
  }
}
