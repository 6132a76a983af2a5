/** What a customer has chosen from one shop: lines merged by selection, within the cart's limits. */
module Cart {
  import opened Results
  import opened Text

  const MAX_LINES := 60
  const MAX_QUANTITY := 20
  const MAX_NOTE := 200

  const ITEM := "item"
  const COMBO := "combo"

  datatype Choice = Choice(group: string, option: string, name: string, price: int)

  datatype Line = Line(id: string, kind: string, target: string, name: string, unitPrice: int,
                       options: seq<Choice>, quantity: int, note: string)

  datatype Error = DifferentMerchant | NoTarget | QuantityRange | NoteTooLong | TooManyLines | NoSuchLine

  function Key(c: Choice): string { c.group + "/" + c.option }

  function KeysOf(options: seq<Choice>): (k: seq<string>)
    ensures |k| == |options|
  {
    seq(|options|, i requires 0 <= i < |options| => Key(options[i]))
  }

  /** The same thing chosen: what it is for, the note, and the options whatever order they were tapped in. */
  predicate Same(a: Line, b: Line)
  {
    a.kind == b.kind && a.target == b.target && a.note == b.note &&
    multiset(KeysOf(a.options)) == multiset(KeysOf(b.options))
  }

  lemma SameIsAnEquivalence(a: Line, b: Line, c: Line)
    ensures Same(a, a)
    ensures Same(a, b) <==> Same(b, a)
    ensures Same(a, b) && Same(b, c) ==> Same(a, c)
  {
  }

  /** The options' order, and what the line costs or how many it holds, are no part of the choice. */
  lemma SwappedOptionsAreTheSame(a: Line, i: nat, j: nat, quantity: int)
    requires i < j < |a.options|
    ensures Same(a, a.(options := a.options[i := a.options[j]][j := a.options[i]], quantity := quantity))
  {
    var k := KeysOf(a.options);
    var swapped := a.options[i := a.options[j]][j := a.options[i]];
    var t: seq<string> := k[i := k[j]][j := k[i]];
    assert KeysOf(swapped) == t;
    assert multiset(t) == multiset(k);
  }

  /** The options as chosen, whatever their keys. */
  function PairsOf(options: seq<Choice>): (p: seq<(string, string)>)
    ensures |p| == |options|
  {
    seq(|options|, i requires 0 <= i < |options| => (options[i].group, options[i].option))
  }

  predicate Slashless(options: seq<Choice>) { forall c :: c in options ==> '/' !in c.group }

  /** Where no group's id holds a slash, lines are the same exactly when the same options of the same groups are chosen. */
  lemma SameMeaning(a: Line, b: Line)
    requires Slashless(a.options) && Slashless(b.options)
    ensures Same(a, b) <==>
              && a.kind == b.kind && a.target == b.target && a.note == b.note
              && multiset(PairsOf(a.options)) == multiset(PairsOf(b.options))
  {
    hide KeysOf, PairsOf;
    KeysDecide(a.options, b.options);
  }

  /** A slash in a group's id can make two different choices one. */
  lemma SlashesCollide(line: Line)
    ensures var a := line.(options := [Choice("size/large", "crust", "", 0)]);
            var b := line.(options := [Choice("size", "large/crust", "", 0)]);
            Same(a, b)
  {
    var a, b := [Choice("size/large", "crust", "", 0)], [Choice("size", "large/crust", "", 0)];
    assert Key(a[0]) == "size/large/crust" == Key(b[0]);
    assert KeysOf(a) == KeysOf(b);
  }

  lemma KeysDecide(a: seq<Choice>, b: seq<Choice>)
    requires Slashless(a) && Slashless(b)
    ensures multiset(KeysOf(a)) == multiset(KeysOf(b)) <==> multiset(PairsOf(a)) == multiset(PairsOf(b))
  {
    hide KeysOf, PairsOf;
    if multiset(KeysOf(a)) == multiset(KeysOf(b)) {
      forall p: (string, string)
        ensures multiset(PairsOf(a))[p] == multiset(PairsOf(b))[p]
      {
        PairsCount(a, p);
        PairsCount(b, p);
      }
    }
    if multiset(PairsOf(a)) == multiset(PairsOf(b)) {
      forall key: string
        ensures multiset(KeysOf(a))[key] == multiset(KeysOf(b))[key]
      {
        KeysCount(a, b, key);
      }
    }
  }

  lemma {:induction false} PairsCount(options: seq<Choice>, p: (string, string))
    requires Slashless(options)
    ensures multiset(PairsOf(options))[p] == if '/' in p.0 then 0 else multiset(KeysOf(options))[p.0 + "/" + p.1]
  {
    if options != [] {
      var init, last := options[..|options| - 1], options[|options| - 1];
      assert PairsOf(options) == PairsOf(init) + [(last.group, last.option)];
      assert KeysOf(options) == KeysOf(init) + [Key(last)];
      PairsCount(init, p);
      if '/' !in p.0 && Key(last) == p.0 + "/" + p.1 {
        KeySeparates(last.group, last.option, p.0, p.1);
      }
    }
  }

  lemma KeysCount(a: seq<Choice>, b: seq<Choice>, key: string)
    requires Slashless(a) && Slashless(b) && multiset(PairsOf(a)) == multiset(PairsOf(b))
    ensures multiset(KeysOf(a))[key] == multiset(KeysOf(b))[key]
  {
    CutMeaning(key, '/');
    match Cut(key, '/')
    case Some(p) =>
      PairsCount(a, p);
      PairsCount(b, p);
    case None =>
      forall c: Choice ensures Key(c) != key { assert Key(c)[|c.group|] == '/'; }
      assert key !in KeysOf(a) && key !in KeysOf(b);
  }

  lemma KeySeparates(g: string, o: string, g': string, o': string)
    requires '/' !in g && '/' !in g' && g + "/" + o == g' + "/" + o'
    ensures g == g' && o == o'
  {
    CutAfter(g, '/', o);
    CutAfter(g', '/', o');
  }

  function Tally(chosen: map<string, int>, key: string): int { if key in chosen then chosen[key] else 0 }

  /** The map's own idea of a missing key is nought, also when it is counted down. */
  function Adjust(chosen: map<string, int>, key: string, amount: int): (r: map<string, int>)
    ensures forall k :: Tally(r, k) == Tally(chosen, k) + (if k == key then amount else 0)
  {
    chosen[key := Tally(chosen, key) + amount]
  }

  /** How often a key stands among the first i. */
  ghost function Seen(keys: seq<string>, i: nat, key: string): nat
    requires i <= |keys|
  {
    multiset(keys[..i])[key]
  }

  lemma SeenSteps(keys: seq<string>, i: nat)
    requires i < |keys|
    ensures forall key :: Seen(keys, i + 1, key) == Seen(keys, i, key) + (if key == keys[i] then 1 else 0)
  {
    assert keys[..i + 1] == keys[..i] + [keys[i]];
  }

  lemma SeenStarts(keys: seq<string>)
    ensures forall key :: Seen(keys, 0, key) == 0
  {
  }

  lemma SeenGrows(keys: seq<string>, i: nat)
    requires i <= |keys|
    ensures forall key :: Seen(keys, i, key) <= Seen(keys, |keys|, key)
  {
    assert keys == keys[..i] + keys[i..] && keys[..|keys|] == keys;
  }

  lemma CoveredBagsOfOneSize(a: multiset<string>, b: multiset<string>)
    requires |a| == |b| && b <= a
    ensures a == b
  {
    assert a == b + (a - b);
    assert |a - b| == 0;
  }

  /** Two lists of one length are the same bag when neither key is seen more often in the second. */
  lemma SeenDecides(a: seq<string>, b: seq<string>)
    ensures multiset(a) == multiset(b) <==>
            |a| == |b| && forall key :: Seen(b, |b|, key) <= Seen(a, |a|, key)
  {
    assert a[..|a|] == a && b[..|b|] == b;
    if |a| == |b| && forall key :: Seen(b, |b|, key) <= Seen(a, |a|, key) {
      forall key ensures multiset(b)[key] <= multiset(a)[key] {
        assert Seen(b, |b|, key) <= Seen(a, |a|, key);
      }
      CoveredBagsOfOneSize(multiset(a), multiset(b));
    }
    if multiset(a) == multiset(b) {
      assert |multiset(a)| == |multiset(b)|;
    }
  }

  /** Each option of a line counted once. */
  method CountUp(options: seq<Choice>) returns (chosen: map<string, int>)
    ensures forall key :: Tally(chosen, key) == Seen(KeysOf(options), |options|, key)
  {
    var keys := KeysOf(options);
    chosen := map[];
    SeenStarts(keys);
    assert forall key :: Tally(chosen, key) == 0;
    hide Seen, Tally, Adjust;
    for i := 0 to |options|
      invariant forall key :: Tally(chosen, key) == Seen(keys, i, key)
    {
      SeenSteps(keys, i);
      chosen := Adjust(chosen, Key(options[i]), 1);
    }
  }

  /** Each option counted back down; false at the first that goes below nought. */
  method CountDown(chosen: map<string, int>, options: seq<Choice>) returns (covered: bool)
    requires forall key :: Tally(chosen, key) >= 0
    ensures covered <==> forall key :: Seen(KeysOf(options), |options|, key) <= Tally(chosen, key)
  {
    var keys, left := KeysOf(options), chosen;
    SeenStarts(keys);
    hide Seen, Tally, Adjust;
    for i := 0 to |options|
      invariant forall key :: Tally(left, key) + Seen(keys, i, key) == Tally(chosen, key)
      invariant forall key :: Tally(left, key) >= 0
    {
      SeenSteps(keys, i);
      var key := Key(options[i]);
      left := Adjust(left, key, -1);
      if Tally(left, key) < 0 {
        SeenGrows(keys, i + 1);
        assert Seen(keys, |options|, key) > Tally(chosen, key);
        return false;
      }
    }
    return true;
  }

  /** Counting one line's options up and the other's down decides whether they are the same bag. */
  method SameSelection(a: Line, b: Line) returns (same: bool)
    ensures same <==> Same(a, b)
  {
    if a.kind != b.kind || a.target != b.target || a.note != b.note { return false; }
    var ours, theirs := KeysOf(a.options), KeysOf(b.options);
    SeenDecides(ours, theirs);
    if |a.options| != |b.options| { return false; }
    hide Seen, Tally, KeysOf;
    var chosen := CountUp(a.options);
    same := CountDown(chosen, b.options);
  }

  // ---- The cart as a value ----

  function ValidLine(l: Line): Outcome<Error>
  {
    if l.target == "" || (l.kind != ITEM && l.kind != COMBO) then Fail(NoTarget)
    else if l.quantity < 1 || l.quantity > MAX_QUANTITY then Fail(QuantityRange)
    else if Utf8Length(l.note) > MAX_NOTE then Fail(NoteTooLong)
    else Pass
  }

  /** A line for an item or a combo, of one to twenty, whose note is at most two hundred bytes. */
  lemma ValidLineMeaning(l: Line)
    ensures ValidLine(l).Pass? <==>
              && l.target != "" && l.kind in {"item", "combo"} && 1 <= l.quantity <= 20 && Utf8Length(l.note) <= 200
    ensures ValidLine(l) == Fail(NoTarget) <==> l.target == "" || l.kind !in {"item", "combo"}
    ensures ValidLine(l) == Fail(NoteTooLong) <==>
              l.target != "" && l.kind in {"item", "combo"} && 1 <= l.quantity <= 20 && Utf8Length(l.note) > 200
  {
  }

  /** The first line of the same selection. */
  ghost predicate Matches(lines: seq<Line>, line: Line, i: int)
  {
    0 <= i < |lines| && Same(lines[i], line) && forall j :: 0 <= j < i ==> !Same(lines[j], line)
  }

  /** The first line with the id. */
  ghost predicate Named(lines: seq<Line>, id: string, i: int)
  {
    0 <= i < |lines| && lines[i].id == id && forall j :: 0 <= j < i ==> lines[j].id != id
  }

  predicate Sound(lines: seq<Line>)
  {
    |lines| <= MAX_LINES &&
    (forall i :: 0 <= i < |lines| ==> ValidLine(lines[i]).Pass?) &&
    (forall i, j :: 0 <= i < j < |lines| ==> !Same(lines[i], lines[j]))
  }

  datatype Act = Add(merchant: string, line: Line) | SetQuantity(id: string, quantity: int) | Remove(id: string) | Clear

  ghost predicate Removed(lines: seq<Line>, id: string, r: Outcome<Error>, next: seq<Line>)
  {
    match r
    case Pass => exists i :: Named(lines, id, i) && next == lines[..i] + lines[i + 1..]
    case Fail(e) => next == lines && e == NoSuchLine && forall l :: l in lines ==> l.id != id
  }

  /** What an act may do to a shop's cart: which error it gives and when, or which line it changes and how. */
  ghost predicate Acts(shop: string, lines: seq<Line>, act: Act, r: Outcome<Error>, next: seq<Line>)
  {
    match act
    case Add(merchant, line) =>
      if merchant != shop then r == Fail(DifferentMerchant) && next == lines
      else if ValidLine(line).Fail? then r == ValidLine(line) && next == lines
      else if exists i :: Matches(lines, line, i) then
        exists i :: Matches(lines, line, i) &&
          var merged := lines[i].quantity + line.quantity;
          if merged > MAX_QUANTITY then r == Fail(QuantityRange) && next == lines
          else r == Pass && next == lines[i := lines[i].(quantity := merged)]
      else if |lines| >= MAX_LINES then r == Fail(TooManyLines) && next == lines
      else r == Pass && next == lines + [line]
    case SetQuantity(id, quantity) =>
      if quantity == 0 then Removed(lines, id, r, next)
      else if quantity < 0 || quantity > MAX_QUANTITY then r == Fail(QuantityRange) && next == lines
      else
        (match r
         case Pass => exists i :: Named(lines, id, i) && next == lines[i := lines[i].(quantity := quantity)]
         case Fail(e) => next == lines && e == NoSuchLine && forall l :: l in lines ==> l.id != id)
    case Remove(id) => Removed(lines, id, r, next)
    case Clear => r == Pass && next == []
  }

  // ---- What every act keeps ----

  lemma RemovalKeeps(lines: seq<Line>, i: nat)
    requires Sound(lines) && i < |lines|
    ensures Sound(lines[..i] + lines[i + 1..])
  {
    var next := lines[..i] + lines[i + 1..];
    forall a, b | 0 <= a < b < |next| ensures !Same(next[a], next[b]) {
      assert next[a] == lines[if a < i then a else a + 1] && next[b] == lines[if b < i then b else b + 1];
    }
  }

  lemma RequantifyingKeeps(lines: seq<Line>, i: nat, quantity: int)
    requires Sound(lines) && i < |lines| && 1 <= quantity <= MAX_QUANTITY
    ensures Sound(lines[i := lines[i].(quantity := quantity)])
  {
    var next := lines[i := lines[i].(quantity := quantity)];
    forall a, b | 0 <= a < b < |next| ensures !Same(next[a], next[b]) {
      assert !Same(lines[a], lines[b]);
    }
  }

  lemma ActKeeps(shop: string, lines: seq<Line>, act: Act, r: Outcome<Error>, next: seq<Line>)
    requires Sound(lines) && Acts(shop, lines, act, r, next)
    ensures Sound(next)
  {
    if next != lines && act != Clear {
      if act.Add? {
        if i :| Matches(lines, act.line, i) {
          RequantifyingKeeps(lines, i, lines[i].quantity + act.line.quantity);
        } else {
          forall i | 0 <= i < |lines| ensures !Same(lines[i], act.line) {
            if Same(lines[i], act.line) {
              NoMatch(lines, act.line, i);
            }
          }
        }
      } else if act.SetQuantity? && act.quantity != 0 {
        var i :| Named(lines, act.id, i) && next == lines[i := lines[i].(quantity := act.quantity)];
        RequantifyingKeeps(lines, i, act.quantity);
      } else {
        var i :| Named(lines, act.id, i) && next == lines[..i] + lines[i + 1..];
        RemovalKeeps(lines, i);
      }
    }
  }

  lemma {:induction false} NoMatch(lines: seq<Line>, line: Line, i: nat)
    requires i < |lines| && Same(lines[i], line)
    ensures exists k :: Matches(lines, line, k)
  {
    if j :| 0 <= j < i && Same(lines[j], line) {
      NoMatch(lines, line, j);
    } else {
      assert Matches(lines, line, i);
    }
  }

  /** A run of acts: the lines after each, starting from what the first is given. */
  ghost predicate Run(shop: string, states: seq<seq<Line>>, acts: seq<Act>, results: seq<Outcome<Error>>)
  {
    |states| == |acts| + 1 && |results| == |acts| &&
    forall i :: 0 <= i < |acts| ==> Acts(shop, states[i], acts[i], results[i], states[i + 1])
  }

  /** Every cart reached from an empty one holds to its limits and never lists one selection twice. */
  lemma {:induction false} EveryCartIsSound(shop: string, states: seq<seq<Line>>, acts: seq<Act>, results: seq<Outcome<Error>>, n: nat)
    requires Run(shop, states, acts, results) && states[0] == [] && n < |states|
    ensures Sound(states[n]) && |states[n]| <= 60
    ensures forall l :: l in states[n] ==> 1 <= l.quantity <= 20 && l.target != "" && l.kind in {"item", "combo"}
    ensures forall l :: l in states[n] ==> Utf8Length(l.note) <= 200
  {
    if n > 0 {
      EveryCartIsSound(shop, states, acts, results, n - 1);
      ActKeeps(shop, states[n - 1], acts[n - 1], results[n - 1], states[n]);
    }
  }

  // ---- What an act does to the number of things held ----

  function Weight(l: Line, counts: Line -> bool): int { if counts(l) then l.quantity else 0 }

  /** How many things the lines hold, of the lines that count. */
  function Held(lines: seq<Line>, counts: Line -> bool): int
  {
    if lines == [] then 0
    else Held(lines[..|lines| - 1], counts) + Weight(lines[|lines| - 1], counts)
  }

  lemma {:induction false} HeldReplace(lines: seq<Line>, i: nat, l: Line, counts: Line -> bool)
    requires i < |lines|
    ensures Held(lines[i := l], counts) == Held(lines, counts) - Weight(lines[i], counts) + Weight(l, counts)
  {
    var m := |lines| - 1;
    if i < m {
      HeldReplace(lines[..m], i, l, counts);
      assert lines[i := l][..m] == lines[..m][i := l];
    } else {
      assert lines[i := l][..m] == lines[..m];
    }
  }

  lemma {:induction false} HeldDrop(lines: seq<Line>, i: nat, counts: Line -> bool)
    requires i < |lines|
    ensures Held(lines[..i] + lines[i + 1..], counts) == Held(lines, counts) - Weight(lines[i], counts)
  {
    var m := |lines| - 1;
    var next := lines[..i] + lines[i + 1..];
    if i < m {
      HeldDrop(lines[..m], i, counts);
      assert next[..|next| - 1] == lines[..m][..i] + lines[..m][i + 1..];
      assert next[|next| - 1] == lines[m];
    } else {
      assert next == lines[..m];
    }
  }

  /** A question about a line that only its selection decides. */
  ghost predicate Selective(counts: Line -> bool) { forall a, b :: Same(a, b) ==> counts(a) == counts(b) }

  /**
   * A successful add raises what is held of its own selection, and of nothing else, by exactly what was added;
   * counting every line, that is the number on the badge. A refused one changes nothing.
   */
  lemma AddRaisesItsSelection(shop: string, lines: seq<Line>, merchant: string, line: Line, r: Outcome<Error>,
                              next: seq<Line>, counts: Line -> bool)
    requires Acts(shop, lines, Add(merchant, line), r, next) && Selective(counts)
    ensures Held(next, counts) == Held(lines, counts) + (if r.Pass? then Weight(line, counts) else 0)
  {
    if r.Pass? {
      if exists i :: Matches(lines, line, i) {
        var i :| Matches(lines, line, i) && next == lines[i := lines[i].(quantity := lines[i].quantity + line.quantity)];
        MergingRaises(lines, i, line, counts);
      } else {
        assert next[..|next| - 1] == lines;
      }
    }
  }

  /**
   An add leaves every line where it was with all it had but, on a line of its own selection, the quantity; and only a
   selection that was not there is written at the end, as it was given.
   */
  lemma AddKeepsTheLines(shop: string, lines: seq<Line>, merchant: string, line: Line, r: Outcome<Error>, next: seq<Line>)
    requires Acts(shop, lines, Add(merchant, line), r, next)
    ensures r == Fail(DifferentMerchant) <==> merchant != shop
    ensures r.Fail? ==> next == lines
    ensures |lines| <= |next| && forall i :: 0 <= i < |lines| ==>
              next[i] == lines[i].(quantity := next[i].quantity) && (next[i] != lines[i] ==> Same(lines[i], line))
    ensures r.Pass? ==> next == lines + [line] || (|next| == |lines| && exists i :: 0 <= i < |lines| && Same(lines[i], line))
  {
  }

  lemma MergingRaises(lines: seq<Line>, i: nat, line: Line, counts: Line -> bool)
    requires i < |lines| && Same(lines[i], line) && Selective(counts)
    ensures Held(lines[i := lines[i].(quantity := lines[i].quantity + line.quantity)], counts) ==
            Held(lines, counts) + Weight(line, counts)
  {
    var merged := lines[i].(quantity := lines[i].quantity + line.quantity);
    SameIsAnEquivalence(merged, lines[i], line);
    assert Same(merged, lines[i]);
    hide Same;
    assert counts(merged) == counts(lines[i]) == counts(line);
    HeldReplace(lines, i, merged, counts);
  }

  /** Any other act changes the count by what the one line it names gains or loses. */
  lemma OtherActsChangeOneLine(shop: string, lines: seq<Line>, act: Act, r: Outcome<Error>, next: seq<Line>,
                               counts: Line -> bool)
    requires Acts(shop, lines, act, r, next) && Selective(counts) && (act.SetQuantity? || act.Remove?)
    ensures r.Pass? ==>
      exists i :: Named(lines, act.id, i) &&
        Held(next, counts) == Held(lines, counts) - Weight(lines[i], counts) +
          (if act.SetQuantity? && counts(lines[i]) then act.quantity else 0)
    ensures r.Fail? ==> next == lines
  {
    if r.Pass? {
      if act.SetQuantity? && act.quantity != 0 {
        var i :| Named(lines, act.id, i) && next == lines[i := lines[i].(quantity := act.quantity)];
        assert Same(lines[i], lines[i].(quantity := act.quantity));
        HeldReplace(lines, i, lines[i].(quantity := act.quantity), counts);
      } else {
        var i :| Named(lines, act.id, i) && next == lines[..i] + lines[i + 1..];
        HeldDrop(lines, i, counts);
      }
    }
  }

  // ---- The cart, changed in place ----

  class Basket {
    const shop: string
    var lines: seq<Line>

    constructor (shop: string)
      ensures this.shop == shop && lines == []
    {
      this.shop := shop;
      lines := [];
    }

    method Count() returns (n: int)
      ensures n == Held(lines, _ => true)
    {
      n := 0;
      for i := 0 to |lines|
        invariant n == Held(lines[..i], _ => true)
      {
        assert lines[..i + 1][..i] == lines[..i];
        n := n + lines[i].quantity;
      }
      assert lines[..|lines|] == lines;
    }

    method Add(merchant: string, line: Line) returns (r: Outcome<Error>)
      modifies this`lines
      ensures Acts(shop, old(lines), Act.Add(merchant, line), r, lines)
    {
      if merchant != shop { return Fail(DifferentMerchant); }
      var valid := ValidLine(line);
      if valid.Fail? { return valid; }
      for i := 0 to |lines|
        invariant lines == old(lines)
        invariant forall j :: 0 <= j < i ==> !Same(lines[j], line)
      {
        var same := SameSelection(lines[i], line);
        if same {
          assert Matches(lines, line, i);
          var merged := lines[i].quantity + line.quantity;
          if merged > MAX_QUANTITY { return Fail(QuantityRange); }
          lines := lines[i := lines[i].(quantity := merged)];
          return Pass;
        }
      }
      if |lines| >= MAX_LINES { return Fail(TooManyLines); }
      lines := lines + [line];
      return Pass;
    }

    method SetQuantity(id: string, quantity: int) returns (r: Outcome<Error>)
      modifies this`lines
      ensures Acts(shop, old(lines), Act.SetQuantity(id, quantity), r, lines)
    {
      if quantity == 0 {
        r := Remove(id);
        return;
      }
      if quantity < 0 || quantity > MAX_QUANTITY { return Fail(QuantityRange); }
      for i := 0 to |lines|
        invariant lines == old(lines)
        invariant forall j :: 0 <= j < i ==> lines[j].id != id
      {
        if lines[i].id == id {
          assert Named(lines, id, i);
          lines := lines[i := lines[i].(quantity := quantity)];
          return Pass;
        }
      }
      return Fail(NoSuchLine);
    }

    method Remove(id: string) returns (r: Outcome<Error>)
      modifies this`lines
      ensures Acts(shop, old(lines), Act.Remove(id), r, lines)
    {
      for i := 0 to |lines|
        invariant lines == old(lines)
        invariant forall j :: 0 <= j < i ==> lines[j].id != id
      {
        if lines[i].id == id {
          assert Named(lines, id, i);
          lines := lines[..i] + lines[i + 1..];
          return Pass;
        }
      }
      return Fail(NoSuchLine);
    }

    method Clear()
      modifies this`lines
      ensures lines == []
    {
      lines := [];
    }
  }
}
