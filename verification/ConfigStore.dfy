/** The writers of configuration: admin changes, clearing, the auto-tuner, and the audit log they share. */
module ConfigStore {
  import opened Results
  import opened Config
  import opened Text
  import D = Discovery
  import T = Pricing
  import O = Orders
  import Protocol

  datatype Actor = Actor(kind: string, id: string)

  const AUTO_TUNER: string := "auto_tuner"

  datatype Change = Change(key: Key, scope: Scope, oldValue: Value, newValue: Value, actor: Actor, reason: string)

  datatype Entry = Entry(value: Value, pinned: bool)

  datatype Store = Store(table: map<(Key, Scope), Entry>, log: seq<Change>)

  datatype ConfigError =
    | UnknownKey | Immutable | NotAutoTunable | Pinned | WrongKind | OutOfBounds | ReasonRequired
    | CannotClearGlobal | NoOverrideHere | InvalidScope

  datatype SetRequest = SetRequest(key: Key, scope: Scope, value: Value, pinned: bool, actor: Actor, reason: string)

  /** What applies at exactly this scope: its override, or the default it would be moved away from. */
  function Current(table: map<(Key, Scope), Entry>, key: Key, scope: Scope): Value
    requires Registered(key)
  {
    if (key, scope) in table then table[(key, scope)].value else Define(key).default
  }

  /** The checks before a change, in their order. */
  function Checked(table: map<(Key, Scope), Entry>, r: SetRequest): Outcome<ConfigError>
  {
    if !Registered(r.key) then Fail(UnknownKey)
    else if Define(r.key).immutable then Fail(Immutable)
    else if r.actor.kind == AUTO_TUNER && !Define(r.key).autoTunable then Fail(NotAutoTunable)
    else if r.actor.kind == AUTO_TUNER && (r.key, r.scope) in table && table[(r.key, r.scope)].pinned then Fail(Pinned)
    else if r.value.kind != Define(r.key).default.kind then Fail(WrongKind)
    else if !InBounds(Define(r.key), r.value) then Fail(OutOfBounds)
    else if TrimSpace(r.reason) == "" then Fail(ReasonRequired)
    else Pass
  }

  /** When each refusal is given, in the order they are looked for. */
  lemma RefusalMeaning(table: map<(Key, Scope), Entry>, r: SetRequest)
    ensures Checked(table, r) == Fail(UnknownKey) <==> r.key.OtherKey?
    ensures Checked(table, r) == Fail(Immutable) <==> r.key == DivisionCeiling
    ensures Registered(r.key) && r.key != DivisionCeiling ==>
              var d, tuner, at := Define(r.key), r.actor.kind == AUTO_TUNER, (r.key, r.scope);
              var barred := tuner && !d.autoTunable;
              var pinned := tuner && at in table && table[at].pinned;
              && (Checked(table, r) == Fail(NotAutoTunable) <==> barred)
              && (Checked(table, r) == Fail(Pinned) <==> !barred && pinned)
              && (Checked(table, r) == Fail(WrongKind) <==> !barred && !pinned && r.value.kind != d.default.kind)
              && (Checked(table, r) == Fail(OutOfBounds) <==>
                    !barred && !pinned && r.value.kind == d.default.kind && !InBounds(d, r.value))
              && (Checked(table, r) == Fail(ReasonRequired) <==>
                    !barred && !pinned && InBounds(d, r.value) && forall c :: c in r.reason ==> IsSpace(c))
  {
    hide TrimSpace, Define;
  }

  function AfterSet(s: Store, r: SetRequest): Store
  {
    if Checked(s.table, r).Fail? then s
    else Store(s.table[(r.key, r.scope) := Entry(r.value, r.pinned)],
               s.log + [Change(r.key, r.scope, Current(s.table, r.key, r.scope), r.value, r.actor, TrimSpace(r.reason))])
  }

  function MayClear(table: map<(Key, Scope), Entry>, key: Key, scope: Scope, reason: string): Outcome<ConfigError>
  {
    if !Registered(key) then Fail(UnknownKey)
    else if scope.level == Global then Fail(CannotClearGlobal)
    else if TrimSpace(reason) == "" then Fail(ReasonRequired)
    else if (key, scope) !in table then Fail(NoOverrideHere)
    else Pass
  }

  function AfterClear(s: Store, key: Key, scope: Scope, actor: Actor, reason: string): Store
  {
    if MayClear(s.table, key, scope, reason).Fail? then s
    else Store(s.table - {(key, scope)},
               s.log + [Change(key, scope, s.table[(key, scope)].value, Define(key).default, actor, TrimSpace(reason))])
  }

  // ---------------------------------------------------------------- the auto-tuner

  datatype Signal = Signal(merchantsNearby: int, failureRate: real)

  /** A tenth of the radius, and at least a metre. */
  function Step(metres: int): int { if metres / 10 == 0 then 1 else metres / 10 }

  function Clamp(v: int, lo: int, hi: int): int { if v < lo then lo else if v > hi then hi else v }

  predicate Thin(minMerchants: int, s: Signal) { minMerchants > 0 && s.merchantsNearby < minMerchants }

  predicate Failing(s: Signal) { s.failureRate > 0.15 }

  predicate Oversupplied(minMerchants: int, s: Signal)
  {
    minMerchants > 0 && s.merchantsNearby >= minMerchants * 2 && !Failing(s)
  }

  /** The next value of a radius, or nothing when it should stay. */
  function Tune(d: Definition, current: Value, minMerchants: int, s: Signal): Option<Value>
  {
    var metres := current.whole;
    if Thin(minMerchants, s) || Failing(s) || Oversupplied(minMerchants, s) then
      var target := Clamp(if Thin(minMerchants, s) || Failing(s) then metres + Step(metres) else metres - Step(metres),
                          d.min.whole, d.max.whole);
      if target == metres then None else Some(Distance(target))
    else None
  }

  /**
   What a pass does to a radius in bounds: a tenth wider where shops are few or deliveries fail, a tenth narrower where
   there are twice as many shops as asked for and deliveries do not fail, never past a bound, and otherwise nothing.
   */
  lemma TuneMeaning(key: Key, current: Value, minMerchants: int, s: Signal)
    requires key in TUNABLE && InBounds(Define(key), current)
    ensures var up := (0 < minMerchants && s.merchantsNearby < minMerchants) || s.failureRate > 0.15;
            var down := !up && 0 < minMerchants && 2 * minMerchants <= s.merchantsNearby;
            var d, metres, next := Define(key), current.whole, Tune(Define(key), current, minMerchants, s);
            && (next.Some? <==> (up && metres < d.max.whole) || (down && d.min.whole < metres))
            && (next.Some? && up ==>
                  next.value == Distance(if metres + metres / 10 < d.max.whole then metres + metres / 10 else d.max.whole))
            && (next.Some? && down ==>
                  next.value == Distance(if metres - metres / 10 > d.min.whole then metres - metres / 10 else d.min.whole))
  {
  }

  /** A pass moves a radius by at most a tenth, towards more supply when it is thin or failing, and stays within bounds. */
  lemma TuneMovesGently(key: Key, current: Value, minMerchants: int, s: Signal)
    requires key in TUNABLE && InBounds(Define(key), current)
    ensures var next := Tune(Define(key), current, minMerchants, s);
            next.Some? ==>
              && InBounds(Define(key), next.value)
              && next.value.whole != current.whole
              && 10 * (next.value.whole - current.whole) <= current.whole
              && 10 * (current.whole - next.value.whole) <= current.whole
              && (next.value.whole > current.whole <==> Thin(minMerchants, s) || Failing(s))
              && (next.value.whole < current.whole ==> s.merchantsNearby >= 2 * minMerchants)
    ensures !Thin(minMerchants, s) && !Failing(s) && !Oversupplied(minMerchants, s) ==>
              Tune(Define(key), current, minMerchants, s).None?
  {
  }

  const TUNABLE: seq<Key> := [BaseRadius, PartnerRadius]

  /** The setting in force for a key at a placement, straight from the table. */
  function InForce(table: map<(Key, Scope), Entry>, key: Key, chain: seq<Scope>): Setting
    requires Registered(key)
  {
    if chain == [] then Setting(Define(key).default, GLOBAL)
    else if (key, chain[0]) in table && Counts(OverrideAt(table, key, chain[0]))
    then Setting(table[(key, chain[0])].value, chain[0])
    else InForce(table, key, chain[1..])
  }

  function OverrideAt(table: map<(Key, Scope), Entry>, key: Key, scope: Scope): Override
    requires (key, scope) in table
  {
    Override(key, scope, table[(key, scope)].value, table[(key, scope)].pinned)
  }

  const TUNER_REASON: string := "supply or deliveries out of range"

  function TunerAsks(key: Key, scope: Scope, next: Value): SetRequest
  {
    SetRequest(key, scope, next, false, Actor(AUTO_TUNER, ""), TUNER_REASON)
  }

  /** One key of a pass: decided on the snapshot the pass started from, written through the same guard as an admin's. */
  function AfterTuneOne(s: Store, key: Key, scope: Scope, current: Value, minMerchants: int, signal: Signal): Store
    requires Registered(key)
  {
    match Tune(Define(key), current, minMerchants, signal)
    case None => s
    case Some(next) => AfterSet(s, TunerAsks(key, scope, next))
  }

  /**
   What a pass leaves at an area for each of the radii it tunes: the next value, unpinned, unless a pin stands there;
   both are decided on the settings in force before the pass.
   */
  lemma PassMovesBothRadii(s: Store, p: Placement, signal: Signal, key: Key)
    requires key in TUNABLE && TrimSpace(p.area) != ""
    ensures var at := (key, Scope(Area, TrimSpace(p.area)));
            var next := Tune(Define(key), InForce(s.table, key, Chain(p)).value,
                             InForce(s.table, MinMerchants, Chain(p)).value.whole, signal);
            var held := at in s.table && s.table[at].pinned;
            var u := AfterTune(s, p, signal).table;
            && (at in u <==> at in s.table || next.Some?)
            && (at in u ==> u[at] == if next.Some? && !held then Entry(next.value, false) else s.table[at])
  {
    hide Define, Tune, InForce, Chain, TrimSpace, AfterTuneOne;
    var scope, minMerchants := Scope(Area, TrimSpace(p.area)), InForce(s.table, MinMerchants, Chain(p)).value.whole;
    var base, partner := InForce(s.table, BaseRadius, Chain(p)).value, InForce(s.table, PartnerRadius, Chain(p)).value;
    OneMovesItsRadius(s, BaseRadius, scope, base, minMerchants, signal);
    OneMovesItsRadius(AfterTuneOne(s, BaseRadius, scope, base, minMerchants, signal), PartnerRadius, scope, partner,
                      minMerchants, signal);
  }

  lemma OneMovesItsRadius(s: Store, key: Key, scope: Scope, current: Value, minMerchants: int, signal: Signal)
    requires key in TUNABLE
    ensures var next := Tune(Define(key), current, minMerchants, signal);
            var held := (key, scope) in s.table && s.table[(key, scope)].pinned;
            AfterTuneOne(s, key, scope, current, minMerchants, signal).table ==
            if next.Some? && !held then s.table[(key, scope) := Entry(next.value, false)] else s.table
  {
    hide Define, Tune, TrimSpace;
    TunerGivesAReason();
    TunedIsAllowed(key, current, minMerchants, signal);
  }

  function AfterTune(s: Store, p: Placement, signal: Signal): Store
  {
    match NewScope(Area, p.area)
    case Failure(_) => s
    case Success(scope) =>
      var chain := Chain(p);
      var minMerchants := InForce(s.table, MinMerchants, chain).value.whole;
      var first := AfterTuneOne(s, BaseRadius, scope, InForce(s.table, BaseRadius, chain).value, minMerchants, signal);
      AfterTuneOne(first, PartnerRadius, scope, InForce(s.table, PartnerRadius, chain).value, minMerchants, signal)
  }

  // ---------------------------------------------------------------- the use cases

  datatype TuneOutcome = Applied(key: Key, change: Change) | Skipped(key: Key, pinned: bool)

  /** A list holding exactly the table's overrides at the scopes of a chain. */
  ghost predicate Lists(os: seq<Override>, table: map<(Key, Scope), Entry>, chain: seq<Scope>)
  {
    && OncePerScope(os)
    && (forall o :: o in os ==> o.scope in chain && (o.key, o.scope) in table && o == OverrideAt(table, o.key, o.scope))
    && (forall key, scope :: (key, scope) in table && scope in chain ==> OverrideAt(table, key, scope) in os)
  }

  lemma {:induction false} ListingAgrees(os: seq<Override>, table: map<(Key, Scope), Entry>, whole: seq<Scope>, key: Key, chain: seq<Scope>)
    requires Registered(key) && Lists(os, table, whole) && forall s :: s in chain ==> s in whole
    ensures Effective(key, chain, os) == InForce(table, key, chain)
  {
    if chain != [] {
      var here := FirstFor(os, key, chain[0]);
      assert chain[0] in chain;
      if (key, chain[0]) in table && Counts(OverrideAt(table, key, chain[0])) {
        assert OverrideAt(table, key, chain[0]) in os;
        assert here.Some?;
      }
      ListingAgrees(os, table, whole, key, chain[1..]);
    }
  }

  /** The snapshot holds, for every registered key, the setting in force in the table and where it comes from. */
  ghost predicate SnapshotOf(r: Resolved, table: map<(Key, Scope), Entry>, chain: seq<Scope>)
  {
    && (forall key :: key in r.values <==> Registered(key))
    && (forall key :: key in r.sources <==> Registered(key))
    && (forall key :: Registered(key) ==> Setting(r.values[key], r.sources[key]) == InForce(table, key, chain))
  }

  lemma SnapshotHolds(r: Resolved, table: map<(Key, Scope), Entry>, chain: seq<Scope>, key: Key)
    requires SnapshotOf(r, table, chain) && Registered(key)
    ensures key in r.values && r.values[key] == InForce(table, key, chain).value
  {
    hide InForce;
    assert Setting(r.values[key], r.sources[key]) == InForce(table, key, chain);
  }

  /** Resolving any listing of the overrides along a placement's chain gives the settings in force there. */
  lemma ResolvedListingIsASnapshot(os: seq<Override>, table: map<(Key, Scope), Entry>, p: Placement, r: Resolved)
    requires Lists(os, table, Chain(p))
    requires forall key :: key in r.values <==> Registered(key)
    requires forall key :: key in r.sources <==> Registered(key)
    requires forall key :: Registered(key) ==> Setting(r.values[key], r.sources[key]) == Effective(key, Chain(p), os)
    ensures SnapshotOf(r, table, Chain(p))
  {
    hide Lists, Effective, InForce, Chain;
    forall key | Registered(key)
      ensures Setting(r.values[key], r.sources[key]) == InForce(table, key, Chain(p))
    {
      ListingAgrees(os, table, Chain(p), key, Chain(p));
    }
  }

  lemma TunerGivesAReason()
    ensures TrimSpace(TUNER_REASON) != ""
  {
    assert TUNER_REASON[0] == 's' && TUNER_REASON[0] in TUNER_REASON;
  }

  lemma TunedIsAllowed(key: Key, current: Value, minMerchants: int, signal: Signal)
    requires key in TUNABLE
    ensures Define(key).autoTunable && !Define(key).immutable
    ensures var next := Tune(Define(key), current, minMerchants, signal);
            next.Some? ==> InBounds(Define(key), next.value)
  {
  }

  lemma TunerMeetsOnlyPins(table: map<(Key, Scope), Entry>, key: Key, scope: Scope, current: Value, minMerchants: int, signal: Signal)
    requires key in TUNABLE
    ensures var next := Tune(Define(key), current, minMerchants, signal);
            next.Some? ==> Checked(table, TunerAsks(key, scope, next.value)) in {Pass, Fail(Pinned)}
  {
    hide Define, Tune, TrimSpace;
    TunerGivesAReason();
    TunedIsAllowed(key, current, minMerchants, signal);
  }

  class ConfigDesk {
    var table: map<(Key, Scope), Entry>
    var log: seq<Change>

    ghost function State(): Store
      reads this
    {
      Store(table, log)
    }

    constructor ()
      ensures State() == Store(map[], [])
    {
      table, log := map[], [];
    }

    /** Every change goes through here: known key, mutable, allowed to the asker, in bounds, with a reason; then recorded. */
    method Set(r: SetRequest) returns (done: Result<Change, ConfigError>)
      modifies this
      ensures State() == AfterSet(old(State()), r)
      ensures done.Success? <==>
                && Registered(r.key) && r.key != DivisionCeiling && InBounds(Define(r.key), r.value)
                && (r.actor.kind == AUTO_TUNER ==>
                      Define(r.key).autoTunable && !((r.key, r.scope) in old(table) && old(table)[(r.key, r.scope)].pinned))
                && exists c :: c in r.reason && !IsSpace(c)
      ensures done.Success? ==>
                && table == old(table)[(r.key, r.scope) := Entry(r.value, r.pinned)]
                && log == old(log) + [done.value]
                && done.value.key == r.key && done.value.scope == r.scope && done.value.actor == r.actor
                && done.value.newValue == r.value && done.value.reason == TrimSpace(r.reason)
                && done.value.oldValue == (if (r.key, r.scope) in old(table) then old(table)[(r.key, r.scope)].value
                                           else Define(r.key).default)
      ensures done.Failure? ==> Checked(old(table), r) == Fail(done.error) && table == old(table) && log == old(log)
    {
      hide TrimSpace, Define;
      if !Registered(r.key) {
        return Failure(UnknownKey);
      }
      var d := Define(r.key);
      if d.immutable {
        return Failure(Immutable);
      }
      if r.actor.kind == AUTO_TUNER {
        if !d.autoTunable {
          return Failure(NotAutoTunable);
        }
        if (r.key, r.scope) in table && table[(r.key, r.scope)].pinned {
          return Failure(Pinned);
        }
      }
      if !InBounds(d, r.value) {
        return Failure(if r.value.kind != d.default.kind then WrongKind else OutOfBounds);
      }
      if TrimSpace(r.reason) == "" {
        return Failure(ReasonRequired);
      }
      var previous := if (r.key, r.scope) in table then table[(r.key, r.scope)].value else d.default;
      var change := Change(r.key, r.scope, previous, r.value, r.actor, TrimSpace(r.reason));
      table := table[(r.key, r.scope) := Entry(r.value, r.pinned)];
      log := log + [change];
      done := Success(change);
    }

    /** Removes an override so the next scope up applies again; the removal is recorded like any change. */
    method Clear(key: Key, scope: Scope, actor: Actor, reason: string) returns (done: Result<Change, ConfigError>)
      modifies this
      ensures State() == AfterClear(old(State()), key, scope, actor, reason)
      ensures done.Success? <==>
                Registered(key) && scope.level != Global && (key, scope) in old(table) && exists c :: c in reason && !IsSpace(c)
      ensures done.Success? ==>
                && table == old(table) - {(key, scope)}
                && log == old(log) + [done.value]
                && done.value.key == key && done.value.scope == scope && done.value.actor == actor
                && done.value.reason == TrimSpace(reason)
                && done.value.oldValue == old(table)[(key, scope)].value && done.value.newValue == Define(key).default
      ensures done.Failure? ==> MayClear(old(table), key, scope, reason) == Fail(done.error) && table == old(table) && log == old(log)
    {
      hide TrimSpace, Define;
      if !Registered(key) {
        return Failure(UnknownKey);
      }
      if scope.level == Global {
        return Failure(CannotClearGlobal);
      }
      if TrimSpace(reason) == "" {
        return Failure(ReasonRequired);
      }
      if (key, scope) !in table {
        return Failure(NoOverrideHere);
      }
      var change := Change(key, scope, table[(key, scope)].value, Define(key).default, actor, TrimSpace(reason));
      table := table - {(key, scope)};
      log := log + [change];
      done := Success(change);
    }

    /** The overrides that could apply at a placement, in no particular order. */
    method OverridesFor(p: Placement) returns (os: seq<Override>)
      ensures Lists(os, table, Chain(p))
    {
      var chain := Chain(p);
      os := [];
      var left := table.Keys;
      while left != {}
        invariant left <= table.Keys && OncePerScope(os)
        invariant forall o :: o in os ==>
                    o.scope in chain && (o.key, o.scope) in table && (o.key, o.scope) !in left &&
                    o == OverrideAt(table, o.key, o.scope)
        invariant forall key, scope :: (key, scope) in table && (key, scope) !in left && scope in chain ==>
                    OverrideAt(table, key, scope) in os
        decreases left
      {
        var at :| at in left;
        left := left - {at};
        if at.1 in chain {
          os := os + [OverrideAt(table, at.0, at.1)];
        }
      }
    }

    /** The settings at a placement: the overrides that could apply, resolved. */
    method Snapshot(p: Placement) returns (r: Resolved)
      ensures SnapshotOf(r, table, Chain(p))
    {
      var os := OverridesFor(p);
      r := Resolve(p, os);
      ResolvedListingIsASnapshot(os, table, p, r);
    }

    /** One tuning pass over an area's radii. */
    method AutoTune(p: Placement, signal: Signal) returns (r: Result<seq<TuneOutcome>, ConfigError>)
      modifies this
      ensures State() == AfterTune(old(State()), p, signal)
      ensures r.Success? <==> NewScope(Area, p.area).Success?
      ensures r.Success? ==> |r.value| == 2 && r.value[0].key == BaseRadius && r.value[1].key == PartnerRadius
      ensures r.Success? ==> forall i :: 0 <= i < 2 && r.value[i].Applied? ==> r.value[i].change in log
    {
      hide Tune, InForce, Define, Chain, TrimSpace, AfterTuneOne, SnapshotOf;
      var scope := NewScope(Area, p.area);
      if scope.Failure? {
        return Failure(InvalidScope);
      }
      var resolved := Snapshot(p);
      SnapshotHolds(resolved, table, Chain(p), MinMerchants);
      SnapshotHolds(resolved, table, Chain(p), BaseRadius);
      SnapshotHolds(resolved, table, Chain(p), PartnerRadius);
      var minMerchants := resolved.values[MinMerchants].whole;
      var one := TuneOne(BaseRadius, scope.value, resolved.values[BaseRadius], minMerchants, signal);
      var two := TuneOne(PartnerRadius, scope.value, resolved.values[PartnerRadius], minMerchants, signal);
      r := Success([one, two]);
    }

    method TuneOne(key: Key, scope: Scope, current: Value, minMerchants: int, signal: Signal) returns (outcome: TuneOutcome)
      requires key in TUNABLE
      modifies this
      ensures State() == AfterTuneOne(old(State()), key, scope, current, minMerchants, signal)
      ensures outcome.key == key && (outcome.Skipped? <==> State() == old(State()))
      ensures (forall c :: c in old(log) ==> c in log) && (outcome.Applied? ==> outcome.change in log && outcome.change.key == key)
    {
      var next := Tune(Define(key), current, minMerchants, signal);
      if next.None? {
        return Skipped(key, false);
      }
      TunerMeetsOnlyPins(table, key, scope, current, minMerchants, signal);
      var done := Set(TunerAsks(key, scope, next.value));
      if done.Failure? {
        return Skipped(key, true);
      }
      assert |log| > |old(log)|;
      outcome := Applied(key, done.value);
    }
  }

  // ---------------------------------------------------------------- runs

  datatype Action =
    | DoSet(request: SetRequest)
    | DoClear(key: Key, scope: Scope, actor: Actor, reason: string)
    | DoTune(placement: Placement, signal: Signal)

  function Next(s: Store, a: Action): Store
  {
    match a
    case DoSet(r) => AfterSet(s, r)
    case DoClear(key, scope, actor, reason) => AfterClear(s, key, scope, actor, reason)
    case DoTune(p, signal) => AfterTune(s, p, signal)
  }

  function Run(s: Store, acts: seq<Action>): Store
    decreases |acts|
  {
    if acts == [] then s else Run(Next(s, acts[0]), acts[1..])
  }

  const EMPTY: Store := Store(map[], [])

  /** Every stored override is for a known, mutable key and in its bounds. */
  ghost predicate InOrder(table: map<(Key, Scope), Entry>)
  {
    forall key, scope :: (key, scope) in table ==>
      Registered(key) && !Define(key).immutable && InBounds(Define(key), table[(key, scope)].value)
  }

  /** The audit entries for a key at a scope, oldest first. */
  function EntriesFor(log: seq<Change>, key: Key, scope: Scope): seq<Change>
  {
    if log == [] then []
    else
      var rest, last := log[..|log| - 1], log[|log| - 1];
      if last.key == key && last.scope == scope then EntriesFor(rest, key, scope) + [last] else EntriesFor(rest, key, scope)
  }

  /** Entries that lead from one value to another, each starting where the one before ended. */
  ghost predicate Leads(es: seq<Change>, from: Value, to: Value)
  {
    if es == [] then from == to
    else es[|es| - 1].newValue == to && Leads(es[..|es| - 1], from, es[|es| - 1].oldValue)
  }

  /** For every key and scope the log leads from the default to what applies now. */
  ghost predicate Audited(s: Store)
  {
    forall key, scope :: Registered(key) ==>
      Leads(EntriesFor(s.log, key, scope), Define(key).default, Current(s.table, key, scope))
  }

  lemma RecordedChange(s: Store, u: Store, c: Change)
    requires Audited(s) && Registered(c.key) && u.log == s.log + [c]
    requires c.oldValue == Current(s.table, c.key, c.scope) && c.newValue == Current(u.table, c.key, c.scope)
    requires forall key, scope :: Registered(key) && (key, scope) != (c.key, c.scope) ==>
               Current(u.table, key, scope) == Current(s.table, key, scope)
    ensures Audited(u)
  {
    hide Define;
    forall key, scope | Registered(key)
      ensures Leads(EntriesFor(u.log, key, scope), Define(key).default, Current(u.table, key, scope))
    {
      assert u.log[..|u.log| - 1] == s.log;
      var es := EntriesFor(s.log, key, scope);
      assert Leads(es, Define(key).default, Current(s.table, key, scope));
      assert (es + [c])[..|es|] == es;
    }
  }

  lemma SetKeeps(s: Store, r: SetRequest)
    requires InOrder(s.table) && Audited(s)
    ensures InOrder(AfterSet(s, r).table) && Audited(AfterSet(s, r))
  {
    hide Define, Audited, TrimSpace;
    var u := AfterSet(s, r);
    if u != s {
      RecordedChange(s, u, u.log[|s.log|]);
    }
  }

  lemma ClearKeeps(s: Store, key: Key, scope: Scope, actor: Actor, reason: string)
    requires InOrder(s.table) && Audited(s)
    ensures InOrder(AfterClear(s, key, scope, actor, reason).table) && Audited(AfterClear(s, key, scope, actor, reason))
  {
    hide Define, Audited, TrimSpace;
    var u := AfterClear(s, key, scope, actor, reason);
    if u != s {
      RecordedChange(s, u, u.log[|s.log|]);
    }
  }

  lemma TuneKeeps(s: Store, p: Placement, signal: Signal)
    requires InOrder(s.table) && Audited(s)
    ensures InOrder(AfterTune(s, p, signal).table) && Audited(AfterTune(s, p, signal))
  {
    hide Define, Audited, InOrder, TrimSpace, AfterSet, Tune;
    if NewScope(Area, p.area).Success? {
      var scope, chain := NewScope(Area, p.area).value, Chain(p);
      var minMerchants := InForce(s.table, MinMerchants, chain).value.whole;
      var one := Tune(Define(BaseRadius), InForce(s.table, BaseRadius, chain).value, minMerchants, signal);
      var first := s;
      if one.Some? {
        SetKeeps(s, TunerAsks(BaseRadius, scope, one.value));
        first := AfterSet(s, TunerAsks(BaseRadius, scope, one.value));
      }
      var two := Tune(Define(PartnerRadius), InForce(s.table, PartnerRadius, chain).value, minMerchants, signal);
      if two.Some? {
        SetKeeps(first, TunerAsks(PartnerRadius, scope, two.value));
      }
    }
  }

  /** Over every run of changes, clearings and tuning passes: the table stays in order and the audit chain unbroken. */
  lemma {:induction false} RunsKeepOrderAndAudit(s: Store, acts: seq<Action>)
    requires InOrder(s.table) && Audited(s)
    ensures InOrder(Run(s, acts).table) && Audited(Run(s, acts))
    decreases |acts|
  {
    hide InOrder, Audited;
    if acts != [] {
      match acts[0] {
        case DoSet(r) => SetKeeps(s, r);
        case DoClear(key, scope, actor, reason) => ClearKeeps(s, key, scope, actor, reason);
        case DoTune(p, signal) => TuneKeeps(s, p, signal);
      }
      RunsKeepOrderAndAudit(Next(s, acts[0]), acts[1..]);
    }
  }

  /** From an empty store: the first old value is the default, each is the previous new one, the last is the current one. */
  lemma AuditFromTheStart(acts: seq<Action>, key: Key, scope: Scope)
    requires Registered(key)
    ensures var s := Run(EMPTY, acts);
            Leads(EntriesFor(s.log, key, scope), Define(key).default, Current(s.table, key, scope))
  {
    hide Define;
    RunsKeepOrderAndAudit(EMPTY, acts);
  }

  lemma {:induction false} LeadsMeaning(es: seq<Change>, from: Value, to: Value)
    requires Leads(es, from, to)
    ensures es != [] ==> es[0].oldValue == from && es[|es| - 1].newValue == to
    ensures forall i :: 0 < i < |es| ==> es[i].oldValue == es[i - 1].newValue
    ensures es == [] ==> from == to
  {
    if es != [] {
      LeadsMeaning(es[..|es| - 1], from, es[|es| - 1].oldValue);
    }
  }

  /** A pin holds against the tuner: nothing it writes, in a pass or on its own, changes a pinned setting. */
  lemma PinsHold(s: Store, a: Action, key: Key, scope: Scope)
    requires a.DoTune? || (a.DoSet? && a.request.actor.kind == AUTO_TUNER)
    requires (key, scope) in s.table && s.table[(key, scope)].pinned
    ensures (key, scope) in Next(s, a).table && Next(s, a).table[(key, scope)] == s.table[(key, scope)]
  {
    hide Define, TrimSpace, Tune, InForce, Chain;
  }

  /** A pin an admin sets is stored with its value, and no number of tuner steps after it moves it. */
  lemma {:induction false} PinnedSetHolds(s: Store, r: SetRequest, acts: seq<Action>)
    requires Checked(s.table, r).Pass? && r.pinned
    requires forall a :: a in acts ==> a.DoTune? || (a.DoSet? && a.request.actor.kind == AUTO_TUNER)
    ensures var u := Run(Next(s, DoSet(r)), acts).table;
            (r.key, r.scope) in u && u[(r.key, r.scope)] == Entry(r.value, true)
  {
    hide Checked;
    PinStays(Next(s, DoSet(r)), acts, r.key, r.scope);
  }

  lemma {:induction false} PinStays(s: Store, acts: seq<Action>, key: Key, scope: Scope)
    requires forall a :: a in acts ==> a.DoTune? || (a.DoSet? && a.request.actor.kind == AUTO_TUNER)
    requires (key, scope) in s.table && s.table[(key, scope)].pinned
    ensures (key, scope) in Run(s, acts).table && Run(s, acts).table[(key, scope)] == s.table[(key, scope)]
    decreases |acts|
  {
    if acts != [] {
      hide Next;
      PinsHold(s, acts[0], key, scope);
      PinStays(Next(s, acts[0]), acts[1..], key, scope);
    }
  }

  /** The tuner writes only the two radii. */
  lemma TunerWritesOnlyRadii(s: Store, p: Placement, signal: Signal, key: Key, scope: Scope)
    requires key !in TUNABLE || scope != Scope(Area, TrimSpace(p.area))
    ensures var u := AfterTune(s, p, signal).table;
            ((key, scope) in u <==> (key, scope) in s.table) && ((key, scope) in u ==> u[(key, scope)] == s.table[(key, scope)])
  {
    hide Define, TrimSpace, Tune, InForce, Chain;
  }

  // ---------------------------------------------------------------- every snapshot can be used

  lemma {:induction false} InForceIsInBounds(table: map<(Key, Scope), Entry>, key: Key, chain: seq<Scope>)
    requires InOrder(table) && Registered(key)
    ensures InBounds(Define(key), InForce(table, key, chain).value)
    ensures Define(key).immutable ==> InForce(table, key, chain).value == Define(key).default
  {
    hide InBounds;
    if chain != [] {
      InForceIsInBounds(table, key, chain[1..]);
    }
  }

  ghost predicate Complete(r: Resolved) { forall key :: Registered(key) ==> key in r.values }

  function At(r: Resolved, key: Key): Value
    requires Complete(r) && Registered(key)
  {
    r.values[key]
  }

  /** A snapshot holding a value in its key's bounds for every registered key, the immutable ones at their default. */
  ghost predicate Sound(r: Resolved)
  {
    && Complete(r)
    && forall key :: Registered(key) ==>
         InBounds(Define(key), At(r, key)) && (Define(key).immutable ==> At(r, key) == Define(key).default)
  }

  lemma SnapshotsAreSound(r: Resolved, table: map<(Key, Scope), Entry>, chain: seq<Scope>)
    requires InOrder(table) && SnapshotOf(r, table, chain)
    ensures Sound(r)
  {
    hide InForce, InOrder, InBounds, Define;
    forall key | Registered(key)
      ensures InBounds(Define(key), At(r, key)) && (Define(key).immutable ==> At(r, key) == Define(key).default)
    {
      InForceIsInBounds(table, key, chain);
      assert At(r, key) == Setting(r.values[key], r.sources[key]).value;
    }
  }

  /** Discovery's policy, read from a snapshot. */
  function PolicyFrom(r: Resolved): Result<D.Policy, D.PolicyError>
    requires Complete(r)
  {
    D.NewPolicy(At(r, BaseRadius).whole as real, At(r, ExpansionStep).whole as real,
                At(r, MaxExpansions).whole, At(r, MinMerchants).whole,
                At(r, AutoExpand).flag, At(r, DivisionCeiling).flag)
  }

  /** Pricing's tariff, read from a snapshot. */
  function TariffFrom(r: Resolved): Result<T.Tariff, T.TariffError>
    requires Complete(r)
  {
    T.NewTariff(At(r, DeliveryBase).whole, At(r, DeliveryPerKm).whole,
                At(r, ExpansionMultiplier).ratio, At(r, FreeDelivery).whole)
  }

  lemma PolicyIsUsable(r: Resolved)
    requires Sound(r)
    ensures PolicyFrom(r).Success?
  {
    assert InBounds(Define(BaseRadius), At(r, BaseRadius));
    assert InBounds(Define(ExpansionStep), At(r, ExpansionStep));
    assert InBounds(Define(MaxExpansions), At(r, MaxExpansions));
    assert InBounds(Define(MinMerchants), At(r, MinMerchants));
    assert Define(DivisionCeiling).immutable && At(r, DivisionCeiling) == Define(DivisionCeiling).default;
  }

  lemma TariffIsUsable(r: Resolved)
    requires Sound(r)
    ensures TariffFrom(r).Success?
  {
    assert InBounds(Define(DeliveryBase), At(r, DeliveryBase));
    assert InBounds(Define(DeliveryPerKm), At(r, DeliveryPerKm));
    assert InBounds(Define(ExpansionMultiplier), At(r, ExpansionMultiplier));
  }

  /**
   Whatever has been set, cleared and tuned, any snapshot resolved from the store gives discovery its policy and pricing
   its tariff, and the cancellation window it holds is in range.
   */
  lemma SnapshotsAreUsable(acts: seq<Action>, p: Placement, r: Resolved, w: Protocol.World)
    requires SnapshotOf(r, Run(EMPTY, acts).table, Chain(p))
    requires w.window == At(r, CancellationWindow).whole * O.SECOND
    ensures PolicyFrom(r).Success? && TariffFrom(r).Success? && Protocol.WindowInBounds(w)
  {
    hide InForce, Run, Chain, PolicyFrom, TariffFrom;
    RunsKeepOrderAndAudit(EMPTY, acts);
    SnapshotsAreSound(r, Run(EMPTY, acts).table, Chain(p));
    PolicyIsUsable(r);
    TariffIsUsable(r);
    assert InBounds(Define(CancellationWindow), At(r, CancellationWindow));
  }

  /** Which setting each part of a policy and of a tariff is read from. */
  lemma PolicyHoldsItsSettings(r: Resolved)
    requires Complete(r) && PolicyFrom(r).Success?
    ensures var p := PolicyFrom(r).value;
            && p.baseRadius == At(r, BaseRadius).whole as real && p.step == At(r, ExpansionStep).whole as real
            && p.maxExpansions == At(r, MaxExpansions).whole && p.minMerchants == At(r, MinMerchants).whole
            && p.autoExpand == At(r, AutoExpand).flag
  {
  }

  lemma TariffHoldsItsSettings(r: Resolved)
    requires Complete(r) && TariffFrom(r).Success?
    ensures var t := TariffFrom(r).value;
            && t.base == At(r, DeliveryBase).whole && t.perBand == At(r, DeliveryPerKm).whole
            && t.multiplier == At(r, ExpansionMultiplier).ratio && t.freeAbove == At(r, FreeDelivery).whole
  {
  }

  lemma UntouchedAreDefaults(p: Placement, r: Resolved)
    requires SnapshotOf(r, map[], Chain(p))
    ensures Complete(r) && forall key :: Registered(key) ==> At(r, key) == Define(key).default
  {
    hide InForce, Chain, Define;
    forall key | Registered(key)
      ensures At(r, key) == Define(key).default
    {
      NothingIsOverridden(key, Chain(p));
      assert At(r, key) == Setting(r.values[key], r.sources[key]).value;
    }
  }

  /** A store nobody has touched: five kilometres and four steps of five more, and the tariff the service opens with. */
  lemma UntouchedSettings(p: Placement, r: Resolved)
    requires SnapshotOf(r, map[], Chain(p))
    ensures Complete(r) && PolicyFrom(r) == Success(D.Policy(5000.0, 5000.0, 4, 5, false))
    ensures TariffFrom(r) == Success(T.Tariff(4000, 1000, 1.5, 50000))
  {
    UntouchedAreDefaults(p, r);
    hide SnapshotOf, Define;
    DefaultsOfTheLadder();
    DefaultsOfTheTariff();
  }

  lemma DefaultsOfTheLadder()
    ensures Define(BaseRadius).default == Define(ExpansionStep).default == Distance(5000)
    ensures Define(MaxExpansions).default == Count(4) && Define(MinMerchants).default == Count(5)
    ensures Define(AutoExpand).default == Flag(false) && Define(DivisionCeiling).default == Flag(true)
  {
  }

  lemma DefaultsOfTheTariff()
    ensures Define(DeliveryBase).default == Taka(40) && Define(DeliveryPerKm).default == Taka(10)
    ensures Define(ExpansionMultiplier).default == Ratio(1.5) && Define(FreeDelivery).default == Taka(500)
  {
  }

  lemma {:induction false} NothingIsOverridden(key: Key, chain: seq<Scope>)
    requires Registered(key)
    ensures InForce(map[], key, chain) == Setting(Define(key).default, GLOBAL)
  {
    if chain != [] {
      NothingIsOverridden(key, chain[1..]);
    }
  }
}
