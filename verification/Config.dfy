/** Configuration: the registry, resolution by scope, the guarded writers and the audit log. */
module Config {
  import opened Results
  import opened Text

  datatype Kind = CountKind | BoolKind | RatioKind | MoneyKind | DistanceKind | DurationKind

  datatype Value = Value(kind: Kind, whole: int, ratio: real, flag: bool)

  function Count(n: int): Value { Value(CountKind, n, 0.0, false) }
  function Flag(b: bool): Value { Value(BoolKind, 0, 0.0, b) }
  function Ratio(r: real): Value { Value(RatioKind, 0, r, false) }
  function Taka(n: int): Value { Value(MoneyKind, n * 100, 0.0, false) }
  function Distance(metres: int): Value { Value(DistanceKind, metres, 0.0, false) }
  function Km(n: int): Value { Distance(n * 1000) }
  function Duration(seconds: int): Value { Value(DurationKind, seconds, 0.0, false) }

  datatype Key =
    | BaseRadius | ExpansionStep | MaxExpansions | MinMerchants | AutoExpand | DivisionCeiling
    | DeliveryBase | DeliveryPerKm | ExpansionMultiplier | FreeDelivery
    | ShortDistance | LongDistance | PartnerRadius | AssignTimeout | MaxConcurrent
    | CancellationWindow | CodLimit
    | OtpRequestsPerHour | OtpVerifyAttempts | OtpLockoutWindow | OtpTtl
    | AccessTokenTtl | RefreshTokenTtl | MaxSessions
    | OtherKey(name: string)  // a key that is not, or no longer, in the registry

  const MARKET_KEYS: seq<Key> :=
    [BaseRadius, ExpansionStep, MaxExpansions, MinMerchants, AutoExpand, DivisionCeiling,
     DeliveryBase, DeliveryPerKm, ExpansionMultiplier, FreeDelivery]

  const SERVICE_KEYS: seq<Key> :=
    [ShortDistance, LongDistance, PartnerRadius, AssignTimeout, MaxConcurrent,
     CancellationWindow, CodLimit,
     OtpRequestsPerHour, OtpVerifyAttempts, OtpLockoutWindow, OtpTtl,
     AccessTokenTtl, RefreshTokenTtl, MaxSessions]

  const KEYS: seq<Key> := MARKET_KEYS + SERVICE_KEYS

  datatype Definition = Definition(default: Value, autoTunable: bool, immutable: bool, min: Value, max: Value)

  predicate Registered(key: Key) { !key.OtherKey? }

  /** The table of definitions; a definition's kind is its default's. */
  function Define(key: Key): (d: Definition)
    requires Registered(key)
    ensures d.min.kind == d.max.kind == d.default.kind
    ensures InBounds(d, d.default)
    ensures d.immutable <==> key == DivisionCeiling
    ensures d.default.kind != RatioKind && d.default.kind != BoolKind ==> 0 <= d.min.whole
  {
    match key
    case BaseRadius => Definition(Km(5), true, false, Km(1), Km(25))
    case ExpansionStep => Definition(Km(5), true, false, Km(1), Km(10))
    case MaxExpansions => Definition(Count(4), false, false, Count(0), Count(10))
    case MinMerchants => Definition(Count(5), false, false, Count(1), Count(50))
    case AutoExpand => Definition(Flag(false), false, false, Flag(false), Flag(false))
    case DivisionCeiling => Definition(Flag(true), false, true, Flag(false), Flag(false))
    case DeliveryBase => Definition(Taka(40), true, false, Taka(10), Taka(200))
    case DeliveryPerKm => Definition(Taka(10), true, false, Taka(2), Taka(50))
    case ExpansionMultiplier => Definition(Ratio(1.5), true, false, Ratio(1.0), Ratio(3.0))
    case FreeDelivery => Definition(Taka(500), true, false, Taka(100), Taka(5000))
    case ShortDistance => Definition(Km(5), true, false, Km(1), Km(15))
    case LongDistance => Definition(Km(25), true, false, Km(5), Km(100))
    case PartnerRadius => Definition(Km(7), true, false, Km(1), Km(30))
    case AssignTimeout => Definition(Duration(30), false, false, Duration(10), Duration(300))
    case MaxConcurrent => Definition(Count(3), false, false, Count(1), Count(10))
    case CancellationWindow => Definition(Duration(120), false, false, Duration(0), Duration(900))
    case CodLimit => Definition(Taka(5000), true, false, Taka(500), Taka(50000))
    case OtpRequestsPerHour => Definition(Count(5), false, false, Count(1), Count(20))
    case OtpVerifyAttempts => Definition(Count(5), false, false, Count(3), Count(10))
    case OtpLockoutWindow => Definition(Duration(900), false, false, Duration(60), Duration(3600))
    case OtpTtl => Definition(Duration(300), false, false, Duration(60), Duration(600))
    case AccessTokenTtl => Definition(Duration(900), false, false, Duration(300), Duration(3600))
    case RefreshTokenTtl => Definition(Duration(5_184_000), false, false, Duration(86_400), Duration(15_552_000))
    case MaxSessions => Definition(Count(5), false, false, Count(1), Count(20))
  }

  predicate InBounds(d: Definition, v: Value)
  {
    && v.kind == d.default.kind
    && match d.default.kind
       case BoolKind => true
       case RatioKind => d.min.ratio <= v.ratio <= d.max.ratio
       case _ => d.min.whole <= v.whole <= d.max.whole
  }

  // ---------------------------------------------------------------- scopes

  datatype Level = Area | District | Division | Global | OtherLevel

  datatype Scope = Scope(level: Level, code: string)

  const GLOBAL: Scope := Scope(Global, "")

  datatype Placement = Placement(area: string, district: string, division: string)

  datatype ScopeError = MissingScopeCode | UnexpectedScopeCode | UnknownLevel

  function NewScope(level: Level, code: string): (r: Result<Scope, ScopeError>)
    ensures r.Success? <==> level != OtherLevel && (level == Global <==> forall c :: c in code ==> IsSpace(c))
    ensures r.Success? ==> r.value.level == level && (level == Global <==> r.value.code == "")
    ensures r.Success? ==> r.value.code == TrimSpace(code)
  {
    var trimmed := TrimSpace(code);
    if level == Global then (if trimmed != "" then Failure(UnexpectedScopeCode) else Success(GLOBAL))
    else if level == OtherLevel then Failure(UnknownLevel)
    else if trimmed == "" then Failure(MissingScopeCode)
    else Success(Scope(level, trimmed))
  }

  /** How much of the country a level covers. */
  function Breadth(level: Level): nat
  {
    match level
    case Area => 0
    case District => 1
    case Division => 2
    case Global => 3
    case OtherLevel => 4
  }

  function CodeAt(p: Placement, level: Level): string
  {
    match level
    case Area => p.area
    case District => p.district
    case Division => p.division
    case _ => ""
  }

  function Link(level: Level, code: string): seq<Scope>
  {
    if TrimSpace(code) != "" then [Scope(level, TrimSpace(code))] else []
  }

  /** The scopes to consult, most specific first. */
  function Chain(p: Placement): (chain: seq<Scope>)
    ensures |chain| > 0 && chain[|chain| - 1] == GLOBAL
    ensures forall i, j :: 0 <= i < j < |chain| ==> chain[i] != chain[j]
  {
    Link(Area, p.area) + Link(District, p.district) + Link(Division, p.division) + [GLOBAL]
  }

  /** The chain holds the scopes the placement names and the global one, each narrower than the next. */
  lemma ChainMeaning(p: Placement)
    ensures forall s :: s in Chain(p) <==> s == GLOBAL || (s.code != "" && s.code == TrimSpace(CodeAt(p, s.level)))
    ensures forall i, j :: 0 <= i < j < |Chain(p)| ==> Breadth(Chain(p)[i].level) < Breadth(Chain(p)[j].level)
  {
    hide TrimSpace;
    assert TrimSpace("") == "";
    forall s ensures s in Chain(p) <==> s == GLOBAL || (s.code != "" && s.code == TrimSpace(CodeAt(p, s.level))) {
      LinkMeaning(Area, p.area, s);
      LinkMeaning(District, p.district, s);
      LinkMeaning(Division, p.division, s);
    }
  }

  lemma LinkMeaning(level: Level, code: string, s: Scope)
    ensures s in Link(level, code) <==> s.level == level && s.code != "" && s.code == TrimSpace(code)
  {
  }

  datatype Override = Override(key: Key, scope: Scope, value: Value, pinned: bool)

  // ---------------------------------------------------------------- resolution

  /** An override that resolution takes notice of: a known, mutable key and a value of its kind. */
  predicate Counts(o: Override)
  {
    Registered(o.key) && !Define(o.key).immutable && o.value.kind == Define(o.key).default.kind
  }

  /** The first override in a list for a key at a scope. */
  function FirstFor(os: seq<Override>, key: Key, scope: Scope): (r: Option<Override>)
    ensures r.Some? ==> r.value in os && Counts(r.value) && r.value.key == key && r.value.scope == scope
    ensures r.None? ==> forall o :: o in os && Counts(o) && o.key == key ==> o.scope != scope
  {
    if os == [] then None
    else if Counts(os[0]) && os[0].key == key && os[0].scope == scope then Some(os[0])
    else FirstFor(os[1..], key, scope)
  }

  datatype Setting = Setting(value: Value, source: Scope)

  /** The plain rule: walk the chain, and the first scope with an override for the key decides; else the default. */
  function Effective(key: Key, chain: seq<Scope>, os: seq<Override>): Setting
    requires Registered(key)
  {
    if chain == [] then Setting(Define(key).default, GLOBAL)
    else
      match FirstFor(os, key, chain[0])
      case Some(o) => Setting(o.value, o.scope)
      case None => Effective(key, chain[1..], os)
  }

  /** An override of a key that may be overridden, of its own kind, at a scope of the chain before which there is none. */
  ghost predicate Decides(key: Key, chain: seq<Scope>, os: seq<Override>, i: int, o: Override)
    requires Registered(key)
  {
    && key != DivisionCeiling && 0 <= i < |chain|
    && o in os && o.key == key && o.scope == chain[i] && o.value.kind == Define(key).default.kind
    && forall other, j :: 0 <= j < i && other in os && other.key == key && other.scope == chain[j] ==>
         other.value.kind != Define(key).default.kind
  }

  /**
   The setting of the narrowest scope with an override of the key's own kind; where there is none, or the key may not be
   overridden, the default.
   */
  ghost predicate Narrowest(key: Key, chain: seq<Scope>, os: seq<Override>, e: Setting)
    requires Registered(key)
  {
    if exists i, o :: Decides(key, chain, os, i, o)
    then exists i, o :: Decides(key, chain, os, i, o) && e == Setting(o.value, chain[i])
    else e == Setting(Define(key).default, GLOBAL)
  }

  lemma {:induction false} EffectiveMeaning(key: Key, chain: seq<Scope>, os: seq<Override>)
    requires Registered(key)
    ensures Narrowest(key, chain, os, Effective(key, chain, os))
  {
    hide Define;
    if chain != [] {
      var here := FirstFor(os, key, chain[0]);
      if here.Some? {
        assert Decides(key, chain, os, 0, here.value);
      } else {
        hide Narrowest;
        EffectiveMeaning(key, chain[1..], os);
        NarrowestFurtherOn(key, chain, os, Effective(key, chain[1..], os));
      }
    }
  }

  lemma NarrowestFurtherOn(key: Key, chain: seq<Scope>, os: seq<Override>, e: Setting)
    requires Registered(key) && chain != [] && FirstFor(os, key, chain[0]).None?
    requires Narrowest(key, chain[1..], os, e)
    ensures Narrowest(key, chain, os, e)
  {
    hide Define, FirstFor;
    if i, o :| Decides(key, chain, os, i, o) {
      DecidesFurtherOn(key, chain, os, i, o);
      var k, later :| Decides(key, chain[1..], os, k, later) && e == Setting(later.value, chain[1..][k]);
      DecidesFurtherOn(key, chain, os, k, later);
    } else {
      forall i, o
        ensures !Decides(key, chain[1..], os, i, o)
      {
        DecidesFurtherOn(key, chain, os, i, o);
      }
    }
  }

  lemma DecidesFurtherOn(key: Key, chain: seq<Scope>, os: seq<Override>, i: int, o: Override)
    requires Registered(key) && chain != [] && FirstFor(os, key, chain[0]).None?
    ensures Decides(key, chain[1..], os, i, o) ==> Decides(key, chain, os, i + 1, o) && chain[1..][i] == chain[i + 1]
    ensures Decides(key, chain, os, i, o) ==> Decides(key, chain[1..], os, i - 1, o)
  {
    hide Define;
    if Decides(key, chain[1..], os, i, o) {
      forall other, j | 0 <= j < i + 1 && other in os && other.key == key && other.scope == chain[j]
        ensures other.value.kind != Define(key).default.kind
      {
        assert j > 0 ==> chain[j] == chain[1..][j - 1];
      }
    }
    if Decides(key, chain, os, i, o) {
      forall other, j | 0 <= j < i - 1 && other in os && other.key == key && other.scope == chain[1..][j]
        ensures other.value.kind != Define(key).default.kind
      {
        assert chain[1..][j] == chain[j + 1];
      }
    }
  }

  predicate Between(low: Value, v: Value, high: Value)
  {
    low.kind == v.kind == high.kind && low.whole <= v.whole <= high.whole && low.ratio <= v.ratio <= high.ratio
  }

  /** Both bounds may be set and nothing beyond them; what lies between two values that may be set may be too. */
  lemma BoundsMeaning(key: Key, v: Value)
    requires Registered(key)
    ensures var d := Define(key);
            && (d.default.kind != BoolKind ==> InBounds(d, d.min) && InBounds(d, d.max))
            && (InBounds(d, v) && d.default.kind == RatioKind ==> d.min.ratio <= v.ratio <= d.max.ratio)
            && (InBounds(d, v) && d.default.kind !in {BoolKind, RatioKind} ==> d.min.whole <= v.whole <= d.max.whole)
            && (InBounds(d, v) ==> v.kind == d.default.kind)
    ensures var d := Define(key);
            forall low, high :: InBounds(d, low) && InBounds(d, high) && Between(low, v, high) ==> InBounds(d, v)
  {
  }

  /** How far down the chain the deciding scope is; the chain's length when nothing overrides the key. */
  function Position(key: Key, chain: seq<Scope>, os: seq<Override>): (n: nat)
    ensures n <= |chain|
  {
    if chain == [] || FirstFor(os, key, chain[0]).Some? then 0 else 1 + Position(key, chain[1..], os)
  }

  lemma {:induction false} FirstForSnoc(os: seq<Override>, o: Override, key: Key, scope: Scope)
    ensures FirstFor(os + [o], key, scope) ==
            if FirstFor(os, key, scope).Some? then FirstFor(os, key, scope)
            else if Counts(o) && o.key == key && o.scope == scope then Some(o) else None
  {
    if os == [] {
      assert os + [o] == [o] && [o][1..] == [];
    } else {
      assert (os + [o])[1..] == os[1..] + [o];
      FirstForSnoc(os[1..], o, key, scope);
    }
  }

  /** What one more override does to a key that it is not about, or at a scope off the chain. */
  lemma {:induction false} IrrelevantOverride(key: Key, chain: seq<Scope>, os: seq<Override>, o: Override)
    requires Registered(key) && !(Counts(o) && o.key == key && o.scope in chain)
    ensures Position(key, chain, os + [o]) == Position(key, chain, os)
    ensures Effective(key, chain, os + [o]) == Effective(key, chain, os)
  {
    if chain != [] {
      FirstForSnoc(os, o, key, chain[0]);
      assert chain[0] in chain;
      IrrelevantOverride(key, chain[1..], os, o);
    }
  }

  /** A further override wins exactly when its scope comes before the one that decided so far. */
  lemma {:induction false} RelevantOverride(key: Key, chain: seq<Scope>, os: seq<Override>, o: Override, rank: nat)
    requires Registered(key) && Counts(o) && o.key == key && rank < |chain| && chain[rank] == o.scope
    requires forall i, j :: 0 <= i < j < |chain| ==> chain[i] != chain[j]
    ensures var wins := rank < Position(key, chain, os);
            && Position(key, chain, os + [o]) == (if wins then rank else Position(key, chain, os))
            && Effective(key, chain, os + [o]) == (if wins then Setting(o.value, o.scope) else Effective(key, chain, os))
  {
    FirstForSnoc(os, o, key, chain[0]);
    if FirstFor(os, key, chain[0]).None? && rank > 0 {
      RelevantOverride(key, chain[1..], os, o, rank - 1);
    }
  }

  lemma KeysAreTheRegistry(key: Key)
    ensures key in KEYS <==> Registered(key)
  {
    match key
    case BaseRadius => assert MARKET_KEYS[0] == key;
    case ExpansionStep => assert MARKET_KEYS[1] == key;
    case MaxExpansions => assert MARKET_KEYS[2] == key;
    case MinMerchants => assert MARKET_KEYS[3] == key;
    case AutoExpand => assert MARKET_KEYS[4] == key;
    case DivisionCeiling => assert MARKET_KEYS[5] == key;
    case DeliveryBase => assert MARKET_KEYS[6] == key;
    case DeliveryPerKm => assert MARKET_KEYS[7] == key;
    case ExpansionMultiplier => assert MARKET_KEYS[8] == key;
    case FreeDelivery => assert MARKET_KEYS[9] == key;
    case ShortDistance => assert SERVICE_KEYS[0] == key;
    case LongDistance => assert SERVICE_KEYS[1] == key;
    case PartnerRadius => assert SERVICE_KEYS[2] == key;
    case AssignTimeout => assert SERVICE_KEYS[3] == key;
    case MaxConcurrent => assert SERVICE_KEYS[4] == key;
    case CancellationWindow => assert SERVICE_KEYS[5] == key;
    case CodLimit => assert SERVICE_KEYS[6] == key;
    case OtpRequestsPerHour => assert SERVICE_KEYS[7] == key;
    case OtpVerifyAttempts => assert SERVICE_KEYS[8] == key;
    case OtpLockoutWindow => assert SERVICE_KEYS[9] == key;
    case OtpTtl => assert SERVICE_KEYS[10] == key;
    case AccessTokenTtl => assert SERVICE_KEYS[11] == key;
    case RefreshTokenTtl => assert SERVICE_KEYS[12] == key;
    case MaxSessions => assert SERVICE_KEYS[13] == key;
    case OtherKey(_) =>
  }

  datatype Resolved = Resolved(values: map<Key, Value>, sources: map<Key, Scope>)

  lemma OthersStay(chain: seq<Scope>, os: seq<Override>, o: Override)
    ensures forall key :: Registered(key) && !(Counts(o) && o.key == key && o.scope in chain) ==>
              Position(key, chain, os + [o]) == Position(key, chain, os) &&
              Effective(key, chain, os + [o]) == Effective(key, chain, os)
  {
    forall key | Registered(key) && !(Counts(o) && o.key == key && o.scope in chain)
      ensures Position(key, chain, os + [o]) == Position(key, chain, os)
      ensures Effective(key, chain, os + [o]) == Effective(key, chain, os)
    {
      IrrelevantOverride(key, chain, os, o);
    }
  }

  lemma AllStartAtTheirDefaults(chain: seq<Scope>)
    ensures forall key :: Registered(key) ==>
              Position(key, chain, []) == |chain| && Effective(key, chain, []) == Setting(Define(key).default, GLOBAL)
  {
    forall key | Registered(key)
      ensures Position(key, chain, []) == |chain|
      ensures Effective(key, chain, []) == Setting(Define(key).default, GLOBAL)
    {
      NothingOverrides(key, chain);
    }
  }

  /** The best rank seen for a key, and the setting it stands for. */
  predicate Stands(key: Key, chain: seq<Scope>, os: seq<Override>, rank: nat, value: Value, source: Scope)
    requires Registered(key)
  {
    rank == Position(key, chain, os) && Setting(value, source) == Effective(key, chain, os)
  }

  /** One pass over the overrides in any order gives every registered key what the plain rule gives it. */
  method Resolve(p: Placement, os: seq<Override>) returns (r: Resolved)
    ensures forall key :: key in r.values <==> Registered(key)
    ensures forall key :: key in r.sources <==> Registered(key)
    ensures forall key :: Registered(key) ==> Setting(r.values[key], r.sources[key]) == Effective(key, Chain(p), os)
  {
    var chain := Chain(p);
    hide Define, Chain, Effective, Position, FirstFor;
    var rank := Ranks(chain);
    var best, values, sources := Defaults(|chain|);
    AllStartAtTheirDefaults(chain);
    assert os[..0] == [];
    for n := 0 to |os|
      invariant AllStand(chain, os[..n], best, values, sources)
    {
      assert os[..n + 1] == os[..n] + [os[n]];
      best, values, sources := Consider(chain, rank, os[..n], os[n], best, values, sources);
    }
    assert os[..|os|] == os;
    r := Resolved(values, sources);
  }

  ghost predicate AllStand(chain: seq<Scope>, os: seq<Override>, best: map<Key, nat>, values: map<Key, Value>,
                           sources: map<Key, Scope>)
  {
    && best.Keys == values.Keys == sources.Keys
    && (forall key :: Registered(key) <==> key in best)
    && (forall key :: key in best ==> Stands(key, chain, os, best[key], values[key], sources[key]))
  }

  /** One override of the pass: it replaces what stands for its key when its scope comes before the best so far. */
  method Consider(chain: seq<Scope>, rank: map<Scope, nat>, ghost os: seq<Override>, o: Override, best: map<Key, nat>,
                  values: map<Key, Value>, sources: map<Key, Scope>)
    returns (best': map<Key, nat>, values': map<Key, Value>, sources': map<Key, Scope>)
    requires forall i, j :: 0 <= i < j < |chain| ==> chain[i] != chain[j]
    requires forall s :: s in rank <==> s in chain
    requires forall s :: s in rank ==> rank[s] < |chain| && chain[rank[s]] == s
    requires AllStand(chain, os, best, values, sources)
    ensures AllStand(chain, os + [o], best', values', sources')
  {
    hide Define, Effective, Position, FirstFor;
    best', values', sources' := best, values, sources;
    OthersStay(chain, os, o);
    if Counts(o) && o.scope in rank {
      RelevantOverride(o.key, chain, os, o, rank[o.scope]);
      if rank[o.scope] < best[o.key] {
        best', values', sources' := best[o.key := rank[o.scope]], values[o.key := o.value], sources[o.key := o.scope];
      }
    }
  }

  lemma {:induction false} NothingOverrides(key: Key, chain: seq<Scope>)
    requires Registered(key)
    ensures Position(key, chain, []) == |chain| && Effective(key, chain, []) == Setting(Define(key).default, GLOBAL)
  {
    if chain != [] {
      NothingOverrides(key, chain[1..]);
    }
  }

  method Ranks(chain: seq<Scope>) returns (rank: map<Scope, nat>)
    requires forall i, j :: 0 <= i < j < |chain| ==> chain[i] != chain[j]
    ensures forall s :: s in rank <==> s in chain
    ensures forall s :: s in rank ==> rank[s] < |chain| && chain[rank[s]] == s
  {
    rank := map[];
    for i := 0 to |chain|
      invariant forall s :: s in rank <==> s in chain[..i]
      invariant forall s :: s in rank ==> rank[s] < |chain| && chain[rank[s]] == s
    {
      assert chain[..i + 1] == chain[..i] + [chain[i]];
      rank := rank[chain[i] := i];
    }
    assert chain[..|chain|] == chain;
  }

  /** Every registered key at its default, decided by nobody. */
  method Defaults(worst: nat) returns (best: map<Key, nat>, values: map<Key, Value>, sources: map<Key, Scope>)
    ensures forall key :: Registered(key) <==> key in best
    ensures forall key :: Registered(key) <==> key in values
    ensures forall key :: Registered(key) <==> key in sources
    ensures forall key :: Registered(key) ==>
              best[key] == worst && values[key] == Define(key).default && sources[key] == GLOBAL
  {
    hide KEYS, MARKET_KEYS, SERVICE_KEYS, Define;
    best, values, sources := map[], map[], map[];
    for i := 0 to |KEYS|
      invariant forall key :: key in best <==> key in KEYS[..i]
      invariant forall key :: key in values <==> key in KEYS[..i]
      invariant forall key :: key in sources <==> key in KEYS[..i]
      invariant forall key :: key in KEYS[..i] ==> Registered(key)
      invariant forall key :: key in KEYS[..i] ==>
                  best[key] == worst && values[key] == Define(key).default && sources[key] == GLOBAL
    {
      KeysAreTheRegistry(KEYS[i]);
      assert KEYS[..i + 1] == KEYS[..i] + [KEYS[i]];
      best := best[KEYS[i] := worst];
      values := values[KEYS[i] := Define(KEYS[i]).default];
      sources := sources[KEYS[i] := GLOBAL];
    }
    assert KEYS[..|KEYS|] == KEYS;
    forall key
      ensures key in KEYS <==> Registered(key)
    {
      KeysAreTheRegistry(key);
    }
  }

  ghost predicate OncePerScope(os: seq<Override>)
  {
    forall i, j :: 0 <= i < j < |os| ==> os[i].key != os[j].key || os[i].scope != os[j].scope
  }

  /** When each key appears at most once a scope, the order of the list does not matter. */
  lemma {:induction false} OrderIsIrrelevant(key: Key, chain: seq<Scope>, os: seq<Override>, other: seq<Override>)
    requires Registered(key) && OncePerScope(os) && forall o :: o in os <==> o in other
    requires OncePerScope(other)
    ensures Effective(key, chain, os) == Effective(key, chain, other)
  {
    if chain != [] {
      assert FirstFor(os, key, chain[0]) == FirstFor(other, key, chain[0]);
      OrderIsIrrelevant(key, chain[1..], os, other);
    }
  }
}
