/** The property search: hard filters, the ladder of relaxations with its labels, the
    ranking of the fichas and the teaser that covers the price range. Prices and price
    factors are exact reals. */
module PropertySearch {
  import opened Common

  datatype Operation = SALE | RENT | TEMP_RENT

  datatype Status = ACTIVE | RESERVED | SOLD_OR_RENTED | PAUSED

  type Id = nat

  datatype Property = Property(
    id: Id, tenant: Id, status: Status, operation: Operation, price: real, currency: string,
    neighborhood: string, rooms: Option<int>, garage: bool, petsAllowed: Option<bool>)

  /** The rows of the property table; ids are its key. */
  type Table = set<Property>

  ghost predicate KeyedById(table: Table) {
    forall p, q :: p in table && q in table && p.id == q.id ==> p == q
  }

  datatype SearchFilters = SearchFilters(
    operation: Operation, neighborhoods: seq<string>, maxPrice: Option<real>, currency: Option<string>,
    minRooms: Option<int>, garage: Option<bool>, petsAllowed: Option<bool>, priceFlexible: bool)

  datatype Relaxed = NotRelaxed | RelaxedRooms | RelaxedPrice | OverBudget | EmptyZone

  datatype SearchOutcome = SearchOutcome(properties: seq<Property>, relaxed: Relaxed)

  const RESULT_LIMIT: nat := 3
  const PRICE_TOLERANCE := 1.1
  const PRICE_RELAX_CAP := 1.25
  const PRICE_RELAX_CAP_FLEXIBLE := 1.5
  const CANDIDATE_LIMIT: nat := 100

  datatype Attempt = Attempt(priceFactor: Option<real>, includeRooms: bool, relaxed: Relaxed)

  // An absent or zero budget, room count or currency counts as not given.

  predicate HasBudget(f: SearchFilters) { f.maxPrice.Some? && f.maxPrice.value != 0.0 }

  predicate AsksRooms(f: SearchFilters) { f.minRooms.Some? && f.minRooms.value != 0 }

  predicate CurrencyPinned(f: SearchFilters) {
    HasBudget(f) && f.currency.Some? && f.currency.value != ""
  }

  // ----- which rows an attempt lets through -----

  predicate InZone(tenant: Id, zones: seq<string>, operation: Option<Operation>, p: Property) {
    && p.tenant == tenant && p.status == ACTIVE && p.neighborhood in zones
    && (operation.Some? ==> p.operation == operation.value)
  }

  /** The filters no attempt gives up. */
  predicate MeetsHardFilters(tenant: Id, f: SearchFilters, p: Property) {
    && p.tenant == tenant && p.status == ACTIVE && p.operation == f.operation
    && (f.neighborhoods != [] ==> p.neighborhood in f.neighborhoods)
    && (CurrencyPinned(f) ==> p.currency == f.currency.value)
    && (f.garage == Some(true) ==> p.garage)
    && (f.petsAllowed == Some(true) ==> p.petsAllowed == Some(true))
  }

  /** One room asked for means exactly one; more is a floor. A row without a room
      count meets no request. */
  predicate MeetsRooms(f: SearchFilters, p: Property) {
    AsksRooms(f) ==>
      && p.rooms.Some?
      && if f.minRooms.value == 1 then p.rooms.value == 1 else p.rooms.value >= f.minRooms.value
  }

  predicate Within(factor: real, f: SearchFilters, p: Property) {
    HasBudget(f) ==> p.price <= f.maxPrice.value * factor
  }

  predicate Matches(tenant: Id, f: SearchFilters, a: Attempt, p: Property) {
    && MeetsHardFilters(tenant, f, p)
    && (a.priceFactor.Some? ==> Within(a.priceFactor.value, f, p))
    && (a.includeRooms ==> MeetsRooms(f, p))
  }

  function Matching(table: Table, tenant: Id, f: SearchFilters, a: Attempt): set<Property> {
    set p | p in table && Matches(tenant, f, a, p)
  }

  // ----- ranking -----

  /** By closeness to a room count first when that is what was given up, then by price,
      converted to pesos unless one currency is pinned. */
  datatype Ranking = Ranking(roomsTarget: Option<int>, pinned: bool, usdArs: real)

  function RankingFor(f: SearchFilters, a: Attempt, usdArs: real): Ranking {
    Ranking(if a.includeRooms then None else f.minRooms, CurrencyPinned(f), usdArs)
  }

  function RoomDistance(k: Ranking, p: Property): nat {
    if k.roomsTarget.None? then 0
    else
      var rooms := if p.rooms.Some? then p.rooms.value else 0;
      if rooms >= k.roomsTarget.value then rooms - k.roomsTarget.value else k.roomsTarget.value - rooms
  }

  function ComparablePrice(k: Ranking, p: Property): real {
    if !k.pinned && p.currency == "USD" then p.price * k.usdArs else p.price
  }

  predicate Leq(k: Ranking, p: Property, q: Property) {
    || RoomDistance(k, p) < RoomDistance(k, q)
    || (RoomDistance(k, p) == RoomDistance(k, q) && ComparablePrice(k, p) <= ComparablePrice(k, q))
  }

  predicate Sorted(k: Ranking, s: seq<Property>) {
    forall i, j :: 0 <= i < j < |s| ==> Leq(k, s[i], s[j])
  }

  /** The best `n` rows of `rows` in order: nothing left out ranks strictly before
      anything taken. */
  predicate IsTop(k: Ranking, s: seq<Property>, rows: set<Property>, n: nat) {
    && |s| == Min(n, |rows|) && Distinct(s) && Sorted(k, s)
    && (forall p :: p in s ==> p in rows)
    && (forall p, q :: p in rows && p !in s && q in s ==> Leq(k, q, p))
  }

  /** What a query may answer. Beyond `CANDIDATE_LIMIT` matches, unless the database
      sorts, the rows are the best of some candidates. */
  ghost predicate IsQueryAnswer(s: seq<Property>, table: Table, tenant: Id, f: SearchFilters, a: Attempt, usdArs: real) {
    var rows := Matching(table, tenant, f, a);
    var k := RankingFor(f, a, usdArs);
    exists candidates {:trigger IsTop(k, s, candidates, RESULT_LIMIT)} :: candidates <= rows
      && |candidates| >= Min(|rows|, CANDIDATE_LIMIT)
      && (SortsInDatabase(f, a) ==> candidates == rows)
      && IsTop(k, s, candidates, RESULT_LIMIT)
  }

  predicate SortsInDatabase(f: SearchFilters, a: Attempt) {
    CurrencyPinned(f) && (a.includeRooms || f.minRooms.None?)
  }

  lemma SubsetOfEqualSize(small: set<Property>, big: set<Property>)
    requires small <= big && |small| >= |big|
    ensures small == big
  {
    assert |big - small| == |big| - |small|;
  }

  /** Up to `CANDIDATE_LIMIT` matches, both ways of running a query answer the best rows
      of all the matches. */
  lemma QueryAnswersBest(s: seq<Property>, table: Table, tenant: Id, f: SearchFilters, a: Attempt, usdArs: real)
    requires IsQueryAnswer(s, table, tenant, f, a, usdArs)
    ensures var rows := Matching(table, tenant, f, a);
      && |s| == Min(RESULT_LIMIT, |rows|) && Distinct(s) && Sorted(RankingFor(f, a, usdArs), s)
      && (forall p :: p in s ==> p in rows)
      && (SortsInDatabase(f, a) || |rows| <= CANDIDATE_LIMIT ==>
            IsTop(RankingFor(f, a, usdArs), s, rows, RESULT_LIMIT))
  {
    var rows := Matching(table, tenant, f, a);
    var k := RankingFor(f, a, usdArs);
    var candidates :| candidates <= rows && |candidates| >= Min(|rows|, CANDIDATE_LIMIT)
      && (SortsInDatabase(f, a) ==> candidates == rows) && IsTop(k, s, candidates, RESULT_LIMIT);
    assert |rows - candidates| == |rows| - |candidates|;
    if |rows| <= CANDIDATE_LIMIT { SubsetOfEqualSize(candidates, rows); }
  }

  /** Ties apart, the best rows are determined: any two answers agree rank by rank. */
  lemma TopRanksAgree(k: Ranking, s: seq<Property>, t: seq<Property>, rows: set<Property>, n: nat, i: nat)
    requires IsTop(k, s, rows, n) && IsTop(k, t, rows, n) && i < |s|
    ensures Leq(k, s[i], t[i]) && Leq(k, t[i], s[i])
  {
    if !Leq(k, t[i], s[i]) { TopRankNotEarlier(k, s, t, rows, n, i); }
    if !Leq(k, s[i], t[i]) { TopRankNotEarlier(k, t, s, rows, n, i); }
  }

  lemma TopRankNotEarlier(k: Ranking, s: seq<Property>, t: seq<Property>, rows: set<Property>, n: nat, i: nat)
    requires IsTop(k, s, rows, n) && IsTop(k, t, rows, n) && i < |s|
    ensures Leq(k, t[i], s[i])
  {
    if !Leq(k, t[i], s[i]) {
      var mine, theirs := s[..i + 1], t[..i];
      forall p | p in mine ensures p in theirs {
        var j :| 0 <= j <= i && s[j] == p;
        assert !Leq(k, t[i], p);
        assert p in s && t[i] in t;
        var m :| 0 <= m < |t| && t[m] == p;
        assert m < i;
        assert theirs[m] == p;
      }
      Pigeonhole(mine, theirs);
    }
  }

  // ----- running a query -----

  /** Some of the rows, in no particular order. */
  method FindMany(rows: set<Property>, take: nat) returns (s: seq<Property>)
    ensures |s| == Min(take, |rows|) && Distinct(s) && forall p :: p in s ==> p in rows
  {
    s := [];
    var left := rows;
    while |s| < take && left != {}
      invariant left <= rows && |s| + |left| == |rows| && |s| <= take
      invariant Distinct(s) && forall p :: p in s ==> p in rows && p !in left
      decreases left
    {
      var p :| p in left;
      s := s + [p];
      left := left - {p};
    }
    assert |s| < take ==> |left| == 0;
  }

  /** One comparison sort, whose order the database's and the in-memory one share. */
  method SortBy(k: Ranking, s: seq<Property>) returns (t: seq<Property>)
    ensures Sorted(k, t) && multiset(t) == multiset(s)
  {
    t := [];
    for n := 0 to |s|
      invariant Sorted(k, t) && multiset(t) == multiset(s[..n])
    {
      var at := 0;
      while at < |t| && Leq(k, t[at], s[n])
        invariant 0 <= at <= |t| && forall i :: 0 <= i < at ==> Leq(k, t[i], s[n])
      {
        at := at + 1;
      }
      InsertSorted(k, t, at, s[n]);
      t := t[..at] + [s[n]] + t[at..];
      assert s[..n + 1] == s[..n] + [s[n]];
    }
    assert s[..|s|] == s;
  }

  lemma InsertSorted(k: Ranking, t: seq<Property>, at: nat, p: Property)
    requires Sorted(k, t) && at <= |t|
    requires forall i :: 0 <= i < at ==> Leq(k, t[i], p)
    requires at < |t| ==> !Leq(k, t[at], p)
    ensures Sorted(k, t[..at] + [p] + t[at..])
    ensures multiset(t[..at] + [p] + t[at..]) == multiset(t) + multiset{p}
  {
    assert t == t[..at] + t[at..];
    var u := t[..at] + [p] + t[at..];
    forall i, j | 0 <= i < j < |u| ensures Leq(k, u[i], u[j]) {
      if j == at {
      } else if i == at {
        assert u[j] == t[j - 1] && (j - 1 == at || Leq(k, t[at], t[j - 1]));
      }
    }
  }

  lemma SortedPrefixIsTop(k: Ranking, s: seq<Property>, rows: set<Property>, n: nat)
    requires Sorted(k, s) && Distinct(s) && |s| == |rows| && forall p :: p in s ==> p in rows
    ensures IsTop(k, s[..Min(n, |s|)], rows, n)
  {
    var t := s[..Min(n, |s|)];
    DistinctCount(s);
    var all := set p | p in s;
    SubsetOfEqualSize(all, rows);
    forall p, q | p in rows && p !in t && q in t ensures Leq(k, q, p) {
      assert p in all;
      var j :| 0 <= j < |s| && s[j] == p;
      var i :| 0 <= i < |t| && t[i] == q;
      assert forall x :: 0 <= x < |t| ==> s[x] in t;
      assert s[i] == q;
    }
  }

  lemma SameElements<T>(s: seq<T>, t: seq<T>)
    requires multiset(s) == multiset(t) && Distinct(s)
    ensures |s| == |t| && Distinct(t) && forall x :: x in t <==> x in s
  {
    assert |multiset(s)| == |s| && |multiset(t)| == |t|;
    forall x ensures x in t <==> x in s {
      assert x in t <==> x in multiset(t);
      assert x in s <==> x in multiset(s);
    }
    forall i, j | 0 <= i < j < |t| ensures t[i] != t[j] {
      if t[i] == t[j] {
        TwiceCounted(t, i, j);
        OnceCounted(s, t[i]);
      }
    }
  }

  lemma TwiceCounted<T>(t: seq<T>, i: nat, j: nat)
    requires i < j < |t| && t[i] == t[j]
    ensures multiset(t)[t[i]] >= 2
  {
    assert t == t[..j] + [t[j]] + t[j + 1..];
    assert t[i] == t[..j][i];
    assert t[i] in multiset(t[..j]);
  }

  lemma {:induction false} OnceCounted<T>(s: seq<T>, x: T)
    requires Distinct(s)
    ensures multiset(s)[x] <= 1
    decreases |s|
  {
    if s != [] {
      var front := s[..|s| - 1];
      OnceCounted(front, x);
      assert s == front + [s[|s| - 1]];
      if x == s[|s| - 1] {
        assert x !in front;
        assert x !in multiset(front);
      }
    }
  }

  method Query(table: Table, tenant: Id, f: SearchFilters, a: Attempt, usdArs: real) returns (s: seq<Property>)
    ensures IsQueryAnswer(s, table, tenant, f, a, usdArs)
  {
    var rows := Matching(table, tenant, f, a);
    var k := RankingFor(f, a, usdArs);
    var take := if SortsInDatabase(f, a) then |rows| else CANDIDATE_LIMIT;
    var candidates := FindMany(rows, take);
    var sorted := SortBy(k, candidates);
    s := sorted[..Min(RESULT_LIMIT, |sorted|)];
    ghost var chosen := set p | p in candidates;
    DistinctCount(candidates);
    SameElements(candidates, sorted);
    SortedPrefixIsTop(k, sorted, chosen, RESULT_LIMIT);
    if SortsInDatabase(f, a) { SubsetOfEqualSize(chosen, rows); }
  }

  // ----- the ladder -----

  /** The attempts in the order they are made. */
  function Ladder(f: SearchFilters): seq<Attempt> {
    [Attempt(Some(PRICE_TOLERANCE), true, NotRelaxed)]
    + (if HasBudget(f) then [Attempt(Some(PRICE_RELAX_CAP), true, RelaxedPrice)] else [])
    + (if HasBudget(f) && f.priceFlexible then [Attempt(Some(PRICE_RELAX_CAP_FLEXIBLE), true, RelaxedPrice)] else [])
    + (if AsksRooms(f) then [Attempt(if HasBudget(f) then Some(PRICE_RELAX_CAP) else None, false, RelaxedRooms)] else [])
    + (if HasBudget(f) then [Attempt(None, true, OverBudget)] else [])
    + (if HasBudget(f) && AsksRooms(f) then [Attempt(None, false, OverBudget)] else [])
  }

  predicate HasStock(table: Table, tenant: Id, zones: seq<string>, operation: Option<Operation>) {
    exists p :: p in table && InZone(tenant, zones, operation, p)
  }

  /** What `search` may return: the answer of the first attempt that lets a row through,
      or nothing and the reason. */
  ghost predicate IsSearchAnswer(o: SearchOutcome, table: Table, tenant: Id, f: SearchFilters, usdArs: real) {
    var ladder := Ladder(f);
    if o.properties != [] then
      exists i {:trigger ladder[i]} :: 0 <= i < |ladder| && o.relaxed == ladder[i].relaxed
        && IsQueryAnswer(o.properties, table, tenant, f, ladder[i], usdArs)
        && forall j :: 0 <= j < i ==> Matching(table, tenant, f, ladder[j]) == {}
    else
      && (forall j :: 0 <= j < |ladder| ==> Matching(table, tenant, f, ladder[j]) == {})
      && o.relaxed == if f.neighborhoods != [] && !HasStock(table, tenant, f.neighborhoods, Some(f.operation))
                      then EmptyZone else NotRelaxed
  }

  method HasStockInZone(table: Table, tenant: Id, zones: seq<string>, operation: Option<Operation>) returns (r: bool)
    ensures r <==> zones == [] || HasStock(table, tenant, zones, operation)
  {
    if zones == [] { return true; }
    var rows := set p | p in table && InZone(tenant, zones, operation, p);
    r := |rows| > 0;
    if r {
      ghost var p :| p in rows;
      assert InZone(tenant, zones, operation, p);
    } else {
      assert forall p :: p in table && InZone(tenant, zones, operation, p) ==> p in rows;
    }
  }

  method Search(table: Table, tenant: Id, f: SearchFilters, usdArs: real) returns (o: SearchOutcome)
    ensures IsSearchAnswer(o, table, tenant, f, usdArs)
  {
    var attempts := [Attempt(Some(PRICE_TOLERANCE), true, NotRelaxed)];
    if HasBudget(f) {
      attempts := attempts + [Attempt(Some(PRICE_RELAX_CAP), true, RelaxedPrice)];
      if f.priceFlexible {
        attempts := attempts + [Attempt(Some(PRICE_RELAX_CAP_FLEXIBLE), true, RelaxedPrice)];
      }
    }
    if AsksRooms(f) {
      attempts := attempts + [Attempt(if HasBudget(f) then Some(PRICE_RELAX_CAP) else None, false, RelaxedRooms)];
    }
    if HasBudget(f) {
      attempts := attempts + [Attempt(None, true, OverBudget)];
      if AsksRooms(f) {
        attempts := attempts + [Attempt(None, false, OverBudget)];
      }
    }
    assert attempts == Ladder(f);
    for i := 0 to |attempts|
      invariant forall j :: 0 <= j < i ==> Matching(table, tenant, f, attempts[j]) == {}
    {
      var properties := Query(table, tenant, f, attempts[i], usdArs);
      QueryAnswersBest(properties, table, tenant, f, attempts[i], usdArs);
      if |properties| > 0 {
        return SearchOutcome(properties, attempts[i].relaxed);
      }
    }
    if |f.neighborhoods| > 0 {
      var zoneHasStock := HasStockInZone(table, tenant, f.neighborhoods, Some(f.operation));
      return SearchOutcome([], if zoneHasStock then NotRelaxed else EmptyZone);
    }
    return SearchOutcome([], NotRelaxed);
  }

  /** Some row meets the hard filters and what more is asked of rooms and price. */
  ghost predicate Exists(table: Table, tenant: Id, f: SearchFilters, factor: Option<real>, rooms: bool) {
    exists p :: p in table && Matches(tenant, f, Attempt(factor, rooms, NotRelaxed), p)
  }

  lemma MatchingIgnoresLabel(table: Table, tenant: Id, f: SearchFilters, a: Attempt)
    ensures Matching(table, tenant, f, a) != {} <==> Exists(table, tenant, f, a.priceFactor, a.includeRooms)
  {
    var rows := Matching(table, tenant, f, a);
    if rows != {} {
      var p :| p in rows;
      assert Matches(tenant, f, Attempt(a.priceFactor, a.includeRooms, NotRelaxed), p);
    }
    if Exists(table, tenant, f, a.priceFactor, a.includeRooms) {
      var p :| p in table && Matches(tenant, f, Attempt(a.priceFactor, a.includeRooms, NotRelaxed), p);
      assert p in rows;
    }
  }

  /** Nothing comes back only when no row meets the hard filters. */
  lemma SearchIsComplete(o: SearchOutcome, table: Table, tenant: Id, f: SearchFilters, usdArs: real)
    requires IsSearchAnswer(o, table, tenant, f, usdArs)
    ensures o.properties == [] <==> !exists p :: p in table && MeetsHardFilters(tenant, f, p)
    ensures forall p :: p in o.properties ==> p in table && MeetsHardFilters(tenant, f, p)
    ensures Distinct(o.properties) && |o.properties| <= RESULT_LIMIT
    ensures o.relaxed == EmptyZone ==>
      o.properties == [] && f.neighborhoods != [] && !HasStock(table, tenant, f.neighborhoods, Some(f.operation))
  {
    var ladder := Ladder(f);
    if o.properties == [] {
      var last := ladder[|ladder| - 1];
      assert Matching(table, tenant, f, last) == {};
      forall p | p in table ensures MeetsHardFilters(tenant, f, p) ==> p in Matching(table, tenant, f, last) {
      }
    } else {
      var i :| 0 <= i < |ladder| && o.relaxed == ladder[i].relaxed
        && IsQueryAnswer(o.properties, table, tenant, f, ladder[i], usdArs);
      QueryAnswersBest(o.properties, table, tenant, f, ladder[i], usdArs);
      assert o.properties[0] in o.properties;
      assert o.properties[0] in table && MeetsHardFilters(tenant, f, o.properties[0]);
    }
  }

  const EXACT := Attempt(Some(PRICE_TOLERANCE), true, NotRelaxed)
  const DEARER := Attempt(Some(PRICE_RELAX_CAP), true, RelaxedPrice)
  const MUCH_DEARER := Attempt(Some(PRICE_RELAX_CAP_FLEXIBLE), true, RelaxedPrice)
  const ANY_PRICE := Attempt(None, true, OverBudget)
  const ANYTHING := Attempt(None, false, OverBudget)

  function AnyRooms(f: SearchFilters): Attempt {
    Attempt(if HasBudget(f) then Some(PRICE_RELAX_CAP) else None, false, RelaxedRooms)
  }

  /** Where each attempt stands and what stands before it. */
  lemma LadderOrder(f: SearchFilters, i: nat)
    requires i < |Ladder(f)|
    ensures var l := Ladder(f); l[0] == EXACT && match l[i].relaxed
      case NotRelaxed => i == 0
      case RelaxedPrice => HasBudget(f) && 0 < i &&
        (l[i] == DEARER || (f.priceFlexible && l[i] == MUCH_DEARER && i == 2 && l[1] == DEARER))
      case RelaxedRooms => AsksRooms(f) && 0 < i && l[i] == AnyRooms(f)
        && (HasBudget(f) ==> 1 < i && l[1] == DEARER)
        && (HasBudget(f) && f.priceFlexible ==> 2 < i && l[2] == MUCH_DEARER)
      case OverBudget => HasBudget(f) && 1 < i && l[1] == DEARER
        && (f.priceFlexible ==> 2 < i && l[2] == MUCH_DEARER)
        && (AsksRooms(f) && l[i] == ANY_PRICE ==> l[i - 1] == AnyRooms(f))
        && (l[i] == ANY_PRICE || (AsksRooms(f) && l[i] == ANYTHING && l[i - 1] == ANY_PRICE && l[i - 2] == AnyRooms(f)))
      case EmptyZone => false
  {
    assert Ladder(f) ==
      match (HasBudget(f), f.priceFlexible, AsksRooms(f))
      case (false, _, false) => [EXACT]
      case (false, _, true) => [EXACT, AnyRooms(f)]
      case (true, false, false) => [EXACT, DEARER, ANY_PRICE]
      case (true, false, true) => [EXACT, DEARER, AnyRooms(f), ANY_PRICE, ANYTHING]
      case (true, true, false) => [EXACT, DEARER, MUCH_DEARER, ANY_PRICE]
      case (true, true, true) => [EXACT, DEARER, MUCH_DEARER, AnyRooms(f), ANY_PRICE, ANYTHING];
  }

  lemma NoneMatched(table: Table, tenant: Id, f: SearchFilters, a: Attempt)
    requires Matching(table, tenant, f, a) == {}
    ensures !Exists(table, tenant, f, a.priceFactor, a.includeRooms)
    ensures forall p :: p in table ==> !Matches(tenant, f, a, p)
  {
    MatchingIgnoresLabel(table, tenant, f, a);
    forall p | p in table ensures !Matches(tenant, f, a, p) {
      assert p !in Matching(table, tenant, f, a);
    }
  }

  /** The label is the mildest relaxation that lets some row through. */
  lemma LabelIsMildest(o: SearchOutcome, table: Table, tenant: Id, f: SearchFilters, usdArs: real)
    requires IsSearchAnswer(o, table, tenant, f, usdArs) && o.properties != []
    ensures o.relaxed ==
      if Exists(table, tenant, f, Some(1.1), true) then NotRelaxed
      else if HasBudget(f) && (Exists(table, tenant, f, Some(1.25), true)
                               || (f.priceFlexible && Exists(table, tenant, f, Some(1.5), true)))
      then RelaxedPrice
      else if AsksRooms(f) && Exists(table, tenant, f, if HasBudget(f) then Some(1.25) else None, false) then RelaxedRooms
      else OverBudget
  {
    var l := Ladder(f);
    var i :| 0 <= i < |l| && o.relaxed == l[i].relaxed
      && IsQueryAnswer(o.properties, table, tenant, f, l[i], usdArs)
      && forall j :: 0 <= j < i ==> Matching(table, tenant, f, l[j]) == {};
    QueryAnswersBest(o.properties, table, tenant, f, l[i], usdArs);
    LadderOrder(f, i);
    assert o.properties[0] in Matching(table, tenant, f, l[i]);
    MatchingIgnoresLabel(table, tenant, f, l[i]);
    forall j | 0 <= j < i ensures !Exists(table, tenant, f, l[j].priceFactor, l[j].includeRooms) {
      NoneMatched(table, tenant, f, l[j]);
    }
  }

  /** Each label says which attempt answered: what failed before it and what was shown. */
  lemma LabelTellsTheTruth(o: SearchOutcome, table: Table, tenant: Id, f: SearchFilters, usdArs: real)
    requires IsSearchAnswer(o, table, tenant, f, usdArs) && o.properties != []
    ensures match o.relaxed
      case NotRelaxed =>
        forall p :: p in o.properties ==> Within(1.1, f, p) && MeetsRooms(f, p)
      case RelaxedPrice =>
        && HasBudget(f) && !Exists(table, tenant, f, Some(1.1), true)
        && (forall p :: p in o.properties ==> MeetsRooms(f, p))
        && ((forall p :: p in o.properties ==> Within(1.25, f, p))
            || (f.priceFlexible && !Exists(table, tenant, f, Some(1.25), true)
                && forall p :: p in o.properties ==> Within(1.5, f, p)))
      case RelaxedRooms =>
        && AsksRooms(f) && !Exists(table, tenant, f, Some(1.1), true)
        && (f.priceFlexible ==> !Exists(table, tenant, f, Some(1.5), true))
        && (forall p :: p in o.properties ==> Within(1.25, f, p) && !MeetsRooms(f, p))
      case OverBudget =>
        && HasBudget(f)
        && (forall p :: p in o.properties ==> !Within(1.25, f, p))
        && (f.priceFlexible ==>
              forall p :: p in o.properties && MeetsRooms(f, p) ==> !Within(1.5, f, p))
        && (Exists(table, tenant, f, None, true) ==> forall p :: p in o.properties ==> MeetsRooms(f, p))
      case EmptyZone => false
  {
    var l := Ladder(f);
    var i :| 0 <= i < |l| && o.relaxed == l[i].relaxed
      && IsQueryAnswer(o.properties, table, tenant, f, l[i], usdArs)
      && forall j :: 0 <= j < i ==> Matching(table, tenant, f, l[j]) == {};
    QueryAnswersBest(o.properties, table, tenant, f, l[i], usdArs);
    LadderOrder(f, i);
    forall j | 0 <= j < i
      ensures !Exists(table, tenant, f, l[j].priceFactor, l[j].includeRooms)
      ensures forall p :: p in table ==> !Matches(tenant, f, l[j], p)
    {
      NoneMatched(table, tenant, f, l[j]);
    }
    assert forall p :: p in o.properties ==> p in table && Matches(tenant, f, l[i], p);
  }

  // ----- the teaser -----

  /** Cheapest, middle and dearest, or all of them when they are few. */
  function PickPriceRange(s: seq<Property>, limit: nat): seq<Property>
    requires limit >= 3
  {
    if |s| <= limit then s else [s[0], s[|s| / 2], s[|s| - 1]]
  }

  function TeaserRows(table: Table, tenant: Id, operation: Operation, zones: seq<string>): set<Property> {
    set p | p in table && InZone(tenant, zones, Some(operation), p)
  }

  /** Fichas that cover the price range of `rows`: different ones in price order, among
      them one no dearer and one no cheaper than any row, and of more than three rows the
      one in the middle. */
  ghost predicate CoversRange(k: Ranking, s: seq<Property>, rows: set<Property>) {
    && |s| == Min(RESULT_LIMIT, |rows|) && Distinct(s) && Sorted(k, s)
    && (forall p :: p in s ==> p in rows)
    && (forall p :: p in rows ==> s != [] && Leq(k, s[0], p) && Leq(k, p, s[|s| - 1]))
    && (|rows| > RESULT_LIMIT ==> InTheMiddle(k, s[1], rows))
  }

  /** Half of the rows at most rank before `m`, and more than half no later. */
  ghost predicate InTheMiddle(k: Ranking, m: Property, rows: set<Property>) {
    |set p | p in rows && !Leq(k, m, p)| <= |rows| / 2 < |set p | p in rows && Leq(k, p, m)|
  }

  lemma FewBetter(k: Ranking, s: seq<Property>, rows: set<Property>, h: nat)
    requires Sorted(k, s) && h < |s| && forall p :: p in s <==> p in rows
    ensures |set p | p in rows && !Leq(k, s[h], p)| <= h
  {
    var before := s[..h];
    var better, early := set p | p in rows && !Leq(k, s[h], p), set p | p in before;
    forall p | p in better ensures p in early {
      var i :| 0 <= i < |s| && s[i] == p;
      assert i < h;
      assert before[i] == p;
    }
    CountBound(before);
    NoLarger(better, early);
  }

  lemma ManyNoLater(k: Ranking, s: seq<Property>, rows: set<Property>, h: nat)
    requires Sorted(k, s) && Distinct(s) && h < |s| && forall p :: p in s <==> p in rows
    ensures |set p | p in rows && Leq(k, p, s[h])| > h
  {
    var upto := s[..h + 1];
    var noLater, late := set p | p in rows && Leq(k, p, s[h]), set p | p in upto;
    forall p | p in late ensures p in noLater {
      var i :| 0 <= i < |upto| && upto[i] == p;
      assert s[i] == p && p in s;
    }
    DistinctCount(upto);
    NoLarger(late, noLater);
  }

  lemma NoLarger<T>(small: set<T>, big: set<T>)
    requires small <= big
    ensures |small| <= |big|
  {
    assert big == small + (big - small);
  }

  lemma RangeCovered(k: Ranking, s: seq<Property>, rows: set<Property>)
    requires Sorted(k, s) && Distinct(s) && |s| == |rows| && forall p :: p in s <==> p in rows
    ensures CoversRange(k, PickPriceRange(s, RESULT_LIMIT), rows)
  {
    forall p | p in rows ensures s != [] && Leq(k, s[0], p) && Leq(k, p, s[|s| - 1]) {
      var i :| 0 <= i < |s| && s[i] == p;
    }
    if s != [] {
      FewBetter(k, s, rows, |s| / 2);
      ManyNoLater(k, s, rows, |s| / 2);
    }
  }

  function TeaserRanking(usdArs: real): Ranking { Ranking(None, false, usdArs) }

  method TeaserSearch(table: Table, tenant: Id, operation: Operation, zones: seq<string>, usdArs: real)
    returns (s: seq<Property>)
    ensures CoversRange(TeaserRanking(usdArs), s, TeaserRows(table, tenant, operation, zones))
  {
    var rows := TeaserRows(table, tenant, operation, zones);
    var k := TeaserRanking(usdArs);
    var all := FindMany(rows, |rows|);
    var sorted := SortBy(k, all);
    SameElements(all, sorted);
    s := PickPriceRange(sorted, RESULT_LIMIT);
    ghost var seen := set p | p in all;
    DistinctCount(all);
    SubsetOfEqualSize(seen, rows);
    assert forall p :: p in rows ==> p in seen;
    RangeCovered(k, sorted, rows);
  }
}
