/** What the ranking of the search means in the rows' own prices and rooms: which rows are
    shown, in which order, and what is left out. */
module SearchOrder {
  import opened Common
  import opened PropertySearch

  /** What a row costs in pesos. */
  function Pesos(p: Property, usdArs: real): real { if p.currency == "USD" then p.price * usdArs else p.price }

  /** How far a row's rooms are from those asked for; an unknown count is none. */
  function RoomsOff(p: Property, wanted: int): int {
    var rooms := match p.rooms case Some(n) => n case None => 0;
    if rooms < wanted then wanted - rooms else rooms - wanted
  }

  /** A budget in a currency was given, so the rows have one currency. */
  predicate OneCurrency(f: SearchFilters) {
    f.maxPrice.Some? && f.maxPrice.value != 0.0 && f.currency.Some? && f.currency.value != ""
  }

  predicate NoDearer(f: SearchFilters, usdArs: real, p: Property, q: Property) {
    if OneCurrency(f) then p.price <= q.price else Pesos(p, usdArs) <= Pesos(q, usdArs)
  }

  /** All matching rows are ranked: there are not too many, or the database ranks them. */
  ghost predicate AllRanked(table: Table, tenant: Id, f: SearchFilters, a: Attempt) {
    |Matching(table, tenant, f, a)| <= 100 || (OneCurrency(f) && a.includeRooms)
  }

  lemma LeqIsNoDearer(f: SearchFilters, a: Attempt, usdArs: real, p: Property, q: Property)
    requires a.includeRooms && Leq(RankingFor(f, a, usdArs), p, q)
    ensures NoDearer(f, usdArs, p, q)
  {
  }

  /** With rooms kept, the rows shown are the cheapest that match, cheapest first: by price
      where a currency is given, else by what they cost in pesos. */
  lemma CheapestFirst(s: seq<Property>, table: Table, tenant: Id, f: SearchFilters, a: Attempt, usdArs: real)
    requires IsQueryAnswer(s, table, tenant, f, a, usdArs) && a.includeRooms
    ensures forall i, j :: 0 <= i < j < |s| ==> NoDearer(f, usdArs, s[i], s[j])
    ensures AllRanked(table, tenant, f, a) ==>
      forall p, q :: p in Matching(table, tenant, f, a) && p !in s && q in s ==> NoDearer(f, usdArs, q, p)
  {
    QueryAnswersBest(s, table, tenant, f, a, usdArs);
    forall i, j | 0 <= i < j < |s| ensures NoDearer(f, usdArs, s[i], s[j]) {
      LeqIsNoDearer(f, a, usdArs, s[i], s[j]);
    }
    if AllRanked(table, tenant, f, a) {
      forall p, q | p in Matching(table, tenant, f, a) && p !in s && q in s ensures NoDearer(f, usdArs, q, p) {
        LeqIsNoDearer(f, a, usdArs, q, p);
      }
    }
  }

  /** First by how far the rooms are off, then by price. */
  predicate NearerOrNoDearer(f: SearchFilters, usdArs: real, p: Property, q: Property)
    requires f.minRooms.Some?
  {
    var wanted := f.minRooms.value;
    RoomsOff(p, wanted) < RoomsOff(q, wanted)
    || (RoomsOff(p, wanted) == RoomsOff(q, wanted) && NoDearer(f, usdArs, p, q))
  }

  lemma LeqIsNearer(f: SearchFilters, a: Attempt, usdArs: real, p: Property, q: Property)
    requires f.minRooms.Some? && !a.includeRooms && Leq(RankingFor(f, a, usdArs), p, q)
    ensures NearerOrNoDearer(f, usdArs, p, q)
  {
    var k := RankingFor(f, a, usdArs);
    assert RoomDistance(k, p) == RoomsOff(p, f.minRooms.value) && RoomDistance(k, q) == RoomsOff(q, f.minRooms.value);
  }

  /** With rooms given up, the rows shown are the ones nearest in rooms, nearest first,
      and of those equally near the cheapest. */
  lemma NearestFirst(s: seq<Property>, table: Table, tenant: Id, f: SearchFilters, a: Attempt, usdArs: real)
    requires IsQueryAnswer(s, table, tenant, f, a, usdArs) && !a.includeRooms && f.minRooms.Some?
    ensures forall i, j :: 0 <= i < j < |s| ==> NearerOrNoDearer(f, usdArs, s[i], s[j])
    ensures |Matching(table, tenant, f, a)| <= 100 ==>
      forall p, q :: p in Matching(table, tenant, f, a) && p !in s && q in s ==> NearerOrNoDearer(f, usdArs, q, p)
  {
    QueryAnswersBest(s, table, tenant, f, a, usdArs);
    forall i, j | 0 <= i < j < |s| ensures NearerOrNoDearer(f, usdArs, s[i], s[j]) {
      LeqIsNearer(f, a, usdArs, s[i], s[j]);
    }
    if |Matching(table, tenant, f, a)| <= 100 {
      forall p, q | p in Matching(table, tenant, f, a) && p !in s && q in s ensures NearerOrNoDearer(f, usdArs, q, p) {
        LeqIsNearer(f, a, usdArs, q, p);
      }
    }
  }

  // ----- the whole search -----

  /** The attempt behind an answer. */
  lemma AnsweringAttempt(o: SearchOutcome, table: Table, tenant: Id, f: SearchFilters, usdArs: real) returns (a: Attempt)
    requires IsSearchAnswer(o, table, tenant, f, usdArs) && o.properties != []
    ensures IsQueryAnswer(o.properties, table, tenant, f, a, usdArs) && a.relaxed == o.relaxed
    ensures o.relaxed == NotRelaxed ==> a == EXACT
    ensures o.relaxed == RelaxedPrice ==> a.includeRooms
    ensures o.relaxed == RelaxedRooms ==> !a.includeRooms && f.minRooms.Some?
    ensures o.relaxed == OverBudget ==> a.includeRooms || f.minRooms.Some?
  {
    var l := Ladder(f);
    var i :| 0 <= i < |l| && o.relaxed == l[i].relaxed && IsQueryAnswer(o.properties, table, tenant, f, l[i], usdArs);
    LadderOrder(f, i);
    a := l[i];
  }

  /** The row meets everything the lead asked for, field by field, the price with a
      tolerance of a tenth. */
  predicate Fits(tenant: Id, f: SearchFilters, p: Property) {
    && p.tenant == tenant && p.status == ACTIVE && p.operation == f.operation
    && (f.neighborhoods != [] ==> p.neighborhood in f.neighborhoods)
    && (OneCurrency(f) ==> p.currency == f.currency.value)
    && (f.garage == Some(true) ==> p.garage) && (f.petsAllowed == Some(true) ==> p.petsAllowed == Some(true))
    && (f.maxPrice.Some? && f.maxPrice.value != 0.0 ==> p.price <= 1.1 * f.maxPrice.value)
    && (f.minRooms == Some(1) ==> p.rooms == Some(1))
    && (f.minRooms.Some? && f.minRooms.value != 0 ==> p.rooms.Some? && p.rooms.value >= f.minRooms.value)
  }

  lemma FitsIsExact(tenant: Id, f: SearchFilters, p: Property)
    ensures Fits(tenant, f, p) <==> Matches(tenant, f, EXACT, p)
  {
  }

  lemma ExactWhenSomeFits(o: SearchOutcome, table: Table, tenant: Id, f: SearchFilters, usdArs: real, p: Property)
    requires IsSearchAnswer(o, table, tenant, f, usdArs) && p in table && Fits(tenant, f, p)
    ensures o.properties != [] && o.relaxed == NotRelaxed
  {
    FitsIsExact(tenant, f, p);
    SearchIsComplete(o, table, tenant, f, usdArs);
    assert MeetsHardFilters(tenant, f, p);
    LabelIsMildest(o, table, tenant, f, usdArs);
    assert Matches(tenant, f, Attempt(Some(1.1), true, NotRelaxed), p);
  }

  /** Whenever some row fits, the search shows rows that fit and says so, the cheapest
      first; one that fits and is left out is no cheaper than those shown. */
  lemma FittingRowsAreShown(o: SearchOutcome, table: Table, tenant: Id, f: SearchFilters, usdArs: real, p: Property)
    requires IsSearchAnswer(o, table, tenant, f, usdArs) && p in table && Fits(tenant, f, p)
    ensures o.properties != [] && o.relaxed == NotRelaxed && (forall q :: q in o.properties ==> Fits(tenant, f, q))
    ensures forall i, j :: 0 <= i < j < |o.properties| ==> NoDearer(f, usdArs, o.properties[i], o.properties[j])
    ensures p !in o.properties && AllRanked(table, tenant, f, EXACT) ==>
      |o.properties| == 3 && forall q :: q in o.properties ==> NoDearer(f, usdArs, q, p)
  {
    ExactWhenSomeFits(o, table, tenant, f, usdArs, p);
    var a := AnsweringAttempt(o, table, tenant, f, usdArs);
    FitsIsExact(tenant, f, p);
    forall q | q in o.properties ensures Fits(tenant, f, q) {
      QueryAnswersBest(o.properties, table, tenant, f, a, usdArs);
      FitsIsExact(tenant, f, q);
    }
    CheapestFirst(o.properties, table, tenant, f, a, usdArs);
    assert p in Matching(table, tenant, f, a);
    if p !in o.properties { LeftOutOfThree(o.properties, table, tenant, f, a, usdArs, p); }
  }

  lemma LeftOutOfThree(s: seq<Property>, table: Table, tenant: Id, f: SearchFilters, a: Attempt, usdArs: real, p: Property)
    requires IsQueryAnswer(s, table, tenant, f, a, usdArs) && p in Matching(table, tenant, f, a) && p !in s
    ensures |s| == 3
  {
    QueryAnswersBest(s, table, tenant, f, a, usdArs);
    var rows, shown := Matching(table, tenant, f, a), set q | q in s;
    DistinctCount(s);
    NoLarger(shown + {p}, rows);
  }

  /** Every row shown, whatever was relaxed, is an active one of the tenant with the
      operation asked for, in a zone asked for, priced in the budget's currency, with the
      garage asked for, and open to pets if that was asked. */
  lemma ShownSuits(o: SearchOutcome, table: Table, tenant: Id, f: SearchFilters, usdArs: real, p: Property)
    requires IsSearchAnswer(o, table, tenant, f, usdArs) && p in o.properties
    ensures p in table && p.tenant == tenant && p.status == ACTIVE && p.operation == f.operation
    ensures f.neighborhoods != [] ==> p.neighborhood in f.neighborhoods
    ensures OneCurrency(f) ==> p.currency == f.currency.value
    ensures (f.garage == Some(true) ==> p.garage) && (f.petsAllowed == Some(true) ==> p.petsAllowed == Some(true))
  {
    SearchIsComplete(o, table, tenant, f, usdArs);
  }

  /** An answer that gave up the rooms shows the nearest in rooms first. */
  lemma NearestRoomsAreShown(o: SearchOutcome, table: Table, tenant: Id, f: SearchFilters, usdArs: real)
    requires IsSearchAnswer(o, table, tenant, f, usdArs) && o.relaxed == RelaxedRooms
    ensures f.minRooms.Some?
    ensures forall i, j :: 0 <= i < j < |o.properties| ==>
      NearerOrNoDearer(f, usdArs, o.properties[i], o.properties[j])
  {
    assert o.properties != [];
    var a := AnsweringAttempt(o, table, tenant, f, usdArs);
    NearestFirst(o.properties, table, tenant, f, a, usdArs);
  }

  // ----- the teaser -----

  /** The row is one the teaser is about. */
  predicate IsOffered(table: Table, tenant: Id, operation: Operation, zones: seq<string>, p: Property) {
    p in table && p.tenant == tenant && p.status == ACTIVE && p.operation == operation && p.neighborhood in zones
  }

  lemma LeqIsPesos(usdArs: real, p: Property, q: Property)
    ensures Leq(TeaserRanking(usdArs), p, q) <==> Pesos(p, usdArs) <= Pesos(q, usdArs)
  {
  }

  lemma TeaserRowsAreOffered(table: Table, tenant: Id, operation: Operation, zones: seq<string>, p: Property)
    ensures p in TeaserRows(table, tenant, operation, zones) <==> IsOffered(table, tenant, operation, zones, p)
  {
  }

  /** The teaser's fichas ascend in pesos from one that costs no more than any active row of
      the operation and zones to one that costs no less. */
  lemma TeaserCoversPrices(s: seq<Property>, table: Table, tenant: Id, operation: Operation, zones: seq<string>, usdArs: real)
    requires CoversRange(TeaserRanking(usdArs), s, TeaserRows(table, tenant, operation, zones))
    ensures forall i, j :: 0 <= i < j < |s| ==> Pesos(s[i], usdArs) <= Pesos(s[j], usdArs)
    ensures forall p :: p in s ==> IsOffered(table, tenant, operation, zones, p)
    ensures forall p :: IsOffered(table, tenant, operation, zones, p) ==>
      s != [] && Pesos(s[0], usdArs) <= Pesos(p, usdArs) <= Pesos(s[|s| - 1], usdArs)
  {
    var k := TeaserRanking(usdArs);
    forall i, j | 0 <= i < j < |s| ensures Pesos(s[i], usdArs) <= Pesos(s[j], usdArs) {
      LeqIsPesos(usdArs, s[i], s[j]);
    }
    forall p ensures p in TeaserRows(table, tenant, operation, zones) <==> IsOffered(table, tenant, operation, zones, p) {
      TeaserRowsAreOffered(table, tenant, operation, zones, p);
    }
    forall p | IsOffered(table, tenant, operation, zones, p)
      ensures s != [] && Pesos(s[0], usdArs) <= Pesos(p, usdArs) <= Pesos(s[|s| - 1], usdArs)
    {
      LeqIsPesos(usdArs, s[0], p);
      LeqIsPesos(usdArs, p, s[|s| - 1]);
    }
  }

  /** With more than three rows the second ficha is in the middle: half of them at most cost
      less, and more than half cost no more. */
  lemma TeaserShowsTheMiddle(s: seq<Property>, rows: set<Property>, usdArs: real)
    requires CoversRange(TeaserRanking(usdArs), s, rows) && |rows| > 3
    ensures |s| == 3
    ensures |set p | p in rows && Pesos(p, usdArs) < Pesos(s[1], usdArs)| <= |rows| / 2
    ensures |rows| / 2 < |set p | p in rows && Pesos(p, usdArs) <= Pesos(s[1], usdArs)|
  {
    var k, m := TeaserRanking(usdArs), s[1];
    forall p ensures Leq(k, p, m) <==> Pesos(p, usdArs) <= Pesos(m, usdArs) {
      LeqIsPesos(usdArs, p, m);
    }
    forall p ensures !Leq(k, m, p) <==> Pesos(p, usdArs) < Pesos(m, usdArs) {
      LeqIsPesos(usdArs, m, p);
    }
    assert InTheMiddle(k, m, rows);
    assert (set p | p in rows && !Leq(k, m, p)) == set p | p in rows && Pesos(p, usdArs) < Pesos(m, usdArs);
    assert (set p | p in rows && Leq(k, p, m)) == set p | p in rows && Pesos(p, usdArs) <= Pesos(m, usdArs);
  }
}
