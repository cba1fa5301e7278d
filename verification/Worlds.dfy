/** Every table of properties has a world around it: answers that the contracts of the
    search service allow do exist, so what is proved of all worlds is about something. */
module Worlds {
  import opened Common
  import opened PropertySearch
  import opened Handlers

  lemma LeqTotal(k: Ranking, p: Property, q: Property, r: Property)
    ensures Leq(k, p, q) || Leq(k, q, p)
    ensures Leq(k, p, q) && Leq(k, q, r) ==> Leq(k, p, r)
  {
  }

  lemma {:induction false} FirstExists(k: Ranking, rows: set<Property>) returns (m: Property)
    requires rows != {}
    ensures m in rows && forall p :: p in rows ==> Leq(k, m, p)
    decreases rows
  {
    var p :| p in rows;
    var rest := rows - {p};
    if rest == {} {
      m := p;
      assert rows == {p};
    } else {
      var q := FirstExists(k, rest);
      m := if Leq(k, p, q) then p else q;
      forall r | r in rows ensures Leq(k, m, r) {
        LeqTotal(k, p, q, r);
        assert r == p || r in rest;
      }
    }
  }

  lemma {:induction false} SortedExists(k: Ranking, rows: set<Property>) returns (s: seq<Property>)
    ensures Sorted(k, s) && Distinct(s) && |s| == |rows| && forall p :: p in s <==> p in rows
    decreases rows
  {
    if rows == {} {
      s := [];
    } else {
      var m := FirstExists(k, rows);
      var rest := SortedExists(k, rows - {m});
      s := [m] + rest;
      assert forall i :: 0 < i < |s| ==> s[i] == rest[i - 1] && s[i] in rest;
    }
  }

  lemma QueryAnswerExists(table: Table, tenant: Id, f: SearchFilters, a: Attempt, usdArs: real) returns (s: seq<Property>)
    ensures IsQueryAnswer(s, table, tenant, f, a, usdArs)
  {
    var rows, k := Matching(table, tenant, f, a), RankingFor(f, a, usdArs);
    var sorted := SortedExists(k, rows);
    s := sorted[..Min(RESULT_LIMIT, |sorted|)];
    SortedPrefixIsTop(k, sorted, rows, RESULT_LIMIT);
  }

  lemma SearchAnswerExists(table: Table, tenant: Id, f: SearchFilters, usdArs: real) returns (o: SearchOutcome)
    ensures IsSearchAnswer(o, table, tenant, f, usdArs)
  {
    var l := Ladder(f);
    var i := 0;
    while i < |l| && Matching(table, tenant, f, l[i]) == {}
      invariant 0 <= i <= |l| && forall j :: 0 <= j < i ==> Matching(table, tenant, f, l[j]) == {}
    {
      i := i + 1;
    }
    if i < |l| {
      var s := QueryAnswerExists(table, tenant, f, l[i], usdArs);
      QueryAnswersBest(s, table, tenant, f, l[i], usdArs);
      o := SearchOutcome(s, l[i].relaxed);
    } else {
      var empty := f.neighborhoods != [] && !HasStock(table, tenant, f.neighborhoods, Some(f.operation));
      o := SearchOutcome([], if empty then EmptyZone else NotRelaxed);
    }
  }

  lemma TeaserExists(k: Ranking, rows: set<Property>) returns (s: seq<Property>)
    ensures CoversRange(k, s, rows)
  {
    var sorted := SortedExists(k, rows);
    s := PickPriceRange(sorted, RESULT_LIMIT);
    RangeCovered(k, sorted, rows);
  }

  ghost function SomeSearch(table: Table, tenant: Id, f: SearchFilters, usdArs: real): (o: SearchOutcome)
    ensures IsSearchAnswer(o, table, tenant, f, usdArs)
  {
    assert exists o :: IsSearchAnswer(o, table, tenant, f, usdArs) by {
      var o := SearchAnswerExists(table, tenant, f, usdArs);
    }
    var o :| IsSearchAnswer(o, table, tenant, f, usdArs);
    o
  }

  ghost function SomeTeaser(k: Ranking, rows: set<Property>): (s: seq<Property>)
    ensures CoversRange(k, s, rows)
  {
    assert exists s :: CoversRange(k, s, rows) by { var s := TeaserExists(k, rows); }
    var s :| CoversRange(k, s, rows);
    s
  }

  ghost function SomeFind(table: Table, id: Id): Option<Property> {
    if exists p :: p in table && p.id == id then
      var p :| p in table && p.id == id;
      Some(p)
    else None
  }

  /** Around any table keyed by id. */
  lemma EveryTableHasAWorld(table: Table, tenant: Id, usdArs: real)
    requires KeyedById(table)
    ensures exists w: World :: w.table == table && w.tenant == tenant && w.usdArs == usdArs && w.Valid()
  {
    var w := World(
      table, tenant, usdArs, (f: SearchFilters) => SomeSearch(table, tenant, f, usdArs),
      (op: Operation, zones: seq<string>) => SomeTeaser(TeaserRanking(usdArs), TeaserRows(table, tenant, op, zones)),
      (op: Option<Operation>) => [], (z: string) => [], (id: Id) => SomeFind(table, id));
    assert w.Valid();
  }
}
