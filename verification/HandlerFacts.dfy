/** What every handler's result satisfies, whatever the turn brings. */
module HandlerFacts {
  import opened Common
  import opened PropertySearch
  import opened ZoneText
  import opened Lead
  import opened Handlers
  import opened Engine

  // ----- what a list of messages contains -----

  /** How often it greets and asks the name, the commercial questions and the numbered
      fichas in order, the zones of the last offer, if any, and how often it calls a zone
      empty. */
  datatype Summary = Summary(
    greetings: nat, nameAsks: nat, asked: seq<Field>, shown: seq<(nat, Id)>, offered: Option<set<string>>, emptyZones: nat)

  const NOTHING := Summary(0, 0, [], [], None, 0)

  function ZonesOf(zones: seq<string>): set<string> { set z | z in zones }

  predicate AsksName(tag: Tag) { tag.NameQuestion? || tag == StockAlertOffer(true) }

  predicate OffersZones(tag: Tag) { tag.ZoneSuggestion? || tag.DelegatedZones? || tag.ZoneStillPending? }

  function AddTag(s: Summary, tag: Tag): Summary {
    if tag.Greeting? then s.(greetings := s.greetings + 1)
    else if AsksName(tag) then s.(nameAsks := s.nameAsks + 1)
    else if tag.CommercialQuestion? then s.(asked := s.asked + [tag.field])
    else if OffersZones(tag) then s.(offered := Some(ZonesOf(tag.zones)))
    else if tag == NoResults(EmptyZone) then s.(emptyZones := s.emptyZones + 1)
    else s
  }

  function Add(s: Summary, a: Action): Summary {
    if a.Ficha? then s.(shown := s.shown + [(a.number, a.property.id)]) else AddTag(s, a.tag)
  }

  function Sum(actions: seq<Action>): Summary {
    if actions == [] then NOTHING else Add(Sum(actions[..|actions| - 1]), actions[|actions| - 1])
  }

  lemma SumSnoc(a: seq<Action>, x: Action)
    ensures Sum(a + [x]) == Add(Sum(a), x)
  {
    assert (a + [x])[..|a|] == a;
  }

  lemma SumOne(x: Action)
    ensures Sum([x]) == Add(NOTHING, x)
  {
    assert [] + [x] == [x];
    SumSnoc([], x);
  }

  /** Rewording the first text without changing its tag. */
  lemma {:induction false} SumSameTag(x: Action, y: Action, tail: seq<Action>)
    requires x.Say? && y.Say? && x.tag == y.tag
    ensures Sum([x] + tail) == Sum([y] + tail)
    decreases |tail|
  {
    if tail == [] {
      SumOne(x);
      SumOne(y);
      assert [x] + tail == [x] && [y] + tail == [y];
    } else {
      var front, last := tail[..|tail| - 1], tail[|tail| - 1];
      SumSameTag(x, y, front);
      assert [x] + tail == ([x] + front) + [last] && [y] + tail == ([y] + front) + [last];
      SumSnoc([x] + front, last);
      SumSnoc([y] + front, last);
    }
  }

  lemma {:induction false} SumGreetingFirst(x: Action, tail: seq<Action>)
    requires x.Say? && x.tag.Greeting?
    ensures Sum([x] + tail) == Sum(tail).(greetings := Sum(tail).greetings + 1)
    decreases |tail|
  {
    if tail == [] {
      SumOne(x);
      assert [x] + tail == [x];
    } else {
      var front, last := tail[..|tail| - 1], tail[|tail| - 1];
      SumGreetingFirst(x, front);
      assert [x] + tail == ([x] + front) + [last] && tail == front + [last];
      SumSnoc([x] + front, last);
      SumSnoc(front, last);
    }
  }

  lemma {:induction false} SumQuietFirst(x: Action, tail: seq<Action>)
    requires x == Text(TimeoutApology)
    ensures Sum([x] + tail) == Sum(tail)
    decreases |tail|
  {
    if tail == [] {
      SumOne(x);
      assert [x] + tail == [x];
    } else {
      var front, last := tail[..|tail| - 1], tail[|tail| - 1];
      SumQuietFirst(x, front);
      assert [x] + tail == ([x] + front) + [last] && tail == front + [last];
      SumSnoc([x] + front, last);
      SumSnoc(front, last);
    }
  }

  function Numbered(ids: seq<Id>): seq<(nat, Id)> {
    if ids == [] then [] else Numbered(ids[..|ids| - 1]) + [(|ids|, ids[|ids| - 1])]
  }

  lemma NumberedSnoc(ids: seq<Id>, id: Id)
    ensures Numbered(ids + [id]) == Numbered(ids) + [(|ids| + 1, id)]
  {
    assert (ids + [id])[..|ids|] == ids;
  }

  lemma {:induction false} IdsLength(ps: seq<Property>)
    ensures |Ids(ps)| == |ps|
    decreases |ps|
  {
    if ps != [] { IdsLength(ps[..|ps| - 1]); }
  }

  lemma {:induction false} SumFichas(before: seq<Action>, ps: seq<Property>)
    ensures Sum(before + Fichas(ps)) == Sum(before).(shown := Sum(before).shown + Numbered(Ids(ps)))
    decreases |ps|
  {
    if ps == [] {
      assert before + Fichas(ps) == before;
      assert Sum(before).shown + [] == Sum(before).shown;
    } else {
      var front, p := ps[..|ps| - 1], ps[|ps| - 1];
      SumFichas(before, front);
      IdsLength(front);
      Regroup(before, Fichas(front), Ficha(|ps|, p));
      SumSnoc(before + Fichas(front), Ficha(|ps|, p));
      NumberedSnoc(Ids(front), p.id);
      Regroup(Sum(before).shown, Numbered(Ids(front)), (|ps|, p.id));
    }
  }

  lemma Regroup<T>(a: seq<T>, b: seq<T>, x: T)
    ensures a + (b + [x]) == (a + b) + [x]
  {
  }

  lemma {:induction false} NumberedAt(ids: seq<Id>)
    ensures |Numbered(ids)| == |ids| && forall k :: 0 <= k < |ids| ==> Numbered(ids)[k] == (k + 1, ids[k])
    decreases |ids|
  {
    if ids != [] { NumberedAt(ids[..|ids| - 1]); }
  }

  // ----- the facts -----

  predicate SameCore(f: Filters, g: Filters) {
    && f.operation == g.operation && f.maxPrice == g.maxPrice && f.currency == g.currency
    && f.minRooms == g.minRooms && f.garage == g.garage && f.petsAllowed == g.petsAllowed
    && f.notes == g.notes && f.priceMentionedAtTurn == g.priceMentionedAtTurn
  }

  predicate NoDuplicateZones(f: Filters) { Distinct(f.neighborhoods) && Distinct(f.offered) }

  /** Filters only lose zones, and what they offer is what the messages offer; without an
      offer it stays. An offer is always stored. */
  ghost predicate KeepsFilters(r: HandlerResult, f: Filters, s: Summary) {
    if r.filterUpdates.None? then s.offered.None?
    else
      var g := r.filterUpdates.value;
      && SameCore(g, f)
      && (forall z :: z in g.neighborhoods ==> z in f.neighborhoods)
      && (if s.offered.None? then g.offered == f.offered else s.offered.value == ZonesOf(g.offered))
      && (NoDuplicateZones(f) ==> NoDuplicateZones(g))
  }

  /** Fichas are shown exactly as recorded; nothing else records, but for results that
      are the ones already shown. */
  predicate RecordsWhatItShows(r: HandlerResult, lead: LeadRow, f: Filters, s: Summary) {
    match r.recorded
    case None => s.shown == []
    case Some(ids) =>
      && ids != [] && f.operation.Some? && r.filterUpdates.Some?
      && (s.shown == Numbered(ids) || (s.shown == [] && ids == lead.lastSearchIds))
  }

  /** Greeting and name question once at most, only if not done before, and marked
      exactly when done. */
  predicate AsksOnce(r: HandlerResult, lead: LeadRow, s: Summary) {
    && s.greetings == (if r.markGreeted && lead.greetedAt.None? then 1 else 0)
    && s.nameAsks == (if r.markNameAsked then 1 else 0)
    && (r.markNameAsked ==> ShouldAskName(lead))
  }

  /** The rows' commercial answers once the update is applied. */
  function AfterUpdate(c: Commercial, u: CommercialUpdate): Commercial { PersistCommercial(c, u, 0) }

  /** A commercial question is a new open one, recorded, within the limit, and only in
      commercial qualification; without one nothing is recorded. */
  predicate CommercialFacts(r: HandlerResult, lead: LeadRow, s: Summary) {
    var before := if r.entered then [] else lead.commercial.asked;
    && (r.entered ==> lead.state == SEARCH_MATCH && (r.nextState == COMMERCIAL_QUALIFICATION ==> s.asked != []))
    && (s.asked != [] ==>
          && |s.asked| == 1 && r.nextState == COMMERCIAL_QUALIFICATION
          && (r.entered || lead.state == COMMERCIAL_QUALIFICATION)
          && r.update.asked == Some(before + s.asked)
          && s.asked[0] !in before && |before| < MAX_COMMERCIAL_QUESTIONS
          && !Answered(AfterUpdate(lead.commercial, r.update), s.asked[0]))
    && (s.asked == [] ==> r.update.asked.None?)
    && (r.nextState == COMMERCIAL_QUALIFICATION && !r.entered ==> lead.state == COMMERCIAL_QUALIFICATION)
  }

  predicate ShowsState(state: ConversationState) { state == SEARCH_MATCH || state == COMMERCIAL_QUALIFICATION }

  predicate StateFacts(r: HandlerResult, lead: LeadRow, f: Filters) {
    && r.nextState != SCHEDULING && r.nextState != OPTED_OUT
    && (r.nextState == HUMAN_HANDOFF <==> r.proposed.Some?)
    && (ShowsState(r.nextState) ==> (r.filterUpdates.Some? && f.operation.Some?) || ShowsState(lead.state))
  }

  /** Searches run only where every zone has stock, so no zone is called empty. */
  ghost predicate SearchesLiveZones(r: HandlerResult, w: World, s: Summary) {
    && s.emptyZones == 0
    && (r.searched.Some? ==>
          forall z :: z in r.searched.value.1 ==> HasStock(w.table, w.tenant, [z], Some(r.searched.value.0)))
  }

  ghost predicate FactsOf(ctx: Ctx, f: Filters, r: HandlerResult, s: Summary) {
    && KeepsFilters(r, f, s) && RecordsWhatItShows(r, ctx.lead, f, s) && AsksOnce(r, ctx.lead, s)
    && CommercialFacts(r, ctx.lead, s) && StateFacts(r, ctx.lead, f) && SearchesLiveZones(r, ctx.world, s)
  }

  ghost predicate Facts(ctx: Ctx, f: Filters, r: HandlerResult) { FactsOf(ctx, f, r, Sum(r.actions)) }

  predicate Active(lead: LeadRow) {
    lead.state == GREETING || lead.state == QUALIFICATION || ShowsState(lead.state)
  }

  // ----- qualification -----

  lemma {:induction false} ZonesWithStockFacts(w: World, zones: seq<string>, op: Option<Operation>)
    ensures var kept := ZonesWithStock(w, zones, op);
      && (forall z :: z in kept <==> z in zones && HasStock(w.table, w.tenant, [z], op))
      && (Distinct(zones) ==> Distinct(kept))
    decreases |zones|
  {
    if zones != [] {
      var front, z := zones[..|zones| - 1], zones[|zones| - 1];
      ZonesWithStockFacts(w, front, op);
      assert zones == front + [z];
      if Distinct(zones) {
        assert Distinct(front) && z !in front;
        assert z !in ZonesWithStock(w, front, op);
      }
    }
  }

  lemma {:induction false} WithoutFacts(zones: seq<string>, others: seq<string>)
    ensures Without(zones, others) == [] ==> forall z :: z in zones ==> z in others
    decreases |zones|
  {
    if zones != [] {
      WithoutFacts(zones[..|zones| - 1], others);
      assert zones == zones[..|zones| - 1] + [zones[|zones| - 1]];
    }
  }

  /** One message that shows nothing, and nothing stored but filters. */
  lemma OneMessage(ctx: Ctx, f: Filters, tag: Tag, note: bool, next: ConversationState, updates: Option<Filters>)
    requires var s := AddTag(NOTHING, tag); s == NOTHING.(offered := s.offered)
    requires next == GREETING || next == QUALIFICATION || (ShowsState(next) && ShowsState(ctx.lead.state))
    requires next == COMMERCIAL_QUALIFICATION ==> ctx.lead.state == COMMERCIAL_QUALIFICATION
    requires KeepsFilters(Reply([Say(tag, note)], next, updates), f, AddTag(NOTHING, tag))
    ensures Facts(ctx, f, Reply([Say(tag, note)], next, updates))
  {
    SumOne(Say(tag, note));
  }

  lemma SuggestFacts(ctx: Ctx, f: Filters)
    requires ctx.world.Valid() && f.neighborhoods != []
    ensures Facts(ctx, f, SuggestAlternativeZones(ctx, f))
  {
    var r := SuggestAlternativeZones(ctx, f);
    ZonesWithStockFacts(ctx.world, ctx.world.adjacent(f.neighborhoods[0]), f.operation);
    OneMessage(ctx, f, r.actions[0].tag, false, QUALIFICATION, r.filterUpdates);
  }

  lemma AskMissingFacts(ctx: Ctx, f: Filters, note: bool)
    requires ctx.world.Valid()
    ensures Facts(ctx, f, AskMissingFilter(ctx, f, note))
  {
    var missing, zones := FirstMissingFilter(f), ctx.world.topZones(f.operation);
    if missing == MissingNeighborhood && ctx.lang.delegatesZone(ctx.text) && zones != [] {
      OneMessage(ctx, f, DelegatedZones(zones), false, QUALIFICATION, Some(f.(offered := zones)));
    } else if missing == MissingNeighborhood && f.offered != [] {
      OneMessage(ctx, f, ZoneStillPending(f.offered), false, QUALIFICATION, Some(f));
    } else {
      OneMessage(ctx, f, MissingFilterQuestion(missing), note, QUALIFICATION, Some(f));
    }
  }

  lemma SumClosed(before: seq<Action>, ps: seq<Property>, closing: Tag)
    requires Sum(before) == NOTHING && (closing == TeaserClosing || closing == SearchClosing)
    ensures Sum(before + Fichas(ps) + [Text(closing)]) == NOTHING.(shown := Numbered(Ids(ps)))
  {
    SumFichas(before, ps);
    assert [] + Numbered(Ids(ps)) == Numbered(Ids(ps));
    SumSnoc(before + Fichas(ps), Text(closing));
  }

  /** Texts before and after the fichas of `ps`, the last ones possibly asking the name. */
  lemma SumAround(before: seq<Action>, ps: seq<Property>, closing: Tag, asking: seq<Action>)
    requires Sum(before) == NOTHING && (closing == TeaserClosing || closing == SearchClosing)
    requires asking == [] || asking == [Text(NameQuestion)]
    ensures Sum(before + Fichas(ps) + [Text(closing)] + asking)
            == NOTHING.(shown := Numbered(Ids(ps)), nameAsks := |asking|)
  {
    SumClosed(before, ps, closing);
    var shown := before + Fichas(ps) + [Text(closing)];
    if asking == [] {
      assert shown + asking == shown;
    } else {
      SumSnoc(shown, Text(NameQuestion));
    }
  }

  ghost predicate AllLive(w: World, zones: seq<string>, op: Option<Operation>) {
    forall z :: z in zones ==> HasStock(w.table, w.tenant, [z], op)
  }

  /** Fichas shown, recorded and nothing else asked but the name. */
  lemma ShownFacts(ctx: Ctx, f: Filters, actions: seq<Action>, ids: seq<Id>, askName: bool)
    requires f.operation.Some? && AllLive(ctx.world, f.neighborhoods, f.operation) && ids != []
    requires askName ==> ShouldAskName(ctx.lead)
    requires Sum(actions) == NOTHING.(shown := Numbered(ids), nameAsks := if askName then 1 else 0)
    ensures Facts(ctx, f, Reply(actions, SEARCH_MATCH, Some(f)).(
      markNameAsked := askName, recorded := Some(ids), searched := Some((f.operation.value, f.neighborhoods))))
  {
  }

  lemma TeaserShowsSomething(w: World, op: Operation, zones: seq<string>)
    requires w.Valid() && zones != [] && AllLive(w, zones, Some(op))
    ensures w.teaser(op, zones) != []
  {
    var rows := TeaserRows(w.table, w.tenant, op, zones);
    assert CoversRange(TeaserRanking(w.usdArs), w.teaser(op, zones), rows);
    var z := zones[0];
    assert HasStock(w.table, w.tenant, [z], Some(op));
    var p :| p in w.table && InZone(w.tenant, [z], Some(op), p);
    assert p in rows;
  }

  lemma TeaserFacts(ctx: Ctx, f: Filters)
    requires ctx.world.Valid() && f.operation.Some? && f.neighborhoods != []
    requires AllLive(ctx.world, f.neighborhoods, f.operation)
    ensures Facts(ctx, f, TriggerTeaser(ctx, f))
  {
    var ps := ctx.world.teaser(f.operation.value, f.neighborhoods);
    TeaserShowsSomething(ctx.world, f.operation.value, f.neighborhoods);
    IdsLength(ps);
    SumOne(Text(TeaserIntro));
    SumAround([Text(TeaserIntro)], ps, TeaserClosing, Asking(ctx));
    ShownFacts(ctx, f, [Text(TeaserIntro)] + Fichas(ps) + [Text(TeaserClosing)] + Asking(ctx),
               Ids(ps), ShouldAskName(ctx.lead));
  }

  lemma ShowResultsFacts(ctx: Ctx, f: Filters, o: SearchOutcome)
    requires f.operation.Some? && AllLive(ctx.world, f.neighborhoods, f.operation)
    requires o.properties != [] && o.relaxed != EmptyZone
    ensures Facts(ctx, f, ShowResults(ctx, f, o).(searched := Some((f.operation.value, f.neighborhoods)),
                                                  recorded := Some(Ids(o.properties))))
  {
    var r := ShowResults(ctx, f, o).(searched := Some((f.operation.value, f.neighborhoods)),
                                     recorded := Some(Ids(o.properties)));
    IdsLength(o.properties);
    if ctx.lead.state == SEARCH_MATCH && o.relaxed == NotRelaxed && Ids(o.properties) == ctx.lead.lastSearchIds {
      SumOne(Text(SameResults));
    } else {
      SumResults(ctx, f, o);
      ShownFacts(ctx, f, r.actions, Ids(o.properties), ShouldAskName(ctx.lead));
    }
  }

  /** The quiet texts that open the results of a search. */
  function Opening(ctx: Ctx, relaxed: Relaxed): seq<Action> {
    (if ctx.lead.state != SEARCH_MATCH then [Text(UnderstandingEcho)] else [])
    + [Text(if relaxed == NotRelaxed then SearchIntro else NoResults(relaxed))]
  }

  lemma OpeningIsQuiet(ctx: Ctx, relaxed: Relaxed)
    requires relaxed != EmptyZone
    ensures Sum(Opening(ctx, relaxed)) == NOTHING
  {
    var intro := Text(if relaxed == NotRelaxed then SearchIntro else NoResults(relaxed));
    if ctx.lead.state != SEARCH_MATCH {
      SumOne(Text(UnderstandingEcho));
      SumSnoc([Text(UnderstandingEcho)], intro);
    } else {
      SumOne(intro);
      assert [] + [intro] == [intro];
    }
  }

  function Asking(ctx: Ctx): seq<Action> { if ShouldAskName(ctx.lead) then [Text(NameQuestion)] else [] }

  lemma SumResults(ctx: Ctx, f: Filters, o: SearchOutcome)
    requires o.relaxed != EmptyZone
    requires !(ctx.lead.state == SEARCH_MATCH && o.relaxed == NotRelaxed && Ids(o.properties) == ctx.lead.lastSearchIds)
    ensures Sum(ShowResults(ctx, f, o).actions)
            == NOTHING.(shown := Numbered(Ids(o.properties)), nameAsks := if ShouldAskName(ctx.lead) then 1 else 0)
  {
    OpeningIsQuiet(ctx, o.relaxed);
    assert ShowResults(ctx, f, o).actions
           == Opening(ctx, o.relaxed) + Fichas(o.properties) + [Text(SearchClosing)] + Asking(ctx);
    SumAround(Opening(ctx, o.relaxed), o.properties, SearchClosing, Asking(ctx));
  }

  /** One message in answer to a search that showed nothing. */
  lemma NothingShownFacts(ctx: Ctx, f: Filters, tag: Tag, askName: bool, u: CommercialUpdate)
    requires f.operation.Some? && AllLive(ctx.world, f.neighborhoods, f.operation) && u.asked.None?
    requires AddTag(NOTHING, tag) == NOTHING.(nameAsks := if askName then 1 else 0)
    requires askName ==> ShouldAskName(ctx.lead)
    ensures Facts(ctx, f, Reply([Text(tag)], SEARCH_MATCH, Some(f)).(
      markNameAsked := askName, update := u, searched := Some((f.operation.value, f.neighborhoods))))
  {
    SumOne(Text(tag));
  }

  lemma ExplainFacts(ctx: Ctx, f: Filters, relaxed: Relaxed)
    requires f.operation.Some? && AllLive(ctx.world, f.neighborhoods, f.operation) && relaxed != EmptyZone
    ensures Facts(ctx, f, ExplainNoResults(ctx, f, relaxed).(searched := Some((f.operation.value, f.neighborhoods))))
  {
    if relaxed != NotRelaxed || ctx.lead.commercial.wantsStockAlert {
      NothingShownFacts(ctx, f, NoResults(relaxed), false, NO_UPDATE);
    } else if !HasNewFilterData(ctx.e) && ctx.lang.accepts(ctx.text) {
      NothingShownFacts(ctx, f, StockAlertConfirmed, false, NO_UPDATE.(wantsStockAlert := true));
    } else {
      var askName := ShouldAskName(ctx.lead);
      NothingShownFacts(ctx, f, StockAlertOffer(askName), askName, NO_UPDATE);
    }
  }

  /** With stock in every zone the search never answers that a zone is empty. */
  lemma NoEmptyZone(w: World, sf: SearchFilters)
    requires w.Valid() && AllLive(w, sf.neighborhoods, Some(sf.operation))
    ensures w.search(sf).relaxed != EmptyZone
  {
    assert IsSearchAnswer(w.search(sf), w.table, w.tenant, sf, w.usdArs);
    SearchIsComplete(w.search(sf), w.table, w.tenant, sf, w.usdArs);
    if sf.neighborhoods != [] {
      var z := sf.neighborhoods[0];
      assert HasStock(w.table, w.tenant, [z], Some(sf.operation));
      var p :| p in w.table && InZone(w.tenant, [z], Some(sf.operation), p);
      assert InZone(w.tenant, sf.neighborhoods, Some(sf.operation), p);
    }
  }

  lemma SearchFacts(ctx: Ctx, f: Filters)
    requires ctx.world.Valid() && f.operation.Some? && AllLive(ctx.world, f.neighborhoods, f.operation)
    ensures Facts(ctx, f, TriggerSearch(ctx, f))
  {
    var sf := FiltersToSearch(ctx, f);
    var o := ctx.world.search(sf);
    NoEmptyZone(ctx.world, sf);
    if o.properties != [] {
      ShowResultsFacts(ctx, f, o);
    } else {
      ExplainFacts(ctx, f, o.relaxed);
    }
  }

  lemma NoteFacts(ctx: Ctx, f: Filters, r: HandlerResult, note: bool)
    requires Facts(ctx, f, r)
    ensures Facts(ctx, f, NoteRooms(r, note))
  {
    if note && r.actions != [] && r.actions[0].Say? {
      SumSameTag(r.actions[0], r.actions[0].(roomsNote := true), r.actions[1..]);
      assert r.actions == [r.actions[0]] + r.actions[1..];
    }
  }

  lemma QualifyLiveFacts(ctx: Ctx, f: Filters)
    requires ctx.world.Valid() && AllLive(ctx.world, f.neighborhoods, f.operation)
    ensures Facts(ctx, f, QualifyLive(ctx, f))
  {
    var roomsNote := ctx.e.roomsInferred && f.minRooms.Some?;
    if ctx.e.maxPrice.Some? && f.operation == Some(SALE) && IsSuspiciousSalePrice(f.maxPrice, f.currency) {
      OneMessage(ctx, f, CurrencyQuestion, false, QUALIFICATION, Some(f));
    } else if f.operation.Some? && CountFilledCoreFilters(f) >= 2 {
      SearchFacts(ctx, f);
      NoteFacts(ctx, f, TriggerSearch(ctx, f), roomsNote);
    } else if ctx.lead.state != SEARCH_MATCH && f.operation.Some? && f.neighborhoods != [] {
      TeaserFacts(ctx, f);
    } else {
      AskMissingFacts(ctx, f, roomsNote);
    }
  }

  lemma QualificationFacts(ctx: Ctx, f: Filters)
    requires ctx.world.Valid()
    ensures Facts(ctx, f, Qualification(ctx, f))
  {
    var kept := ZonesWithStock(ctx.world, f.neighborhoods, f.operation);
    var gone := Without(f.neighborhoods, kept);
    ZonesWithStockFacts(ctx.world, f.neighborhoods, f.operation);
    WithoutFacts(f.neighborhoods, kept);
    if f.neighborhoods != [] && |gone| == |f.neighborhoods| {
      SuggestFacts(ctx, f);
    } else if f.neighborhoods != [] && gone != [] {
      OneMessage(ctx, f, PartialZoneDrop(gone, kept), false, QUALIFICATION, Some(f.(neighborhoods := kept)));
    } else {
      QualifyLiveFacts(ctx, f);
    }
  }

  // ----- the other states -----

  /** Putting the greeting first, marked, where it has not been sent. */
  lemma GreetedFacts(ctx: Ctx, f: Filters, r: HandlerResult)
    requires Facts(ctx, f, r) && Sum(r.actions).greetings == 0
    ensures Facts(ctx, f, r.(actions := Greeted(ctx, r.actions), markGreeted := true))
  {
    if ctx.lead.greetedAt.None? { SumGreetingFirst(Text(Greeting), r.actions); }
  }

  /** Qualification leaves the greeting to its caller and never goes on to commercial
      questions or a visit. */
  predicate StaysInSearch(r: HandlerResult) {
    && !r.markGreeted && !r.entered && r.proposed.None?
    && (r.nextState == QUALIFICATION || r.nextState == SEARCH_MATCH)
  }

  lemma AskingStaysInSearch(ctx: Ctx, f: Filters, note: bool)
    ensures StaysInSearch(AskMissingFilter(ctx, f, note))
  {
  }

  lemma TriggersStayInSearch(ctx: Ctx, f: Filters, note: bool)
    requires f.operation.Some?
    ensures StaysInSearch(NoteRooms(TriggerSearch(ctx, f), note)) && StaysInSearch(TriggerTeaser(ctx, f))
  {
    var o := ctx.world.search(FiltersToSearch(ctx, f));
    assert StaysInSearch(if o.properties != [] then ShowResults(ctx, f, o) else ExplainNoResults(ctx, f, o.relaxed));
    assert StaysInSearch(TriggerSearch(ctx, f));
    AskingStaysInSearch(ctx, f, false);
  }

  lemma LiveStaysInSearch(ctx: Ctx, f: Filters)
    ensures StaysInSearch(QualifyLive(ctx, f))
  {
    var roomsNote := ctx.e.roomsInferred && f.minRooms.Some?;
    if f.operation.Some? { TriggersStayInSearch(ctx, f, roomsNote); }
    AskingStaysInSearch(ctx, f, roomsNote);
  }

  lemma QualificationStaysInSearch(ctx: Ctx, f: Filters)
    ensures StaysInSearch(Qualification(ctx, f))
  {
    if f.neighborhoods != [] { assert StaysInSearch(SuggestAlternativeZones(ctx, f)); }
    LiveStaysInSearch(ctx, f);
  }

  lemma GreetingFacts(ctx: Ctx, f: Filters)
    requires ctx.world.Valid() && ctx.lead.state == GREETING
    ensures Facts(ctx, f, GreetingHandler(ctx, f))
  {
    if f.operation.None? {
      if f.neighborhoods != [] && !HasStock(ctx.world.table, ctx.world.tenant, f.neighborhoods, None) {
        SuggestFacts(ctx, f);
        SumOne(SuggestAlternativeZones(ctx, f).actions[0]);
        GreetedFacts(ctx, f, SuggestAlternativeZones(ctx, f));
      } else if ctx.lead.greetedAt.None? {
        SumOne(Text(Greeting));
      } else {
        OneMessage(ctx, f, OperationQuestion, false, GREETING, Some(f));
      }
    } else if ShouldAskName(ctx.lead) {
      SumOne(Text(NameQuestion));
      GreetedFacts(ctx, f, Reply([Text(NameQuestion)], QUALIFICATION, Some(f)).(markNameAsked := true));
    } else {
      QualificationFacts(ctx, f);
      QualificationStaysInSearch(ctx, f);
      GreetedFacts(ctx, f, Qualification(ctx, f));
    }
  }

  /** What is asked next has been neither asked nor answered; nothing is asked only when
      no such field is left. */
  lemma {:induction false} FirstOpenIsOpen(order: seq<Field>, c: Commercial, asked: seq<Field>)
    ensures match FirstOpen(order, c, asked)
      case Some(field) => field in order && field !in asked && !Answered(c, field)
      case None => forall field :: field in order ==> field in asked || Answered(c, field)
    decreases |order|
  {
    if order != [] {
      assert order == [order[0]] + order[1..];
      if order[0] in asked || Answered(c, order[0]) { FirstOpenIsOpen(order[1..], c, asked); }
    }
  }

  lemma SumScheduling(asksDay: bool)
    ensures Sum([Text(ScheduleLink)] + (if asksDay then [Text(DayQuestion)] else []) + [Text(SchedulingFarewell)])
            == NOTHING
  {
    var first := [Text(ScheduleLink)];
    SumOne(Text(ScheduleLink));
    if asksDay {
      SumSnoc(first, Text(DayQuestion));
      SumSnoc(first + [Text(DayQuestion)], Text(SchedulingFarewell));
    } else {
      assert first + [] == first;
      SumSnoc(first, Text(SchedulingFarewell));
    }
  }

  lemma SchedulingFacts(ctx: Ctx, f: Filters, property: Option<Property>, u: CommercialUpdate, entered: bool)
    requires u.asked.None? && (entered ==> ctx.lead.state == SEARCH_MATCH)
    ensures Facts(ctx, f, EnterScheduling(ctx, property).(update := u, entered := entered))
  {
    SumScheduling(ctx.lang.dayPreference(ctx.text).None?);
  }

  lemma ProcessFacts(ctx: Ctx, f: Filters, asked: seq<Field>, chosen: Option<Option<Id>>, entered: bool)
    requires ctx.lead.state == if entered then SEARCH_MATCH else COMMERCIAL_QUALIFICATION
    requires asked == if entered then [] else ctx.lead.commercial.asked
    ensures Facts(ctx, f, ProcessCommercial(ctx, f, asked, chosen).(entered := entered))
  {
    var r := ProcessCommercial(ctx, f, asked, chosen).(entered := entered);
    var merged := MergeAnswers(ctx.lead.commercial, ctx.e);
    var next := NextFieldToAsk(ctx.lead.filters.operation, merged, asked);
    if next.None? {
      var id := if chosen.Some? then chosen.value else ctx.lead.commercial.pending;
      SchedulingFacts(ctx, f, if id.Some? then ctx.world.find(id.value) else None, r.update, entered);
    } else {
      FirstOpenIsOpen(QuestionOrder(ctx.lead.filters.operation), merged, asked);
      SumOne(Text(CommercialQuestion(next.value)));
      assert Sum(r.actions).asked == [next.value];
    }
  }

  /** One message that leaves the results and all else as they are. */
  lemma ResultsStay(ctx: Ctx, f: Filters, tag: Tag)
    requires ctx.lead.state == SEARCH_MATCH && AddTag(NOTHING, tag) == NOTHING
    ensures Facts(ctx, f, Reply([Text(tag)], SEARCH_MATCH, None))
  {
    SumOne(Text(tag));
  }

  lemma SearchMatchFacts(ctx: Ctx, f: Filters)
    requires ctx.world.Valid() && ctx.lead.state == SEARCH_MATCH
    ensures Facts(ctx, f, SearchMatchHandler(ctx, f))
  {
    var index := ctx.e.interestedPropertyIndex;
    var ids := ctx.lead.lastSearchIds;
    if index.Some? && !ctx.lang.confirmsChoice(ctx.text) {
      if HasNewFilterData(ctx.e) {
        QualificationFacts(ctx, f);
      } else {
        ResultsStay(ctx, f, WhichFicha);
      }
    } else if index.Some? {
      var chosen := ResolveChosen(ctx.world, ids, index.value);
      if chosen.None? {
        ResultsStay(ctx, f, UnknownFicha);
      } else if HasUnansweredQuestion(ctx) {
        ResultsStay(ctx, f, AnswerAbout(chosen.value.id));
      } else {
        ProcessFacts(ctx, f, [], Some(Some(chosen.value.id)), true);
      }
    } else if HasUnansweredQuestion(ctx) && |ids| == 1 && ResolveChosen(ctx.world, ids, 1).Some? {
      ResultsStay(ctx, f, AnswerAbout(ResolveChosen(ctx.world, ids, 1).value.id));
    } else {
      QualificationFacts(ctx, f);
    }
  }

  lemma CommercialHandlerFacts(ctx: Ctx, f: Filters)
    requires ctx.world.Valid() && ctx.lead.state == COMMERCIAL_QUALIFICATION
    ensures Facts(ctx, f, CommercialHandler(ctx, f))
  {
    if HasNewFilterData(ctx.e) {
      QualificationFacts(ctx, f);
    } else {
      ProcessFacts(ctx, f, ctx.lead.commercial.asked, None, false);
    }
  }

  /** A reply beside the handlers, which leaves the state alone. */
  lemma AsideFacts(ctx: Ctx, f: Filters, tag: Tag, u: CommercialUpdate)
    requires tag == BuyingSignalReply || tag == OffTopicRedirect
    requires u.asked.None? && Active(ctx.lead)
    ensures Facts(ctx, f, Reply([Text(tag)], ctx.lead.state, None).(update := u))
  {
    SumOne(Text(tag));
  }

  /** Whatever a turn brings, the result of dispatching it satisfies the facts. */
  lemma ResolveFacts(ctx: Ctx, f: Filters)
    requires ctx.world.Valid() && Active(ctx.lead)
    ensures Facts(ctx, f, Resolve(ctx, f))
  {
    if ctx.lang.buyingSignal(ctx.text) {
      AsideFacts(ctx, f, BuyingSignalReply, NO_UPDATE.(buyingSignal := true));
    } else if IsRedirectable(ctx, f) {
      AsideFacts(ctx, f, OffTopicRedirect, NO_UPDATE);
    } else {
      match ctx.lead.state
      case GREETING => GreetingFacts(ctx, f);
      case QUALIFICATION => QualificationFacts(ctx, f);
      case SEARCH_MATCH => SearchMatchFacts(ctx, f);
      case COMMERCIAL_QUALIFICATION => CommercialHandlerFacts(ctx, f);
    }
  }

  // ----- which property is meant -----

  /** The property with number `n` among the last results, if it is still there. */
  predicate IsNumber(w: World, ids: seq<Id>, n: nat, id: Id) {
    1 <= n <= |ids| && ids[n - 1] == id && w.find(id).Some?
  }

  /** The property waiting for a visit, if it is still there. */
  function StillThere(w: World, id: Option<Id>): Option<Id> {
    if id.Some? && w.find(id.value).Some? then id else None
  }

  /** Commercial qualification is entered for the property whose number the lead named;
      what waits then is kept until a visit is proposed for it. */
  predicate ChoiceFacts(r: HandlerResult, lead: LeadRow, w: World, index: Option<nat>) {
    && (r.entered ==>
          && index.Some? && 1 <= index.value <= |lead.lastSearchIds|
          && var id := lead.lastSearchIds[index.value - 1];
            && IsNumber(w, lead.lastSearchIds, index.value, id)
            && (r.nextState == COMMERCIAL_QUALIFICATION ==> r.update.pending == Some(Some(id)))
            && (r.proposed.Some? ==> r.proposed.value == Some(id)))
    && (!r.entered && r.nextState == COMMERCIAL_QUALIFICATION ==> r.update.pending.None?)
    && (!r.entered && r.proposed.Some? ==>
          lead.state == COMMERCIAL_QUALIFICATION && r.proposed.value == StillThere(w, lead.commercial.pending))
    && (r.recorded.Some? ==> !r.entered && r.nextState != COMMERCIAL_QUALIFICATION)
  }

  lemma SearchMatchChoice(ctx: Ctx, f: Filters)
    requires ctx.world.Valid() && ctx.lead.state == SEARCH_MATCH
    ensures ChoiceFacts(SearchMatchHandler(ctx, f), ctx.lead, ctx.world, ctx.e.interestedPropertyIndex)
  {
    QualificationStaysInSearch(ctx, f);
  }

  lemma ResolveChoice(ctx: Ctx, f: Filters)
    requires ctx.world.Valid() && Active(ctx.lead)
    ensures ChoiceFacts(Resolve(ctx, f), ctx.lead, ctx.world, ctx.e.interestedPropertyIndex)
  {
    if !ctx.lang.buyingSignal(ctx.text) && !IsRedirectable(ctx, f) {
      QualificationStaysInSearch(ctx, f);
      match ctx.lead.state
      case GREETING =>
      case QUALIFICATION =>
      case SEARCH_MATCH => SearchMatchChoice(ctx, f);
      case COMMERCIAL_QUALIFICATION =>
    }
  }
}
