/** What the lead said and what it is shown, against the row as stored. */
module StoredWords {
  import opened Common
  import opened PropertySearch
  import opened SearchOrder
  import opened ZoneText
  import opened Lead
  import opened Handlers
  import opened Engine
  import opened HandlerFacts
  import opened ConversationRuns
  import opened ConversationResults

  // ----- what was said is stored -----

  /** The tags of the answers that leave the stored filters as they were. */
  predicate PassesOver(tag: Tag) {
    tag == BuyingSignalReply || tag == OffTopicRedirect || tag == WhichFicha || tag == UnknownFicha
    || tag.AnswerAbout? || tag == ScheduleLink
  }

  /** The result stores its filters exactly if its first message is none of these. */
  predicate StoresUnlessPassing(r: HandlerResult) {
    r.actions != [] && r.actions[0].Say? && (r.filterUpdates.Some? <==> !PassesOver(r.actions[0].tag))
  }

  predicate Stores(r: HandlerResult) {
    r.actions != [] && r.actions[0].Say? && r.filterUpdates.Some? && !PassesOver(r.actions[0].tag)
  }

  /** The first message decides. */
  lemma StoresByFirst(r: HandlerResult, first: Action)
    requires r.actions != [] && r.actions[0] == first && first.Say? && !PassesOver(first.tag) && r.filterUpdates.Some?
    ensures Stores(r)
  {
  }

  lemma ShowResultsStores(ctx: Ctx, f: Filters, o: SearchOutcome)
    ensures Stores(ShowResults(ctx, f, o))
  {
    var r := ShowResults(ctx, f, o);
    if r.actions != [Text(SameResults)] {
      var opening := Opening(ctx, o.relaxed);
      assert r.actions == opening + (Fichas(o.properties) + [Text(SearchClosing)] + Asking(ctx));
      StoresByFirst(r, opening[0]);
    } else {
      StoresByFirst(r, Text(SameResults));
    }
  }

  lemma ExplainStores(ctx: Ctx, f: Filters, relaxed: Relaxed)
    ensures Stores(ExplainNoResults(ctx, f, relaxed))
  {
  }

  lemma AskMissingStores(ctx: Ctx, f: Filters, note: bool)
    ensures Stores(AskMissingFilter(ctx, f, note))
  {
  }

  lemma TeaserStores(ctx: Ctx, f: Filters)
    requires f.operation.Some?
    ensures Stores(TriggerTeaser(ctx, f))
  {
    AskMissingStores(ctx, f, false);
    var ps := ctx.world.teaser(f.operation.value, f.neighborhoods);
    if ps != [] {
      var r := TriggerTeaser(ctx, f);
      assert r.actions == [Text(TeaserIntro)] + (Fichas(ps) + [Text(TeaserClosing)] + Asking(ctx));
      StoresByFirst(r, Text(TeaserIntro));
    }
  }

  lemma SearchStores(ctx: Ctx, f: Filters, note: bool)
    requires f.operation.Some?
    ensures Stores(NoteRooms(TriggerSearch(ctx, f), note))
  {
    var o := ctx.world.search(FiltersToSearch(ctx, f));
    ShowResultsStores(ctx, f, o);
    ExplainStores(ctx, f, o.relaxed);
    assert Stores(TriggerSearch(ctx, f));
  }

  lemma QualifyLiveStores(ctx: Ctx, f: Filters)
    ensures Stores(QualifyLive(ctx, f))
  {
    var roomsNote := ctx.e.roomsInferred && f.minRooms.Some?;
    if ctx.e.maxPrice.Some? && f.operation == Some(SALE) && IsSuspiciousSalePrice(f.maxPrice, f.currency) {
      StoresByFirst(QualifyLive(ctx, f), Text(CurrencyQuestion));
    } else if f.operation.Some? && CountFilledCoreFilters(f) >= 2 {
      SearchStores(ctx, f, roomsNote);
    } else if ctx.lead.state != SEARCH_MATCH && f.operation.Some? && f.neighborhoods != [] {
      TeaserStores(ctx, f);
    } else {
      AskMissingStores(ctx, f, roomsNote);
    }
  }

  lemma QualificationStores(ctx: Ctx, f: Filters)
    ensures Stores(Qualification(ctx, f))
  {
    if f.neighborhoods != [] { assert Stores(SuggestAlternativeZones(ctx, f)); }
    QualifyLiveStores(ctx, f);
  }

  lemma GreetedStores(ctx: Ctx, r: HandlerResult)
    requires Stores(r)
    ensures Stores(r.(actions := Greeted(ctx, r.actions), markGreeted := true))
  {
    StoresByFirst(r.(actions := Greeted(ctx, r.actions), markGreeted := true), Greeted(ctx, r.actions)[0]);
  }

  lemma GreetingStores(ctx: Ctx, f: Filters)
    ensures Stores(GreetingHandler(ctx, f))
  {
    if f.operation.Some? && !ShouldAskName(ctx.lead) {
      QualificationStores(ctx, f);
      GreetedStores(ctx, Qualification(ctx, f));
    } else if f.operation.Some? {
      GreetedStores(ctx, Reply([Text(NameQuestion)], QUALIFICATION, Some(f)).(markNameAsked := true));
    } else if f.neighborhoods != [] {
      GreetedStores(ctx, SuggestAlternativeZones(ctx, f));
    }
  }

  lemma SearchMatchStores(ctx: Ctx, f: Filters)
    ensures StoresUnlessPassing(SearchMatchHandler(ctx, f))
  {
    QualificationStores(ctx, f);
  }

  lemma CommercialStores(ctx: Ctx, f: Filters)
    ensures StoresUnlessPassing(CommercialHandler(ctx, f))
  {
    QualificationStores(ctx, f);
  }

  lemma ResolveStores(ctx: Ctx, f: Filters)
    requires Active(ctx.lead)
    ensures StoresUnlessPassing(Resolve(ctx, f))
  {
    if !ctx.lang.buyingSignal(ctx.text) && !IsRedirectable(ctx, f) {
      match ctx.lead.state
      case GREETING => GreetingStores(ctx, f);
      case QUALIFICATION => QualificationStores(ctx, f);
      case SEARCH_MATCH => SearchMatchStores(ctx, f);
      case COMMERCIAL_QUALIFICATION => CommercialStores(ctx, f);
    }
  }

  /** What was said in the turn, or else what the row had. */
  predicate Heard<T(==)>(after: Option<T>, said: Option<T>, before: Option<T>) {
    after == if said.Some? then said else before
  }

  predicate AllHeard(after: Filters, e: Extraction, before: Filters) {
    && Heard(after.operation, e.operation, before.operation) && Heard(after.maxPrice, e.maxPrice, before.maxPrice)
    && Heard(after.currency, e.currency, before.currency) && Heard(after.minRooms, e.minRooms, before.minRooms)
    && Heard(after.garage, e.wantsGarage, before.garage)
    && Heard(after.petsAllowed, e.wantsPetsAllowed, before.petsAllowed)
    && Heard(after.notes, e.extraRequirements, before.notes)
  }

  lemma TurnFiltersHear(lang: Lang, f: Filters, e: Extraction, text: string, turnCount: nat)
    ensures AllHeard(TurnFilters(lang, f, e, text, turnCount), e, f)
    ensures TurnFilters(lang, f, e, text, turnCount).priceMentionedAtTurn
            == if e.maxPrice.Some? || e.currency.Some? then Some(turnCount) else f.priceMentionedAtTurn
  {
  }

  lemma WrittenFilters(stored: LeadRow, seen: LeadRow, f: Filters, r: HandlerResult, s: Summary, turnCount: nat,
                       name: Option<string>, now: Time)
    requires SeenAs(stored, seen) && KeepsFilters(r, f, s)
    ensures var after := ConversationRuns.Written(stored, r, turnCount, name, now).filters;
      if r.filterUpdates.Some? then SameCore(after, f) else after == seen.filters
  {
  }

  /** Operation, budget, currency, rooms, garage, pets and notes said in a turn win over what
      the row had and are in the row afterwards, the turn of a price with them, exactly
      unless the answer begins with one of the six messages that pass over the search: then
      all that was said of it is lost. */
  lemma WhatWasSaidIsStored(lang: Lang, c: Chat, i: TurnInput)
    requires Reached(lang, c) && HandlerTurn(lang, c, i)
    ensures var ctx, out := Seen(lang, c.lead, i), Turn(lang, c.lead, i);
      && out.result.value.actions != [] && out.result.value.actions[0].Say?
      && if PassesOver(out.result.value.actions[0].tag) then out.lead.filters == ctx.lead.filters
         else AllHeard(out.lead.filters, ctx.e, ctx.lead.filters)
              && out.lead.filters.priceMentionedAtTurn
                 == if ctx.e.maxPrice.Some? || ctx.e.currency.Some? then Some(out.lead.turnCount)
                    else ctx.lead.filters.priceMentionedAtTurn
  {
    var ctx, f, r := Parts(lang, c, i);
    var stored := Stored(c.lead, GuardrailOf(lang, c.lead, i));
    ResolveStores(ctx, f);
    TurnFiltersHear(lang, ctx.lead.filters, ctx.e, ctx.text, ctx.lead.turnCount);
    WrittenFilters(stored, ctx.lead, f, r, Sum(r.actions), ctx.lead.turnCount, ctx.e.name, i.now);
  }

  // ----- what is shown meets the row -----

  predicate HasTag(actions: seq<Action>, tag: Tag) {
    exists k :: 0 <= k < |actions| && actions[k].Say? && actions[k].tag == tag
  }

  /** The row of the table is one the filters are about. */
  predicate Serves(w: World, f: Filters, p: Property) {
    && p in w.table && p.tenant == w.tenant && p.status == ACTIVE && f.operation == Some(p.operation)
    && (f.neighborhoods != [] ==> p.neighborhood in f.neighborhoods)
  }

  /** The budget counts for three turns after it was last mentioned. */
  predicate BudgetCounts(f: Filters, turnCount: nat) {
    f.maxPrice.Some? && f.maxPrice.value != 0.0
    && (f.priceMentionedAtTurn.Some? ==> turnCount - f.priceMentionedAtTurn.value <= 3)
  }

  predicate MeetsExtras(f: Filters, turnCount: nat, p: Property) {
    && (f.garage == Some(true) ==> p.garage) && (f.petsAllowed == Some(true) ==> p.petsAllowed == Some(true))
    && (BudgetCounts(f, turnCount) && f.currency.Some? && f.currency.value != "" ==> p.currency == f.currency.value)
  }

  predicate MeetsBudgetAndRooms(f: Filters, turnCount: nat, p: Property) {
    && (BudgetCounts(f, turnCount) ==> p.price <= 1.1 * f.maxPrice.value)
    && (f.minRooms == Some(1) ==> p.rooms == Some(1))
    && (f.minRooms.Some? && f.minRooms.value != 0 ==> p.rooms.Some? && p.rooms.value >= f.minRooms.value)
  }

  /** What a ficha among these messages is, given the filters. */
  predicate IsHonest(w: World, f: Filters, turnCount: nat, actions: seq<Action>, p: Property) {
    && Serves(w, f, p)
    && (!HasTag(actions, TeaserIntro) ==> MeetsExtras(f, turnCount, p))
    && (HasTag(actions, SearchIntro) ==> MeetsBudgetAndRooms(f, turnCount, p))
  }

  predicate Honest(ctx: Ctx, f: Filters, r: HandlerResult) {
    forall k :: 0 <= k < |r.actions| && r.actions[k].Ficha? ==>
      r.filterUpdates == Some(f) && IsHonest(ctx.world, f, ctx.lead.turnCount, r.actions, r.actions[k].property)
  }

  predicate NoFichas(actions: seq<Action>) { forall k :: 0 <= k < |actions| ==> actions[k].Say? }

  lemma {:induction false} FichasAre(ps: seq<Property>, k: nat)
    requires k < |Fichas(ps)|
    ensures |Fichas(ps)| == |ps| && Fichas(ps)[k] == Ficha(k + 1, ps[k])
    decreases |ps|
  {
    if k < |Fichas(ps)| - 1 {
      FichasAre(ps[..|ps| - 1], k);
    } else if |ps| > 1 {
      FichasAre(ps[..|ps| - 1], 0);
    } else {
      assert Fichas(ps[..0]) == [];
    }
  }

  /** Of texts, fichas and texts, the fichas are those in the middle. */
  lemma FichasInside(before: seq<Action>, ps: seq<Property>, after: seq<Action>, k: nat)
    requires NoFichas(before) && NoFichas(after) && k < |before + Fichas(ps) + after|
    ensures var a := (before + Fichas(ps) + after)[k]; a.Say? || a.property in ps
  {
    var all, x := before + Fichas(ps) + after, k - |before|;
    if x < 0 {
      assert all[k] == before[k];
    } else if x < |Fichas(ps)| {
      FichasAre(ps, x);
      assert all[k] == Fichas(ps)[x];
    } else {
      assert all[k] == after[x - |Fichas(ps)|];
    }
  }

  lemma TagInEither(a: seq<Action>, b: seq<Action>, tag: Tag)
    ensures HasTag(a + b, tag) <==> HasTag(a, tag) || HasTag(b, tag)
  {
    var all := a + b;
    assert forall k :: 0 <= k < |a| ==> all[k] == a[k];
    assert forall k :: 0 <= k < |b| ==> all[|a| + k] == b[k];
    if HasTag(all, tag) {
      var k :| 0 <= k < |all| && all[k].Say? && all[k].tag == tag;
      if k >= |a| { assert all[k] == b[k - |a|]; }
    }
  }

  lemma TagOutside(before: seq<Action>, ps: seq<Property>, after: seq<Action>, tag: Tag)
    ensures HasTag(before + Fichas(ps) + after, tag) <==> HasTag(before, tag) || HasTag(after, tag)
  {
    TagInEither(before, Fichas(ps), tag);
    TagInEither(before + Fichas(ps), after, tag);
    forall k | 0 <= k < |Fichas(ps)| ensures Fichas(ps)[k].Ficha? {
      FichasAre(ps, k);
    }
  }

  /** The search is asked for what the filters say. */
  lemma SearchedForFilters(ctx: Ctx, f: Filters, p: Property)
    requires f.operation.Some? && ctx.world.Valid()
    requires var o := ctx.world.search(FiltersToSearch(ctx, f)); p in o.properties
    ensures Serves(ctx.world, f, p) && MeetsExtras(f, ctx.lead.turnCount, p)
    ensures ctx.world.search(FiltersToSearch(ctx, f)).relaxed == NotRelaxed ==>
      MeetsBudgetAndRooms(f, ctx.lead.turnCount, p)
  {
    var w, sf := ctx.world, FiltersToSearch(ctx, f);
    var o := w.search(sf);
    assert IsSearchAnswer(o, w.table, w.tenant, sf, w.usdArs);
    ShownSuits(o, w.table, w.tenant, sf, w.usdArs, p);
    if o.relaxed == NotRelaxed {
      var a := AnsweringAttempt(o, w.table, w.tenant, sf, w.usdArs);
      QueryAnswersBest(o.properties, w.table, w.tenant, sf, a, w.usdArs);
      FitsIsExact(w.tenant, sf, p);
    }
  }

  lemma ShowResultsHonest(ctx: Ctx, f: Filters)
    requires f.operation.Some? && ctx.world.Valid()
    ensures Honest(ctx, f, ShowResults(ctx, f, ctx.world.search(FiltersToSearch(ctx, f))))
  {
    var o := ctx.world.search(FiltersToSearch(ctx, f));
    var r := ShowResults(ctx, f, o);
    if r.actions != [Text(SameResults)] {
      var after := [Text(SearchClosing)] + Asking(ctx);
      assert r.actions == Opening(ctx, o.relaxed) + Fichas(o.properties) + after;
      TagOutside(Opening(ctx, o.relaxed), o.properties, after, SearchIntro);
      OpeningTells(ctx, o.relaxed);
      forall k | 0 <= k < |r.actions| && r.actions[k].Ficha?
        ensures IsHonest(ctx.world, f, ctx.lead.turnCount, r.actions, r.actions[k].property)
      {
        FichasInside(Opening(ctx, o.relaxed), o.properties, after, k);
        SearchedForFilters(ctx, f, r.actions[k].property);
      }
    }
  }

  /** Results are introduced as what was asked for only when nothing was relaxed. */
  lemma OpeningTells(ctx: Ctx, relaxed: Relaxed)
    ensures HasTag(Opening(ctx, relaxed), SearchIntro) ==> relaxed == NotRelaxed
    ensures !HasTag([Text(SearchClosing)] + Asking(ctx), SearchIntro)
    ensures NoFichas(Opening(ctx, relaxed)) && NoFichas([Text(SearchClosing)] + Asking(ctx))
  {
  }

  lemma TriggerSearchHonest(ctx: Ctx, f: Filters)
    requires f.operation.Some? && ctx.world.Valid()
    ensures Honest(ctx, f, TriggerSearch(ctx, f))
  {
    var o := ctx.world.search(FiltersToSearch(ctx, f));
    if o.properties != [] { ShowResultsHonest(ctx, f); }
  }

  lemma NoteRoomsHonest(ctx: Ctx, f: Filters, r: HandlerResult, note: bool)
    requires Honest(ctx, f, r)
    ensures Honest(ctx, f, NoteRooms(r, note))
  {
    var t := NoteRooms(r, note);
    assert |t.actions| == |r.actions| && t.filterUpdates == r.filterUpdates;
    assert forall k :: 0 <= k < |r.actions| ==>
      && (t.actions[k].Say? <==> r.actions[k].Say?)
      && (r.actions[k].Say? ==> t.actions[k].tag == r.actions[k].tag) && (r.actions[k].Ficha? ==> t.actions[k] == r.actions[k]);
    SameTags(r.actions, t.actions, TeaserIntro);
    SameTags(r.actions, t.actions, SearchIntro);
  }

  lemma SameTags(a: seq<Action>, b: seq<Action>, tag: Tag)
    requires |a| == |b|
    requires forall k :: 0 <= k < |a| ==> (a[k].Say? <==> b[k].Say?) && (a[k].Say? ==> a[k].tag == b[k].tag)
    ensures HasTag(a, tag) <==> HasTag(b, tag)
  {
  }

  lemma TeaserServes(w: World, f: Filters, p: Property)
    requires f.operation.Some? && w.Valid() && p in w.teaser(f.operation.value, f.neighborhoods)
    ensures Serves(w, f, p)
  {
    var op, zones := f.operation.value, f.neighborhoods;
    assert CoversRange(TeaserRanking(w.usdArs), w.teaser(op, zones), TeaserRows(w.table, w.tenant, op, zones));
    TeaserCoversPrices(w.teaser(op, zones), w.table, w.tenant, op, zones, w.usdArs);
  }

  lemma TeaserHonest(ctx: Ctx, f: Filters)
    requires f.operation.Some? && f.neighborhoods != [] && ctx.world.Valid()
    ensures Honest(ctx, f, TriggerTeaser(ctx, f))
  {
    var ps, r := ctx.world.teaser(f.operation.value, f.neighborhoods), TriggerTeaser(ctx, f);
    if ps == [] {
      AskMissingHonest(ctx, f, false);
    } else {
      var after := [Text(TeaserClosing)] + Asking(ctx);
      assert r.actions == [Text(TeaserIntro)] + Fichas(ps) + after;
      TeaserActionsHonest(ctx, f, ps, after);
    }
  }

  lemma TeaserActionsHonest(ctx: Ctx, f: Filters, ps: seq<Property>, after: seq<Action>)
    requires ctx.world.Valid() && f.operation.Some? && ps == ctx.world.teaser(f.operation.value, f.neighborhoods)
    requires NoFichas(after) && !HasTag(after, SearchIntro)
    ensures var actions := [Text(TeaserIntro)] + Fichas(ps) + after;
      forall k :: 0 <= k < |actions| && actions[k].Ficha? ==>
        IsHonest(ctx.world, f, ctx.lead.turnCount, actions, actions[k].property)
  {
    var actions := [Text(TeaserIntro)] + Fichas(ps) + after;
    TagOutside([Text(TeaserIntro)], ps, after, SearchIntro);
    assert actions[0].tag == TeaserIntro;
    forall k | 0 <= k < |actions| && actions[k].Ficha?
      ensures IsHonest(ctx.world, f, ctx.lead.turnCount, actions, actions[k].property)
    {
      FichasInside([Text(TeaserIntro)], ps, after, k);
      TeaserServes(ctx.world, f, actions[k].property);
    }
  }

  lemma TextsAreHonest(ctx: Ctx, f: Filters, r: HandlerResult)
    requires NoFichas(r.actions)
    ensures Honest(ctx, f, r)
  {
  }

  lemma AskMissingHonest(ctx: Ctx, f: Filters, note: bool)
    ensures Honest(ctx, f, AskMissingFilter(ctx, f, note))
  {
    TextsAreHonest(ctx, f, AskMissingFilter(ctx, f, note));
  }

  lemma QualifyLiveHonest(ctx: Ctx, f: Filters)
    requires ctx.world.Valid()
    ensures Honest(ctx, f, QualifyLive(ctx, f))
  {
    var roomsNote := ctx.e.roomsInferred && f.minRooms.Some?;
    if ctx.e.maxPrice.Some? && f.operation == Some(SALE) && IsSuspiciousSalePrice(f.maxPrice, f.currency) {
      TextsAreHonest(ctx, f, QualifyLive(ctx, f));
    } else if f.operation.Some? && CountFilledCoreFilters(f) >= 2 {
      TriggerSearchHonest(ctx, f);
      NoteRoomsHonest(ctx, f, TriggerSearch(ctx, f), roomsNote);
    } else if ctx.lead.state != SEARCH_MATCH && f.operation.Some? && f.neighborhoods != [] {
      TeaserHonest(ctx, f);
    } else {
      AskMissingHonest(ctx, f, roomsNote);
    }
  }

  lemma QualificationHonest(ctx: Ctx, f: Filters)
    requires ctx.world.Valid()
    ensures Honest(ctx, f, Qualification(ctx, f))
  {
    QualifyLiveHonest(ctx, f);
    if f.neighborhoods != [] { TextsAreHonest(ctx, f, SuggestAlternativeZones(ctx, f)); }
  }

  lemma GreetedHonest(ctx: Ctx, f: Filters, r: HandlerResult)
    requires Honest(ctx, f, r)
    ensures Honest(ctx, f, r.(actions := Greeted(ctx, r.actions), markGreeted := true))
  {
    if ctx.lead.greetedAt.None? {
      var all := [Text(Greeting)] + r.actions;
      TagAfterGreeting(r.actions, TeaserIntro);
      TagAfterGreeting(r.actions, SearchIntro);
      assert forall k :: 0 < k < |all| ==> all[k] == r.actions[k - 1];
    }
  }

  lemma TagAfterGreeting(actions: seq<Action>, tag: Tag)
    requires tag != Greeting
    ensures HasTag([Text(Greeting)] + actions, tag) <==> HasTag(actions, tag)
  {
    TagInEither([Text(Greeting)], actions, tag);
  }

  lemma GreetingHonest(ctx: Ctx, f: Filters)
    requires ctx.world.Valid()
    ensures Honest(ctx, f, GreetingHandler(ctx, f))
  {
    var r := GreetingHandler(ctx, f);
    if f.operation.Some? && !ShouldAskName(ctx.lead) {
      QualificationHonest(ctx, f);
      GreetedHonest(ctx, f, Qualification(ctx, f));
    } else {
      TextsAreHonest(ctx, f, r);
    }
  }

  lemma ProcessHonest(ctx: Ctx, f: Filters, asked: seq<Field>, chosen: Option<Option<Id>>, entered: bool)
    ensures Honest(ctx, f, ProcessCommercial(ctx, f, asked, chosen).(entered := entered))
  {
    TextsAreHonest(ctx, f, ProcessCommercial(ctx, f, asked, chosen).(entered := entered));
  }

  lemma SearchMatchHonest(ctx: Ctx, f: Filters)
    requires ctx.world.Valid()
    ensures Honest(ctx, f, SearchMatchHandler(ctx, f))
  {
    var index := ctx.e.interestedPropertyIndex;
    QualificationHonest(ctx, f);
    if index.Some? {
      var chosen := ResolveChosen(ctx.world, ctx.lead.lastSearchIds, index.value);
      if chosen.Some? { ProcessHonest(ctx, f, [], Some(Some(chosen.value.id)), true); }
    }
  }

  lemma CommercialHonest(ctx: Ctx, f: Filters)
    requires ctx.world.Valid()
    ensures Honest(ctx, f, CommercialHandler(ctx, f))
  {
    QualificationHonest(ctx, f);
    ProcessHonest(ctx, f, ctx.lead.commercial.asked, None, false);
  }

  lemma ResolveHonest(ctx: Ctx, f: Filters)
    requires Active(ctx.lead) && ctx.world.Valid()
    ensures Honest(ctx, f, Resolve(ctx, f))
  {
    match ctx.lead.state
    case GREETING => GreetingHonest(ctx, f);
    case QUALIFICATION => QualificationHonest(ctx, f);
    case SEARCH_MATCH => SearchMatchHonest(ctx, f);
    case COMMERCIAL_QUALIFICATION => CommercialHonest(ctx, f);
  }

  /** Every ficha sent is an active row of the tenant with the operation, and in a zone, that
      the lead's row then holds. Outside the teaser it also has the garage, takes the pets
      and is priced in the currency the row holds; and where the results are introduced as
      what was asked for it has the rooms and costs a tenth more than the budget at most.
      The budget counts for three turns. */
  lemma FichasMeetTheRow(lang: Lang, c: Chat, i: TurnInput, k: nat)
    requires Reached(lang, c) && HandlerTurn(lang, c, i)
    requires var actions := Turn(lang, c.lead, i).result.value.actions; k < |actions| && actions[k].Ficha?
    ensures var out := Turn(lang, c.lead, i);
      IsHonest(i.world, out.lead.filters, out.lead.turnCount, out.result.value.actions, out.result.value.actions[k].property)
  {
    var ctx, f, r := Parts(lang, c, i);
    ResolveHonest(ctx, f);
  }

  /** The teaser goes by operation and zone alone: a lead that asked for a garage is shown a
      flat without one, if that is what there is. */
  lemma TeaserLeavesGarageOut(ctx: Ctx, f: Filters, p: Property)
    requires ctx.world.Valid() && ctx.lead.state == QUALIFICATION && ctx.e.maxPrice.None?
    requires f.operation == Some(RENT) && f.garage == Some(true) && f.neighborhoods == [p.neighborhood]
    requires f.maxPrice.None? && f.minRooms.None? && !p.garage
    requires TeaserRows(ctx.world.table, ctx.world.tenant, RENT, [p.neighborhood]) == {p}
    ensures var r := Qualification(ctx, f); |r.actions| > 1 && r.actions[1] == Ficha(1, p) && r.filterUpdates == Some(f)
  {
    var w, zone := ctx.world, p.neighborhood;
    assert p in TeaserRows(w.table, w.tenant, RENT, [zone]);
    assert InZone(w.tenant, [zone], Some(RENT), p);
    assert HasStock(w.table, w.tenant, [zone], Some(RENT));
    assert [zone][..0] == [] && ZonesWithStock(w, [], f.operation) == [];
    assert ZonesWithStock(w, [zone], f.operation) == [zone];
    assert Without([], [zone]) == [] && Without([zone], [zone]) == [];
    var ps := w.teaser(RENT, [zone]);
    assert CoversRange(TeaserRanking(w.usdArs), ps, {p});
    assert ps[0] in ps && ps == [p];
    FichasAre([p], 0) by { assert [p][..0] == []; }
    assert Qualification(ctx, f) == TriggerTeaser(ctx, f);
  }
}
