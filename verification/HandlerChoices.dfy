/** Which answer the handlers choose, by conditions on the lead, the turn and the stock. */
module HandlerChoices {
  import opened Common
  import opened PropertySearch
  import opened ZoneText
  import opened Lead
  import opened Handlers
  import opened Engine
  import opened HandlerFacts
  import opened ConversationRuns
  import opened ConversationResults
  import opened StoredWords

  // ----- dispatch -----

  predicate Digresses(ctx: Ctx, f: Filters) {
    && ctx.lead.state != GREETING && !(f.neighborhoods == [] && ctx.lang.delegatesZone(ctx.text))
    && (ctx.e.intent == OffTopic || (ctx.e.intent == AskQuestion && !BringsCriteria(ctx.e)))
  }

  /** A sign of buying is answered before anything else, and a digression, once the lead is
      past the greeting and has not just left the zone to the bot, by pointing back; neither
      moves the conversation. All else goes to the handler of the state. */
  lemma AsidesComeFirst(ctx: Ctx, f: Filters)
    requires Active(ctx.lead)
    ensures var r := Resolve(ctx, f);
      if ctx.lang.buyingSignal(ctx.text) then
        r.actions == [Text(BuyingSignalReply)] && r.nextState == ctx.lead.state
      else if Digresses(ctx, f) then
        r.actions == [Text(OffTopicRedirect)] && r.nextState == ctx.lead.state
      else
        r == match ctx.lead.state
             case GREETING => GreetingHandler(ctx, f)
             case QUALIFICATION => Qualification(ctx, f)
             case SEARCH_MATCH => SearchMatchHandler(ctx, f)
             case _ => CommercialHandler(ctx, f)
  {
  }

  /** The turn says something to search for. */
  predicate BringsCriteria(e: Extraction) {
    !(e.operation.None? && e.neighborhoods == [] && e.maxPrice.None? && e.minRooms.None? && e.wantsGarage.None?
      && e.wantsPetsAllowed.None?)
  }

  // ----- qualification -----

  predicate Live(w: World, f: Filters, z: string) { HasStock(w.table, w.tenant, [z], f.operation) }

  predicate AllZonesLive(w: World, f: Filters) { forall z :: z in f.neighborhoods ==> Live(w, f, z) }

  /** The price given for a sale is too low to be one. */
  predicate CannotBeASalePrice(ctx: Ctx, f: Filters) {
    && ctx.e.maxPrice.Some? && f.operation == Some(SALE) && f.maxPrice.Some?
    && ((f.currency == Some("USD") && f.maxPrice.value < 20000.0)
        || (f.currency == Some("ARS") && f.maxPrice.value < 5000000.0))
  }

  /** Two of zone, budget and rooms are known. */
  predicate TwoKnown(f: Filters) {
    || (f.neighborhoods != [] && (f.maxPrice.Some? || f.minRooms.Some?))
    || (f.maxPrice.Some? && f.minRooms.Some?)
  }

  predicate OnlyZone(f: Filters) { f.neighborhoods != [] && f.maxPrice.None? && f.minRooms.None? }

  lemma {:induction false} KeepsLive(w: World, zones: seq<string>, op: Option<Operation>)
    requires forall z :: z in zones ==> HasStock(w.table, w.tenant, [z], op)
    ensures ZonesWithStock(w, zones, op) == zones && Without(zones, zones) == []
    decreases |zones|
  {
    if zones != [] {
      var front, z := zones[..|zones| - 1], zones[|zones| - 1];
      assert zones == front + [z];
      KeepsLive(w, front, op);
    }
    WithoutAll(zones, zones);
  }

  lemma {:induction false} WithoutAll(zones: seq<string>, others: seq<string>)
    requires forall z :: z in zones ==> z in others
    ensures Without(zones, others) == []
    decreases |zones|
  {
    if zones != [] {
      var front, z := zones[..|zones| - 1], zones[|zones| - 1];
      assert zones == front + [z];
      WithoutAll(front, others);
    }
  }

  lemma {:induction false} WithoutNone(zones: seq<string>, others: seq<string>)
    requires forall z :: z in zones ==> z !in others
    ensures Without(zones, others) == zones
    decreases |zones|
  {
    if zones != [] {
      var front, z := zones[..|zones| - 1], zones[|zones| - 1];
      assert zones == front + [z];
      WithoutNone(front, others);
    }
  }

  lemma {:induction false} GoneAre(zones: seq<string>, others: seq<string>, z: string)
    ensures z in Without(zones, others) <==> z in zones && z !in others
    decreases |zones|
  {
    if zones != [] {
      var front, last := zones[..|zones| - 1], zones[|zones| - 1];
      assert zones == front + [last];
      GoneAre(front, others, z);
    }
  }

  /** With stock in every zone, the handler questions a sale price that cannot be one; else it
      searches as soon as it knows the operation and two of zone, budget and rooms; with
      operation and zone alone it shows the price range, unless results are out already. */
  lemma QualificationSearches(ctx: Ctx, f: Filters)
    requires AllZonesLive(ctx.world, f)
    ensures CannotBeASalePrice(ctx, f) ==> Qualification(ctx, f).actions == [Text(CurrencyQuestion)]
    ensures !CannotBeASalePrice(ctx, f) && f.operation.Some? && TwoKnown(f) ==>
      Qualification(ctx, f) == NoteRooms(TriggerSearch(ctx, f), ctx.e.roomsInferred && f.minRooms.Some?)
    ensures !CannotBeASalePrice(ctx, f) && f.operation.Some? && OnlyZone(f) && ctx.lead.state != SEARCH_MATCH ==>
      Qualification(ctx, f) == TriggerTeaser(ctx, f)
  {
    KeepsLive(ctx.world, f.neighborhoods, f.operation);
    assert CountFilledCoreFilters(f) >= 2 <==> TwoKnown(f);
  }

  /** Otherwise it asks. With no zone, whatever else is known of budget or rooms, it offers
      the zones with most stock if the lead leaves the choice to it, repeats an offer still
      pending, or asks for the zone; */
  lemma QualificationAsksForZone(ctx: Ctx, f: Filters)
    requires !CannotBeASalePrice(ctx, f) && f.neighborhoods == [] && !(f.operation.Some? && TwoKnown(f))
    ensures var r, top := Qualification(ctx, f), ctx.world.topZones(f.operation);
      var note := ctx.e.roomsInferred && f.minRooms.Some?;
      if ctx.lang.delegatesZone(ctx.text) && top != []
      then r.actions == [Text(DelegatedZones(top))] && r.filterUpdates == Some(f.(offered := top))
      else if f.offered != [] then r.actions == [Text(ZoneStillPending(f.offered))]
      else r.actions == [Say(MissingFilterQuestion(MissingNeighborhood), note)]
  {
    assert CountFilledCoreFilters(f) >= 2 <==> TwoKnown(f);
    assert Qualification(ctx, f) == QualifyLive(ctx, f);
    assert QualifyLive(ctx, f) == AskMissingFilter(ctx, f, ctx.e.roomsInferred && f.minRooms.Some?);
  }

  lemma LiveZonesGoOn(ctx: Ctx, f: Filters)
    requires AllZonesLive(ctx.world, f)
    ensures Qualification(ctx, f) == QualifyLive(ctx, f)
  {
    KeepsLive(ctx.world, f.neighborhoods, f.operation);
  }

  lemma AsksInTheEnd(ctx: Ctx, f: Filters)
    requires !CannotBeASalePrice(ctx, f)
    requires f.operation.None? || (OnlyZone(f) && ctx.lead.state == SEARCH_MATCH)
    ensures QualifyLive(ctx, f) == AskMissingFilter(ctx, f, ctx.e.roomsInferred && f.minRooms.Some?)
  {
  }

  /** and with a zone, as long as it cannot search, for the rooms and last for the price. */
  lemma QualificationAsksForRest(ctx: Ctx, f: Filters)
    requires !CannotBeASalePrice(ctx, f) && AllZonesLive(ctx.world, f) && f.neighborhoods != []
    requires f.operation.None? || (OnlyZone(f) && ctx.lead.state == SEARCH_MATCH)
    ensures Qualification(ctx, f).actions ==
      if f.minRooms.None? then [Text(MissingFilterQuestion(MissingRooms))]
      else [Say(MissingFilterQuestion(MissingPrice), ctx.e.roomsInferred)]
  {
    LiveZonesGoOn(ctx, f);
    AsksInTheEnd(ctx, f);
  }

  predicate SomeZoneLive(w: World, f: Filters) { exists z :: z in f.neighborhoods && Live(w, f, z) }

  lemma {:induction false} SameLength(zones: seq<string>, others: seq<string>)
    ensures |Without(zones, others)| <= |zones|
    ensures |Without(zones, others)| == |zones| ==> forall z :: z in zones ==> z !in others
    decreases |zones|
  {
    if zones != [] {
      var front, z := zones[..|zones| - 1], zones[|zones| - 1];
      assert zones == front + [z];
      SameLength(front, others);
    }
  }

  /** With no stock in any of its zones, the handler suggests others, in place of these; with
      stock in some, it says which are gone and goes on with the rest. Either way it does not
      search. */
  lemma DeadZonesAreSettledFirst(ctx: Ctx, f: Filters)
    requires f.neighborhoods != [] && !AllZonesLive(ctx.world, f)
    ensures var r := Qualification(ctx, f);
      && r.searched.None? && r.filterUpdates.Some? && |r.actions| == 1 && r.actions[0].Say?
      && (if SomeZoneLive(ctx.world, f)
          then r.actions[0].tag.PartialZoneDrop? && r.filterUpdates.value.offered == f.offered
               && (forall z :: z in r.actions[0].tag.gone <==> z in f.neighborhoods && !Live(ctx.world, f, z))
               && (forall z :: z in r.filterUpdates.value.neighborhoods <==> z in f.neighborhoods && Live(ctx.world, f, z))
          else r.actions[0].tag.ZoneSuggestion? && r.filterUpdates.value.neighborhoods == []
               && r.actions[0].tag.zone == f.neighborhoods[0])
  {
    var w := ctx.world;
    var kept := ZonesWithStock(w, f.neighborhoods, f.operation);
    var gone := Without(f.neighborhoods, kept);
    ZonesWithStockFacts(w, f.neighborhoods, f.operation);
    SameLength(f.neighborhoods, kept);
    forall z ensures z in gone <==> z in f.neighborhoods && !Live(w, f, z) {
      GoneAre(f.neighborhoods, kept, z);
    }
    var dead :| dead in f.neighborhoods && !Live(w, f, dead);
    assert dead in gone;
    if !SomeZoneLive(w, f) { WithoutNone(f.neighborhoods, kept); }
  }

  // ----- zones offered -----

  lemma FirstTwoAre(zones: seq<string>)
    ensures forall z :: z in FirstTwo(zones) ==> z in zones
  {
  }

  predicate AllLive(w: World, zones: seq<string>, op: Option<Operation>) {
    forall z :: z in zones ==> HasStock(w.table, w.tenant, [z], op)
  }

  /** Every zone the bot suggests, in place of one without stock or when the choice is left to
      it, has stock for the operation. */
  lemma OfferedZonesAreLive(ctx: Ctx, f: Filters)
    requires ctx.world.Valid()
    ensures f.neighborhoods != [] ==>
      var zones := SuggestAlternativeZones(ctx, f).actions[0].tag.zones;
      AllLive(ctx.world, zones, f.operation)
    ensures AllLive(ctx.world, ctx.world.topZones(f.operation), f.operation)
  {
    if f.neighborhoods != [] {
      var adjacent := ctx.world.adjacent(f.neighborhoods[0]);
      var near := ZonesWithStock(ctx.world, adjacent, f.operation);
      ZonesWithStockFacts(ctx.world, adjacent, f.operation);
      FirstTwoAre(near);
    }
  }

  /** They are neighbours of the zone wherever one of those has stock, two at most. */
  lemma NeighboursComeFirst(ctx: Ctx, f: Filters)
    requires f.neighborhoods != []
    ensures var tag, near := SuggestAlternativeZones(ctx, f).actions[0].tag, ctx.world.adjacent(f.neighborhoods[0]);
      && (tag.fallback <==> !exists z :: z in near && Live(ctx.world, f, z))
      && (!tag.fallback ==> 0 < |tag.zones| <= 2 && forall z :: z in tag.zones ==> z in near)
      && (tag.fallback ==> tag.zones == ctx.world.topZones(f.operation))
  {
    var adjacent := ctx.world.adjacent(f.neighborhoods[0]);
    var near := ZonesWithStock(ctx.world, adjacent, f.operation);
    ZonesWithStockFacts(ctx.world, adjacent, f.operation);
    FirstTwoAre(near);
    if near != [] { assert near[0] in near; }
  }

  // ----- commercial questions and the visit -----

  predicate IsOpen(c: Commercial, asked: seq<Field>, field: Field) {
    && field !in asked
    && match field
       case GuaranteeField => c.guarantee.None?
       case TimelineField => c.timeline.None?
       case PaymentField => c.payment.None?
       case PropertyToSellField => c.hasPropertyToSell.None?
  }

  /** What is asked about, by operation, in order. */
  predicate AsksInOrder(op: Option<Operation>, c: Commercial, asked: seq<Field>, next: Option<Field>) {
    match op
    case Some(RENT) =>
      next == if IsOpen(c, asked, GuaranteeField) then Some(GuaranteeField)
              else if IsOpen(c, asked, TimelineField) then Some(TimelineField) else None
    case Some(SALE) =>
      next == if IsOpen(c, asked, PaymentField) then Some(PaymentField)
              else if IsOpen(c, asked, PropertyToSellField) then Some(PropertyToSellField) else None
    case Some(TEMP_RENT) => next == if IsOpen(c, asked, TimelineField) then Some(TimelineField) else None
    case None => next.None?
  }

  lemma NextInOrder(op: Option<Operation>, c: Commercial, asked: seq<Field>)
    requires |asked| < 2
    ensures AsksInOrder(op, c, asked, NextFieldToAsk(op, c, asked))
  {
    TwoInOrder(GuaranteeField, TimelineField, c, asked);
    TwoInOrder(PaymentField, PropertyToSellField, c, asked);
    assert [TimelineField][1..] == [];
  }

  lemma TwoInOrder(a: Field, b: Field, c: Commercial, asked: seq<Field>)
    ensures FirstOpen([a, b], c, asked)
            == if IsOpen(c, asked, a) then Some(a) else if IsOpen(c, asked, b) then Some(b) else None
    ensures FirstOpen([b], c, asked) == if IsOpen(c, asked, b) then Some(b) else None
  {
    assert [a, b][1..] == [b] && [b][1..] == [];
    assert FirstOpen([b], c, asked) == if IsOpen(c, asked, b) then Some(b) else None;
    assert FirstOpen([a, b], c, asked) == if IsOpen(c, asked, a) then Some(a) else FirstOpen([b], c, asked);
  }

  /** The lead's answers with this turn's put in. */
  predicate AnswersNow(c: Commercial, e: Extraction, now: Commercial) {
    && now.guarantee == (if e.guarantee.Some? then e.guarantee else c.guarantee)
    && now.payment == (if e.paymentMethod.Some? then e.paymentMethod else c.payment)
    && now.timeline == (if e.timeline.Some? then e.timeline else c.timeline)
    && now.hasPropertyToSell == (if e.hasPropertyToSell.Some? then e.hasPropertyToSell else c.hasPropertyToSell)
  }

  /** In the commercial stage a turn asks the next open question of the operation, guarantee
      before time for a rent and payment before a property to sell for a sale, unless two
      have been asked; only with none left it proposes the visit. */
  lemma AsksUntilNothingIsOpen(ctx: Ctx, f: Filters, asked: seq<Field>, chosen: Option<Option<Id>>, now: Commercial)
    requires AnswersNow(ctx.lead.commercial, ctx.e, now)
    ensures var r := ProcessCommercial(ctx, f, asked, chosen);
      if |asked| >= 2 || AsksInOrder(ctx.lead.filters.operation, now, asked, None)
      then r.proposed.Some?
      else r.proposed.None? && |r.actions| == 1 && r.actions[0].Say? && r.actions[0].tag.CommercialQuestion?
           && AsksInOrder(ctx.lead.filters.operation, now, asked, Some(r.actions[0].tag.field))
  {
    var merged := MergeAnswers(ctx.lead.commercial, ctx.e);
    var op := ctx.lead.filters.operation;
    assert forall field :: IsOpen(merged, asked, field) <==> IsOpen(now, asked, field);
    if |asked| < 2 { NextInOrder(op, merged, asked); }
  }

  /** Proposing a visit sends the link, asks for a day exactly if the text names none, and
      says goodbye; the day named is kept. */
  lemma VisitAsksForTheDay(ctx: Ctx, property: Option<Property>)
    ensures var r, day := EnterScheduling(ctx, property), ctx.lang.dayPreference(ctx.text);
      && r.actions == (if day.Some? then [Text(ScheduleLink), Text(SchedulingFarewell)]
                       else [Text(ScheduleLink), Text(DayQuestion), Text(SchedulingFarewell)])
      && r.nextState == HUMAN_HANDOFF && r.preferredDay == day
  {
  }

  // ----- the first turns -----

  /** Until the operation is known the lead is greeted, then asked for it; a zone without stock
      comes first. Then its name is asked, once, before anything else. */
  lemma GreetingDecides(ctx: Ctx, f: Filters)
    ensures f.operation.None? && (f.neighborhoods == [] || HasStock(ctx.world.table, ctx.world.tenant, f.neighborhoods, None))
      ==> GreetingHandler(ctx, f).nextState == GREETING
          && GreetingHandler(ctx, f).actions
             == [Text(if ctx.lead.greetedAt.None? then Greeting else OperationQuestion)]
    ensures f.operation.Some? && ctx.lead.name.None? && ctx.lead.nameAskedAt.None? ==>
      && GreetingHandler(ctx, f).nextState == QUALIFICATION
      && GreetingHandler(ctx, f).actions
         == if ctx.lead.greetedAt.None? then [Text(Greeting), Text(NameQuestion)] else [Text(NameQuestion)]
    ensures f.operation.Some? && !(ctx.lead.name.None? && ctx.lead.nameAskedAt.None?) ==>
      GreetingHandler(ctx, f).actions
      == (if ctx.lead.greetedAt.None? then [Text(Greeting)] else []) + Qualification(ctx, f).actions
  {
    var a := Qualification(ctx, f).actions;
    assert [] + a == a;
  }

  /** In the results, a number that the text does not confirm as a choice is asked about,
      unless the turn brings something new to search for. */
  lemma UnconfirmedNumberIsAskedAbout(ctx: Ctx, f: Filters)
    requires ctx.e.interestedPropertyIndex.Some? && !ctx.lang.confirmsChoice(ctx.text)
    ensures SearchMatchHandler(ctx, f) ==
      if BringsCriteria(ctx.e) then Qualification(ctx, f) else Reply([Text(WhichFicha)], SEARCH_MATCH, None)
  {
  }

  /** A question in the results is answered if there is one ficha it can be about. */
  lemma QuestionAboutTheOnlyFicha(ctx: Ctx, f: Filters, p: Property)
    requires ctx.world.Valid() && ctx.e.interestedPropertyIndex.None?
    requires '?' in ctx.text || ctx.e.intent == AskQuestion
    requires ctx.lead.lastSearchIds == [p.id] && p in ctx.world.table
    ensures SearchMatchHandler(ctx, f) == Reply([Text(AnswerAbout(p.id))], SEARCH_MATCH, None)
  {
    assert ctx.world.find(p.id) == Some(p);
  }

  // ----- what a search says -----

  /** Texts that end with the one about `tag`, then these fichas, then texts. */
  predicate IntroducedBy(actions: seq<Action>, ps: seq<Property>, tag: Tag) {
    exists n :: 0 <= n < |actions| && actions[n] == Text(tag) && NoFichas(actions[..n])
      && Fichas(ps) <= actions[n + 1..] && NoFichas(actions[n + 1 + |Fichas(ps)|..])
  }

  lemma IntroducedInside(before: seq<Action>, ps: seq<Property>, after: seq<Action>, tag: Tag)
    requires before != [] && before[|before| - 1] == Text(tag) && NoFichas(before) && NoFichas(after)
    ensures IntroducedBy(before + Fichas(ps) + after, ps, tag)
  {
    var actions, n := before + Fichas(ps) + after, |before| - 1;
    assert actions[n] == before[n] && actions[..n] == before[..n];
    assert actions[n + 1..] == Fichas(ps) + after && actions[n + 1 + |Fichas(ps)|..] == after;
  }

  /** Results are introduced as found when nothing was relaxed, and with what was relaxed
      otherwise, then all of them follow; the very results already out are not repeated. */
  lemma ResultsTellWhatTheyAre(ctx: Ctx, f: Filters)
    requires f.operation.Some? && ctx.world.search(FiltersToSearch(ctx, f)).properties != []
    ensures var o, r := ctx.world.search(FiltersToSearch(ctx, f)), TriggerSearch(ctx, f);
      if ctx.lead.state == SEARCH_MATCH && o.relaxed == NotRelaxed && Ids(o.properties) == ctx.lead.lastSearchIds
      then r.actions == [Text(SameResults)]
      else IntroducedBy(r.actions, o.properties, if o.relaxed == NotRelaxed then SearchIntro else NoResults(o.relaxed))
  {
    var o := ctx.world.search(FiltersToSearch(ctx, f));
    var before, after := Opening(ctx, o.relaxed), [Text(SearchClosing)] + Asking(ctx);
    if !(ctx.lead.state == SEARCH_MATCH && o.relaxed == NotRelaxed && Ids(o.properties) == ctx.lead.lastSearchIds) {
      assert TriggerSearch(ctx, f).actions == before + Fichas(o.properties) + after;
      IntroducedInside(before, o.properties, after, if o.relaxed == NotRelaxed then SearchIntro else NoResults(o.relaxed));
    }
  }

  /** With nothing found the lead is offered to hear of new stock, is taken at its word when
      it accepts without bringing anything new, and is not offered it again after that. */
  lemma NothingFoundOffersAlert(ctx: Ctx, f: Filters)
    requires f.operation.Some?
    requires ctx.world.search(FiltersToSearch(ctx, f)) == SearchOutcome([], NotRelaxed)
    ensures var r := TriggerSearch(ctx, f);
      if ctx.lead.commercial.wantsStockAlert then r.actions == [Text(NoResults(NotRelaxed))]
      else if !BringsCriteria(ctx.e) && ctx.lang.accepts(ctx.text)
      then r.actions == [Text(StockAlertConfirmed)] && r.update.wantsStockAlert
      else r.actions == [Text(StockAlertOffer(ctx.lead.name.None? && ctx.lead.nameAskedAt.None?))]
           && !r.update.wantsStockAlert
  {
  }

  /** A budget last mentioned more than three turns ago is left out of the search, with its
      currency; all else is asked for as it is. */
  lemma StaleBudgetIsLeftOut(ctx: Ctx, f: Filters)
    requires f.operation.Some?
    ensures var sf := FiltersToSearch(ctx, f);
      && sf.operation == f.operation.value && sf.neighborhoods == f.neighborhoods && sf.minRooms == f.minRooms
      && sf.garage == f.garage && sf.petsAllowed == f.petsAllowed && sf.priceFlexible == ctx.e.priceFlexible
      && (if f.maxPrice.Some? && f.priceMentionedAtTurn.Some? && ctx.lead.turnCount > f.priceMentionedAtTurn.value + 3
          then sf.maxPrice.None? && sf.currency.None? else sf.maxPrice == f.maxPrice && sf.currency == f.currency)
  {
  }

  /** Whatever a handler answers, of fichas only those of the last results go out, and all
      texts do. */
  lemma {:induction false} OnlyKnownFichasGoOut(actions: seq<Action>, known: seq<Id>, a: Action)
    ensures a in Sendable(actions, known) <==> a in actions && (a.Say? || a.property.id in known)
    decreases |actions|
  {
    if actions != [] {
      var front, last := actions[..|actions| - 1], actions[|actions| - 1];
      assert actions == front + [last];
      OnlyKnownFichasGoOut(front, known, a);
    }
  }
}
