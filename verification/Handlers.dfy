/** The state handlers of the conversation: what each answers to a turn, which fichas it
    shows and what it asks the engine to store. */
module Handlers {
  import opened Common
  import opened PropertySearch
  import opened ZoneText
  import opened Lead

  /** What a turn sees of the rest of the system: the tenant's rows and the answers of
      the search service, any that its contract allows. */
  datatype World = World(
    table: Table, tenant: Id, usdArs: real, search: SearchFilters -> SearchOutcome,
    teaser: (Operation, seq<string>) -> seq<Property>, topZones: Option<Operation> -> seq<string>,
    adjacent: string -> seq<string>, find: Id -> Option<Property>)
  {
    ghost predicate Valid() {
      && (forall f :: IsSearchAnswer(search(f), table, tenant, f, usdArs))
      && (forall op, zones :: CoversRange(TeaserRanking(usdArs), teaser(op, zones), TeaserRows(table, tenant, op, zones)))
      && (forall op :: Distinct(topZones(op)) && forall z :: z in topZones(op) ==> HasStock(table, tenant, [z], op))
      && (forall z :: Distinct(adjacent(z)))
      && (forall id :: find(id).Some? ==> find(id).value in table && find(id).value.id == id)
      && (forall p :: p in table ==> find(p.id) == Some(p))
    }
  }

  /** What a message is about; the wording is not modelled. */
  datatype Tag =
    | Greeting | NameQuestion | CommercialQuestion(field: Field) | StockAlertOffer(asksName: bool)
    | PartialZoneDrop(gone: seq<string>, kept: seq<string>) | CurrencyQuestion
    | ZoneSuggestion(zone: string, zones: seq<string>, fallback: bool) | DelegatedZones(zones: seq<string>)
    | ZoneStillPending(zones: seq<string>) | MissingFilterQuestion(missing: MissingFilter) | OperationQuestion
    | TeaserIntro | TeaserClosing | UnderstandingEcho | SearchIntro | NoResults(relaxed: Relaxed) | SearchClosing
    | SameResults | StockAlertConfirmed | WhichFicha | UnknownFicha | AnswerAbout(id: Id)
    | ScheduleLink | DayQuestion | SchedulingFarewell | BuyingSignalReply | OffTopicRedirect
    | OptOutConfirmation | HandoffFarewell | TimeoutApology | Reformulate

  /** A text, possibly with a note on the rooms inferred put before it, or a numbered
      ficha. */
  datatype Action = Say(tag: Tag, roomsNote: bool) | Ficha(number: nat, property: Property)

  function Text(tag: Tag): Action { Say(tag, false) }

  /** Fields left out stay as they are. */
  datatype CommercialUpdate = CommercialUpdate(
    guarantee: Option<Guarantee>, payment: Option<Payment>, timeline: Option<Timeline>,
    hasPropertyToSell: Option<bool>, asked: Option<seq<Field>>, pending: Option<Option<Id>>,
    buyingSignal: bool, wantsStockAlert: bool)

  const NO_UPDATE := CommercialUpdate(None, None, None, None, None, None, false, false)

  /** `recorded` is what the search service wrote to `lastSearchIds` meanwhile, `searched`
      the zones and operation it was asked for, `proposed` the visit created, `entered`
      whether commercial qualification was entered. */
  datatype HandlerResult = HandlerResult(
    actions: seq<Action>, nextState: ConversationState, filterUpdates: Option<Filters>,
    preferredDay: Option<Day>, markGreeted: bool, markNameAsked: bool, update: CommercialUpdate,
    recorded: Option<seq<Id>>, searched: Option<(Operation, seq<string>)>, proposed: Option<Option<Id>>, entered: bool)

  function Reply(actions: seq<Action>, next: ConversationState, updates: Option<Filters>): HandlerResult {
    HandlerResult(actions, next, updates, None, false, false, NO_UPDATE, None, None, None, false)
  }

  datatype Ctx = Ctx(lang: Lang, world: World, lead: LeadRow, text: string, e: Extraction)

  predicate ShouldAskName(lead: LeadRow) { lead.name.None? && lead.nameAskedAt.None? }

  function Ids(ps: seq<Property>): seq<Id> {
    if ps == [] then [] else Ids(ps[..|ps| - 1]) + [ps[|ps| - 1].id]
  }

  /** The fichas of `ps`, numbered from one. */
  function Fichas(ps: seq<Property>): seq<Action> {
    if ps == [] then [] else Fichas(ps[..|ps| - 1]) + [Ficha(|ps|, ps[|ps| - 1])]
  }

  // ----- qualification -----

  /** The candidate zones with active stock, in their order. */
  function ZonesWithStock(w: World, zones: seq<string>, op: Option<Operation>): seq<string> {
    if zones == [] then []
    else
      var z := zones[|zones| - 1];
      ZonesWithStock(w, zones[..|zones| - 1], op) + if HasStock(w.table, w.tenant, [z], op) then [z] else []
  }

  function Without(zones: seq<string>, others: seq<string>): seq<string> {
    if zones == [] then []
    else
      var z := zones[|zones| - 1];
      Without(zones[..|zones| - 1], others) + if z in others then [] else [z]
  }

  predicate IsSuspiciousSalePrice(price: Option<real>, currency: Option<string>) {
    price.Some? && ((currency == Some("USD") && price.value < 20000.0) || (currency == Some("ARS") && price.value < 5000000.0))
  }

  function FirstTwo(zones: seq<string>): seq<string> { if |zones| <= 2 then zones else zones[..2] }

  function SuggestAlternativeZones(ctx: Ctx, f: Filters): HandlerResult
    requires f.neighborhoods != []
  {
    var zone := f.neighborhoods[0];
    var near := ZonesWithStock(ctx.world, ctx.world.adjacent(zone), f.operation);
    var zones := if near == [] then ctx.world.topZones(f.operation) else FirstTwo(near);
    Reply([Text(ZoneSuggestion(zone, zones, near == []))], QUALIFICATION, Some(f.(neighborhoods := [], offered := zones)))
  }

  function AskMissingFilter(ctx: Ctx, f: Filters, roomsNote: bool): HandlerResult {
    var missing := FirstMissingFilter(f);
    var zones := ctx.world.topZones(f.operation);
    if missing == MissingNeighborhood && ctx.lang.delegatesZone(ctx.text) && zones != [] then
      Reply([Text(DelegatedZones(zones))], QUALIFICATION, Some(f.(offered := zones)))
    else if missing == MissingNeighborhood && f.offered != [] then
      Reply([Text(ZoneStillPending(f.offered))], QUALIFICATION, Some(f))
    else
      Reply([Say(MissingFilterQuestion(missing), roomsNote)], QUALIFICATION, Some(f))
  }

  function TriggerTeaser(ctx: Ctx, f: Filters): HandlerResult
    requires f.operation.Some?
  {
    var ps := ctx.world.teaser(f.operation.value, f.neighborhoods);
    var searched := Some((f.operation.value, f.neighborhoods));
    if ps == [] then AskMissingFilter(ctx, f, false).(recorded := Some([]), searched := searched)
    else
      var askName := ShouldAskName(ctx.lead);
      Reply([Text(TeaserIntro)] + Fichas(ps) + [Text(TeaserClosing)] + (if askName then [Text(NameQuestion)] else []),
            SEARCH_MATCH, Some(f)).(markNameAsked := askName, recorded := Some(Ids(ps)), searched := searched)
  }

  function FiltersToSearch(ctx: Ctx, f: Filters): SearchFilters
    requires f.operation.Some?
  {
    var stale := IsPriceStale(f, ctx.lead.turnCount);
    SearchFilters(f.operation.value, f.neighborhoods, if stale then None else f.maxPrice,
                  if stale then None else f.currency, f.minRooms, f.garage, f.petsAllowed, ctx.e.priceFlexible)
  }

  function TriggerSearch(ctx: Ctx, f: Filters): HandlerResult
    requires f.operation.Some?
  {
    var o := ctx.world.search(FiltersToSearch(ctx, f));
    var r :=
      if o.properties != [] then ShowResults(ctx, f, o) else ExplainNoResults(ctx, f, o.relaxed);
    r.(searched := Some((f.operation.value, f.neighborhoods)),
       recorded := if o.properties != [] then Some(Ids(o.properties)) else None)
  }

  function ShowResults(ctx: Ctx, f: Filters, o: SearchOutcome): HandlerResult {
    var first := ctx.lead.state != SEARCH_MATCH;
    if !first && o.relaxed == NotRelaxed && Ids(o.properties) == ctx.lead.lastSearchIds then
      Reply([Text(SameResults)], SEARCH_MATCH, Some(f))
    else
      var askName := ShouldAskName(ctx.lead);
      Reply((if first then [Text(UnderstandingEcho)] else [])
            + [Text(if o.relaxed == NotRelaxed then SearchIntro else NoResults(o.relaxed))]
            + Fichas(o.properties) + [Text(SearchClosing)] + (if askName then [Text(NameQuestion)] else []),
            SEARCH_MATCH, Some(f)).(markNameAsked := askName)
  }

  function ExplainNoResults(ctx: Ctx, f: Filters, relaxed: Relaxed): HandlerResult {
    if relaxed != NotRelaxed || ctx.lead.commercial.wantsStockAlert then
      Reply([Text(NoResults(relaxed))], SEARCH_MATCH, Some(f))
    else if !HasNewFilterData(ctx.e) && ctx.lang.accepts(ctx.text) then
      Reply([Text(StockAlertConfirmed)], SEARCH_MATCH, Some(f)).(update := NO_UPDATE.(wantsStockAlert := true))
    else
      var askName := ShouldAskName(ctx.lead);
      Reply([Text(StockAlertOffer(askName))], SEARCH_MATCH, Some(f)).(markNameAsked := askName)
  }

  /** The note on inferred rooms goes before a text that comes first. */
  function NoteRooms(r: HandlerResult, note: bool): HandlerResult {
    if note && r.actions != [] && r.actions[0].Say?
    then r.(actions := [r.actions[0].(roomsNote := true)] + r.actions[1..])
    else r
  }

  /** Qualifying with zones that all have stock. */
  function QualifyLive(ctx: Ctx, f: Filters): HandlerResult {
    var roomsNote := ctx.e.roomsInferred && f.minRooms.Some?;
    if ctx.e.maxPrice.Some? && f.operation == Some(SALE) && IsSuspiciousSalePrice(f.maxPrice, f.currency) then
      Reply([Text(CurrencyQuestion)], QUALIFICATION, Some(f))
    else if f.operation.Some? && CountFilledCoreFilters(f) >= 2 then NoteRooms(TriggerSearch(ctx, f), roomsNote)
    else if ctx.lead.state != SEARCH_MATCH && f.operation.Some? && f.neighborhoods != [] then TriggerTeaser(ctx, f)
    else AskMissingFilter(ctx, f, roomsNote)
  }

  /** Zones without stock are settled before anything else is asked. */
  function Qualification(ctx: Ctx, f: Filters): HandlerResult {
    var kept := ZonesWithStock(ctx.world, f.neighborhoods, f.operation);
    var gone := Without(f.neighborhoods, kept);
    if f.neighborhoods != [] && |gone| == |f.neighborhoods| then SuggestAlternativeZones(ctx, f)
    else if f.neighborhoods != [] && gone != [] then
      Reply([Text(PartialZoneDrop(gone, kept))], QUALIFICATION, Some(f.(neighborhoods := kept)))
    else QualifyLive(ctx, f)
  }

  // ----- greeting -----

  function Greeted(ctx: Ctx, actions: seq<Action>): seq<Action> {
    if ctx.lead.greetedAt.Some? then actions else [Text(Greeting)] + actions
  }

  function GreetingHandler(ctx: Ctx, f: Filters): HandlerResult {
    if f.operation.None? then
      if f.neighborhoods != [] && !HasStock(ctx.world.table, ctx.world.tenant, f.neighborhoods, None) then
        var s := SuggestAlternativeZones(ctx, f);
        s.(actions := Greeted(ctx, s.actions), nextState := GREETING, markGreeted := true)
      else if ctx.lead.greetedAt.None? then
        Reply([Text(Greeting)], GREETING, Some(f)).(markGreeted := true)
      else
        Reply([Text(OperationQuestion)], GREETING, Some(f))
    else if ShouldAskName(ctx.lead) then
      Reply(Greeted(ctx, [Text(NameQuestion)]), QUALIFICATION, Some(f)).(markGreeted := true, markNameAsked := true)
    else
      var r := Qualification(ctx, f);
      if ctx.lead.greetedAt.Some? then r else r.(actions := Greeted(ctx, r.actions), markGreeted := true)
  }

  // ----- commercial qualification and scheduling -----

  const MAX_COMMERCIAL_QUESTIONS: nat := 2

  function QuestionOrder(op: Option<Operation>): seq<Field> {
    match op
    case Some(RENT) => [GuaranteeField, TimelineField]
    case Some(SALE) => [PaymentField, PropertyToSellField]
    case Some(TEMP_RENT) => [TimelineField]
    case None => []
  }

  predicate Answered(c: Commercial, field: Field) {
    match field
    case GuaranteeField => c.guarantee.Some?
    case TimelineField => c.timeline.Some?
    case PaymentField => c.payment.Some?
    case PropertyToSellField => c.hasPropertyToSell.Some?
  }

  /** The first field in `order` neither asked nor answered. */
  function FirstOpen(order: seq<Field>, c: Commercial, asked: seq<Field>): Option<Field> {
    if order == [] then None
    else if order[0] in asked || Answered(c, order[0]) then FirstOpen(order[1..], c, asked)
    else Some(order[0])
  }

  function NextFieldToAsk(op: Option<Operation>, c: Commercial, asked: seq<Field>): Option<Field> {
    if |asked| >= MAX_COMMERCIAL_QUESTIONS then None else FirstOpen(QuestionOrder(op), c, asked)
  }

  /** The row's commercial answers with this turn's put in. */
  function MergeAnswers(c: Commercial, e: Extraction): Commercial {
    c.(guarantee := Or(e.guarantee, c.guarantee), payment := Or(e.paymentMethod, c.payment),
       timeline := Or(e.timeline, c.timeline), hasPropertyToSell := Or(e.hasPropertyToSell, c.hasPropertyToSell))
  }

  function EnterScheduling(ctx: Ctx, property: Option<Property>): HandlerResult {
    var day := ctx.lang.dayPreference(ctx.text);
    Reply([Text(ScheduleLink)] + (if day.Some? then [] else [Text(DayQuestion)]) + [Text(SchedulingFarewell)],
          HUMAN_HANDOFF, None).(
      preferredDay := day, proposed := Some(if property.Some? then Some(property.value.id) else None))
  }

  /** `chosen` is the property just chosen on entering, nothing when already in. */
  function ProcessCommercial(ctx: Ctx, f: Filters, asked: seq<Field>, chosen: Option<Option<Id>>): HandlerResult {
    var e := ctx.e;
    var answers := NO_UPDATE.(guarantee := e.guarantee, payment := e.paymentMethod, timeline := e.timeline,
                              hasPropertyToSell := e.hasPropertyToSell);
    var next := NextFieldToAsk(ctx.lead.filters.operation, MergeAnswers(ctx.lead.commercial, e), asked);
    if next.None? then
      var id := if chosen.Some? then chosen.value else ctx.lead.commercial.pending;
      var property := if id.Some? then ctx.world.find(id.value) else None;
      EnterScheduling(ctx, property).(update := answers.(pending := Some(None)))
    else
      Reply([Text(CommercialQuestion(next.value))], COMMERCIAL_QUALIFICATION, Some(f)).(
        update := answers.(asked := Some(asked + [next.value]), pending := chosen))
  }

  function EnterCommercial(ctx: Ctx, property: Property, f: Filters): HandlerResult {
    ProcessCommercial(ctx, f, [], Some(Some(property.id))).(entered := true)
  }

  function CommercialHandler(ctx: Ctx, f: Filters): HandlerResult {
    if HasNewFilterData(ctx.e) then Qualification(ctx, f)
    else ProcessCommercial(ctx, f, ctx.lead.commercial.asked, None)
  }

  function SchedulingHandler(ctx: Ctx): HandlerResult { EnterScheduling(ctx, None) }

  // ----- results shown -----

  predicate HasUnansweredQuestion(ctx: Ctx) { '?' in ctx.text || ctx.e.intent == AskQuestion }

  /** The property behind "number `index`" of the last results. */
  function ResolveChosen(w: World, ids: seq<Id>, index: nat): Option<Property> {
    if 1 <= index <= |ids| then w.find(ids[index - 1]) else None
  }

  function AnswerQuestionAbout(property: Property): HandlerResult {
    Reply([Text(AnswerAbout(property.id))], SEARCH_MATCH, None)
  }

  function SearchMatchHandler(ctx: Ctx, f: Filters): HandlerResult {
    var index := ctx.e.interestedPropertyIndex;
    var ids := ctx.lead.lastSearchIds;
    if index.Some? && !ctx.lang.confirmsChoice(ctx.text) then
      if HasNewFilterData(ctx.e) then Qualification(ctx, f) else Reply([Text(WhichFicha)], SEARCH_MATCH, None)
    else if index.Some? then
      var chosen := ResolveChosen(ctx.world, ids, index.value);
      if chosen.None? then Reply([Text(UnknownFicha)], SEARCH_MATCH, None)
      else if HasUnansweredQuestion(ctx) then AnswerQuestionAbout(chosen.value)
      else EnterCommercial(ctx, chosen.value, f)
    else if HasUnansweredQuestion(ctx) && |ids| == 1 && ResolveChosen(ctx.world, ids, 1).Some? then
      AnswerQuestionAbout(ResolveChosen(ctx.world, ids, 1).value)
    else Qualification(ctx, f)
  }
}
