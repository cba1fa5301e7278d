/** One turn of the conversation: guardrails, the handler of the lead's state, what is
    sent and what is written back to the row. */
module Engine {
  import opened Common
  import opened PropertySearch
  import opened ZoneText
  import opened Lead
  import opened Handlers

  // ----- dispatch -----

  predicate IsRedirectable(ctx: Ctx, f: Filters) {
    && !(f.neighborhoods == [] && ctx.lang.delegatesZone(ctx.text))
    && ctx.lead.state != GREETING
    && (ctx.e.intent == OffTopic || (ctx.e.intent == AskQuestion && !HasNewFilterData(ctx.e)))
  }

  function Resolve(ctx: Ctx, f: Filters): HandlerResult {
    if ctx.lang.buyingSignal(ctx.text) then
      Reply([Text(BuyingSignalReply)], ctx.lead.state, None).(update := NO_UPDATE.(buyingSignal := true))
    else if IsRedirectable(ctx, f) then Reply([Text(OffTopicRedirect)], ctx.lead.state, None)
    else
      match ctx.lead.state
      case GREETING => GreetingHandler(ctx, f)
      case QUALIFICATION => Qualification(ctx, f)
      case SEARCH_MATCH => SearchMatchHandler(ctx, f)
      case COMMERCIAL_QUALIFICATION => CommercialHandler(ctx, f)
      case SCHEDULING => SchedulingHandler(ctx)
      case _ => Reply([], ctx.lead.state, None)
  }

  /** The filters a turn works with: merged, price mention dated, offered zones taken
      when the lead accepts them without naming one. */
  function TurnFilters(lang: Lang, f: Filters, e: Extraction, text: string, turnCount: nat): Filters {
    var merged := MergeFilters(f, e);
    var dated :=
      if e.maxPrice.Some? || e.currency.Some? then merged.(priceMentionedAtTurn := Some(turnCount)) else merged;
    if dated.offered != [] && dated.neighborhoods == [] && lang.accepts(text)
    then dated.(neighborhoods := dated.offered, offered := [])
    else dated
  }

  // ----- sending -----

  /** What goes out: texts, and fichas of the last search only. */
  function Sendable(actions: seq<Action>, whitelist: seq<Id>): seq<Action> {
    if actions == [] then []
    else
      var a := actions[|actions| - 1];
      Sendable(actions[..|actions| - 1], whitelist)
      + if a.Ficha? && a.property.id !in whitelist then [] else [a]
  }

  // ----- writing back -----

  function PersistCommercial(c: Commercial, u: CommercialUpdate, now: Time): Commercial {
    c.(guarantee := Or(u.guarantee, c.guarantee), payment := Or(u.payment, c.payment),
       timeline := Or(u.timeline, c.timeline), hasPropertyToSell := Or(u.hasPropertyToSell, c.hasPropertyToSell),
       asked := if u.asked.Some? then u.asked.value else c.asked,
       pending := if u.pending.Some? then u.pending.value else c.pending,
       buyingSignalAt := if u.buyingSignal then Some(now) else c.buyingSignalAt,
       wantsStockAlert := u.wantsStockAlert || c.wantsStockAlert)
  }

  /** The row after the handler's result is stored, the score apart. */
  function PersistFields(lead: LeadRow, r: HandlerResult, turnCount: nat, name: Option<string>, now: Time): LeadRow {
    lead.(
      state := r.nextState, lastMessageAt := Some(now), turnCount := turnCount,
      name := if HasName(name) && !HasName(lead.name) then name else lead.name,
      filters := if r.filterUpdates.Some? then r.filterUpdates.value else lead.filters,
      preferredDay := Or(r.preferredDay, lead.preferredDay),
      greetedAt := if r.markGreeted && lead.greetedAt.None? then Some(now) else lead.greetedAt,
      nameAskedAt := if r.markNameAsked && lead.nameAskedAt.None? then Some(now) else lead.nameAskedAt,
      commercial := PersistCommercial(lead.commercial, r.update, now),
      handoffAt := if r.nextState == HUMAN_HANDOFF && lead.state != HUMAN_HANDOFF then Some(now) else lead.handoffAt)
  }

  /** The row the score is computed from: the values about to be written, with the old
      row's wherever one of them is null or not written. */
  function ScoringView(lead: LeadRow, r: HandlerResult, turnCount: nat, name: Option<string>, now: Time): LeadRow {
    var written := PersistFields(lead, r, turnCount, name, now);
    lead.(
      name := Or(written.name, lead.name),
      filters := lead.filters.(operation := Or(written.filters.operation, lead.filters.operation),
                               maxPrice := Or(written.filters.maxPrice, lead.filters.maxPrice)),
      commercial := lead.commercial.(
        asked := written.commercial.asked,
        timeline := Or(written.commercial.timeline, lead.commercial.timeline),
        guarantee := Or(written.commercial.guarantee, lead.commercial.guarantee),
        payment := Or(written.commercial.payment, lead.commercial.payment),
        buyingSignalAt := Or(written.commercial.buyingSignalAt, lead.commercial.buyingSignalAt)))
  }

  function Persist(lead: LeadRow, r: HandlerResult, turnCount: nat, name: Option<string>, now: Time): LeadRow {
    var score := ScoreOf(ScoringView(lead, r, turnCount, name, now));
    PersistFields(lead, r, turnCount, name, now).(score := Some(score), scoreLabel := Some(LabelOf(score)))
  }

  // ----- the turn -----

  /** What comes from outside in one turn. */
  datatype TurnInput = TurnInput(
    now: Time, rawText: string, extraction: Option<RawExtraction>, openAppointment: bool, world: World)

  /** The row written, what was sent and what the turn did on the way. `result` is there
      when a handler ran. */
  datatype TurnOutput = TurnOutput(
    lead: LeadRow, sent: seq<Action>, guardrail: Guardrail, result: Option<HandlerResult>)

  /** A session does not expire while a visit is open. */
  function GuardrailOf(lang: Lang, lead: LeadRow, i: TurnInput): Guardrail {
    var g := Evaluate(lang, lead, lang.plainDigits(i.rawText), i.now);
    if g == SessionExpired && i.openAppointment then Continue else g
  }

  /** The row as stored before a handler runs: only an expiry is written at once. */
  function Stored(lead: LeadRow, g: Guardrail): LeadRow {
    if g == SessionExpired then ResetSession(lead) else lead
  }

  /** The row a handler sees. */
  function Effective(lead: LeadRow, g: Guardrail): LeadRow {
    if g == TimeoutRelease then lead.(state := ReleaseState(lead), handoffAt := None) else Stored(lead, g)
  }

  /** The apology that comes first when a handoff has timed out. */
  function Apology(g: Guardrail): seq<Action> { if g == TimeoutRelease then [Text(TimeoutApology)] else [] }

  /** What a turn with text `text` does once the guardrails have said `g`. */
  function Respond(lang: Lang, lead: LeadRow, i: TurnInput, text: string, g: Guardrail): TurnOutput {
    match g
    case OptOut =>
      TurnOutput(lead.(state := OPTED_OUT, optedOutAt := Some(i.now)), [Text(OptOutConfirmation)], g, None)
    case ToHuman =>
      TurnOutput(lead.(state := HUMAN_HANDOFF, handoffAt := Some(i.now)), [Text(HandoffFarewell)], g, None)
    case Silenced => TurnOutput(lead, [], g, None)
    case _ =>
      if i.extraction.None? then
        var effective := Effective(lead, g);
        TurnOutput(effective.(lastMessageAt := Some(i.now), turnCount := effective.turnCount + 1),
                   Apology(g) + [Text(Reformulate)], g, None)
      else Answer(lang, lead, i, text, g, Sanitize(lang.lexicon, i.extraction.value, text))
  }

  function Turn(lang: Lang, lead: LeadRow, i: TurnInput): TurnOutput {
    Respond(lang, lead, i, lang.plainDigits(i.rawText), GuardrailOf(lang, lead, i))
  }

  function TurnCtx(lang: Lang, lead: LeadRow, w: World, text: string, g: Guardrail, e: Extraction): Ctx {
    var effective := Effective(lead, g);
    Ctx(lang, w, effective.(turnCount := effective.turnCount + 1), text, e)
  }

  /** The row with what a handler's search recorded. */
  function Recorded(lead: LeadRow, r: HandlerResult): LeadRow {
    if r.recorded.Some? then lead.(lastSearchIds := r.recorded.value) else lead
  }

  /** A handler's result sent and written back. */
  function Conclude(row: LeadRow, r: HandlerResult, g: Guardrail, turnCount: nat, name: Option<string>, now: Time)
    : TurnOutput
  {
    TurnOutput(Persist(row, r, turnCount, name, now), Sendable(Apology(g) + r.actions, row.lastSearchIds), g, Some(r))
  }

  /** A turn that reaches a handler. */
  function Answer(lang: Lang, lead: LeadRow, i: TurnInput, text: string, g: Guardrail, e: Extraction): TurnOutput {
    var ctx := TurnCtx(lang, lead, i.world, text, g, e);
    var r := Resolve(ctx, TurnFilters(lang, ctx.lead.filters, e, text, ctx.lead.turnCount));
    Conclude(Recorded(Stored(lead, g), r), r, g, ctx.lead.turnCount, e.name, i.now)
  }
}
