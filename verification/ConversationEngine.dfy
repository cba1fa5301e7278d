/** The engine and its handlers as they run: the lead row is read at the start, the search
    service writes to it in the middle of a handler, messages are sent one by one and the
    result is written back field by field. */
module ConversationEngine {
  import opened Common
  import opened Strings
  import opened PropertySearch
  import opened ZoneText
  import opened Lead
  import opened Handlers
  import opened Engine

  /** The numbered fichas pushed one by one. */
  method PushFichas(ps: seq<Property>, before: seq<Action>) returns (actions: seq<Action>)
    ensures actions == before + Fichas(ps)
  {
    actions := before;
    for n := 0 to |ps|
      invariant actions == before + Fichas(ps[..n])
    {
      actions := actions + [Ficha(n + 1, ps[n])];
      assert ps[..n + 1][..n] == ps[..n];
    }
    assert ps[..|ps|] == ps;
  }

  /** The scan for the next commercial question. */
  method ScanFields(op: Option<Operation>, c: Commercial, asked: seq<Field>) returns (next: Option<Field>)
    ensures next == NextFieldToAsk(op, c, asked)
  {
    if |asked| >= MAX_COMMERCIAL_QUESTIONS { return None; }
    var order := QuestionOrder(op);
    for n := 0 to |order|
      invariant FirstOpen(order, c, asked) == FirstOpen(order[n..], c, asked)
    {
      assert order[n..][1..] == order[n + 1..];
      if order[n] in asked { continue; }
      if Answered(c, order[n]) { continue; }
      return Some(order[n]);
    }
    return None;
  }

  class ConversationEngine {
    const lang: Lang
    var lead: LeadRow
    var outbox: seq<Action>

    constructor (lang: Lang)
      ensures this.lang == lang && lead == NEW_LEAD && outbox == []
    {
      this.lang, lead, outbox := lang, NEW_LEAD, [];
    }

    // ----- the search service's writes -----

    method SearchAndRecord(w: World, f: SearchFilters) returns (o: SearchOutcome)
      modifies `lead
      ensures o == w.search(f)
      ensures lead == if o.properties != [] then old(lead).(lastSearchIds := Ids(o.properties)) else old(lead)
    {
      o := w.search(f);
      if |o.properties| > 0 { lead := lead.(lastSearchIds := Ids(o.properties)); }
    }

    method TeaserSearch(w: World, op: Operation, zones: seq<string>) returns (ps: seq<Property>)
      modifies `lead
      ensures ps == w.teaser(op, zones) && lead == old(lead).(lastSearchIds := Ids(ps))
    {
      ps := w.teaser(op, zones);
      lead := lead.(lastSearchIds := Ids(ps));
    }

    // ----- handlers -----

    method TriggerTeaser(ctx: Ctx, f: Filters) returns (r: HandlerResult)
      requires f.operation.Some?
      modifies `lead
      ensures r == Handlers.TriggerTeaser(ctx, f) && lead == Recorded(old(lead), r)
    {
      var ps := TeaserSearch(ctx.world, f.operation.value, f.neighborhoods);
      var searched := Some((f.operation.value, f.neighborhoods));
      if |ps| == 0 {
        return AskMissingFilter(ctx, f, false).(recorded := Some([]), searched := searched);
      }
      var actions := PushFichas(ps, [Text(TeaserIntro)]);
      actions := actions + [Text(TeaserClosing)];
      var askName := ShouldAskName(ctx.lead);
      if askName { actions := actions + [Text(NameQuestion)]; }
      return Reply(actions, SEARCH_MATCH, Some(f)).(
        markNameAsked := askName, recorded := Some(Ids(ps)), searched := searched);
    }

    /** The messages are pushed one by one; with nothing found there is one. */
    method TriggerSearch(ctx: Ctx, f: Filters) returns (r: HandlerResult)
      requires f.operation.Some?
      modifies `lead
      ensures r == Handlers.TriggerSearch(ctx, f) && lead == Recorded(old(lead), r)
    {
      var previous := ctx.lead.lastSearchIds;
      var o := SearchAndRecord(ctx.world, FiltersToSearch(ctx, f));
      var first := ctx.lead.state != SEARCH_MATCH;
      if |o.properties| == 0 {
        r := ExplainNoResults(ctx, f, o.relaxed);
      } else if !first && o.relaxed == NotRelaxed && Ids(o.properties) == previous {
        r := Reply([Text(SameResults)], SEARCH_MATCH, Some(f));
      } else {
        var actions := if first then [Text(UnderstandingEcho)] else [];
        actions := actions + [Text(if o.relaxed != NotRelaxed then NoResults(o.relaxed) else SearchIntro)];
        actions := PushFichas(o.properties, actions);
        actions := actions + [Text(SearchClosing)];
        var nameAsked := ShouldAskName(ctx.lead);
        if nameAsked { actions := actions + [Text(NameQuestion)]; }
        r := Reply(actions, SEARCH_MATCH, Some(f)).(markNameAsked := nameAsked);
        assert r == ShowResults(ctx, f, o);
      }
      r := r.(searched := Some((f.operation.value, f.neighborhoods)),
              recorded := if o.properties != [] then Some(Ids(o.properties)) else None);
    }

    method Qualify(ctx: Ctx, f: Filters) returns (r: HandlerResult)
      modifies `lead
      ensures r == Qualification(ctx, f) && lead == Recorded(old(lead), r)
    {
      if |f.neighborhoods| > 0 {
        var kept := ZonesWithStock(ctx.world, f.neighborhoods, f.operation);
        var gone := Without(f.neighborhoods, kept);
        if |gone| == |f.neighborhoods| { return SuggestAlternativeZones(ctx, f); }
        if |gone| > 0 {
          return Reply([Text(PartialZoneDrop(gone, kept))], QUALIFICATION, Some(f.(neighborhoods := kept)));
        }
      }
      r := SearchOrAsk(ctx, f);
    }

    /** The rest of it, once every zone has stock. */
    method SearchOrAsk(ctx: Ctx, f: Filters) returns (r: HandlerResult)
      modifies `lead
      ensures r == QualifyLive(ctx, f) && lead == Recorded(old(lead), r)
    {
      if ctx.e.maxPrice.Some? && f.operation == Some(SALE) && IsSuspiciousSalePrice(f.maxPrice, f.currency) {
        return Reply([Text(CurrencyQuestion)], QUALIFICATION, Some(f));
      }
      var roomsNote := ctx.e.roomsInferred && f.minRooms.Some?;
      if f.operation.Some? && CountFilledCoreFilters(f) >= 2 {
        r := TriggerSearch(ctx, f);
        if roomsNote && |r.actions| > 0 && r.actions[0].Say? {
          r := r.(actions := r.actions[0 := r.actions[0].(roomsNote := true)]);
        }
        return;
      }
      if ctx.lead.state != SEARCH_MATCH && f.operation.Some? && |f.neighborhoods| > 0 {
        r := TriggerTeaser(ctx, f);
        return;
      }
      return AskMissingFilter(ctx, f, roomsNote);
    }

    method Greet(ctx: Ctx, f: Filters) returns (r: HandlerResult)
      modifies `lead
      ensures r == GreetingHandler(ctx, f) && lead == Recorded(old(lead), r)
    {
      var alreadyGreeted := ctx.lead.greetedAt.Some?;
      if f.operation.None? {
        if |f.neighborhoods| > 0 {
          var hasStock := HasStockInZone(ctx.world.table, ctx.world.tenant, f.neighborhoods, None);
          if !hasStock {
            var suggestion := SuggestAlternativeZones(ctx, f);
            return suggestion.(actions := Greeted(ctx, suggestion.actions), nextState := GREETING, markGreeted := true);
          }
        }
        if !alreadyGreeted { return Reply([Text(Greeting)], GREETING, Some(f)).(markGreeted := true); }
        return Reply([Text(OperationQuestion)], GREETING, Some(f));
      }
      if ctx.lead.name.None? && ctx.lead.nameAskedAt.None? {
        return Reply(Greeted(ctx, [Text(NameQuestion)]), QUALIFICATION, Some(f)).(markGreeted := true, markNameAsked := true);
      }
      r := Qualify(ctx, f);
      if !alreadyGreeted { r := r.(actions := [Text(Greeting)] + r.actions, markGreeted := true); }
    }

    method MatchSearch(ctx: Ctx, f: Filters) returns (r: HandlerResult)
      modifies `lead
      ensures r == SearchMatchHandler(ctx, f) && lead == Recorded(old(lead), r)
    {
      var index, ids := ctx.e.interestedPropertyIndex, ctx.lead.lastSearchIds;
      var choiceConfirmed := index.Some? && ctx.lang.confirmsChoice(ctx.text);
      if index.Some? && !choiceConfirmed {
        if HasNewFilterData(ctx.e) {
          r := Qualify(ctx, f);
          return;
        }
        return Reply([Text(WhichFicha)], SEARCH_MATCH, None);
      }
      if index.Some? {
        var property := ResolveChosen(ctx.world, ids, index.value);
        if property.Some? {
          if HasUnansweredQuestion(ctx) { return AnswerQuestionAbout(property.value); }
          return EnterCommercial(ctx, property.value, f);
        }
        return Reply([Text(UnknownFicha)], SEARCH_MATCH, None);
      }
      if HasUnansweredQuestion(ctx) && |ids| == 1 {
        var property := ResolveChosen(ctx.world, ids, 1);
        if property.Some? { return AnswerQuestionAbout(property.value); }
      }
      r := Qualify(ctx, f);
    }

    // ----- the engine -----

    method ResolveResult(ctx: Ctx, f: Filters) returns (r: HandlerResult)
      modifies `lead
      ensures r == Resolve(ctx, f) && lead == Recorded(old(lead), r)
    {
      var delegatesZone := |f.neighborhoods| == 0 && ctx.lang.delegatesZone(ctx.text);
      if ctx.lang.buyingSignal(ctx.text) {
        return Reply([Text(BuyingSignalReply)], ctx.lead.state, None).(update := NO_UPDATE.(buyingSignal := true));
      }
      var isRedirectable := !delegatesZone && ctx.lead.state != GREETING
        && (ctx.e.intent == OffTopic || (ctx.e.intent == AskQuestion && !HasNewFilterData(ctx.e)));
      if isRedirectable { return Reply([Text(OffTopicRedirect)], ctx.lead.state, None); }
      match ctx.lead.state
      case GREETING => r := Greet(ctx, f);
      case QUALIFICATION => r := Qualify(ctx, f);
      case SEARCH_MATCH => r := MatchSearch(ctx, f);
      case COMMERCIAL_QUALIFICATION =>
        if HasNewFilterData(ctx.e) {
          r := Qualify(ctx, f);
        } else {
          r := ProcessCommercial(ctx, f, ctx.lead.commercial.asked, None);
        }
      case SCHEDULING => r := SchedulingHandler(ctx);
      case _ => r := Reply([], ctx.lead.state, None);
    }

    method SendActions(actions: seq<Action>)
      modifies `outbox
      ensures outbox == old(outbox) + Sendable(actions, lead.lastSearchIds)
    {
      for n := 0 to |actions|
        invariant outbox == old(outbox) + Sendable(actions[..n], lead.lastSearchIds)
      {
        var a := actions[n];
        assert actions[..n + 1][..n] == actions[..n];
        if a.Ficha? && a.property.id !in lead.lastSearchIds { continue; }
        outbox := outbox + [a];
      }
      assert actions[..|actions|] == actions;
    }

    /** The columns of the update, one by one. */
    method Assign(r: HandlerResult, turnCount: nat, nameFromThisTurn: Option<string>, now: Time) returns (data: LeadRow)
      ensures data == PersistFields(lead, r, turnCount, nameFromThisTurn, now)
    {
      data := lead.(state := r.nextState, lastMessageAt := Some(now), turnCount := turnCount);
      if HasName(nameFromThisTurn) && !HasName(lead.name) { data := data.(name := nameFromThisTurn); }
      if r.filterUpdates.Some? { data := data.(filters := r.filterUpdates.value); }
      if r.preferredDay.Some? { data := data.(preferredDay := r.preferredDay); }
      if r.markGreeted && lead.greetedAt.None? { data := data.(greetedAt := Some(now)); }
      if r.markNameAsked && lead.nameAskedAt.None? { data := data.(nameAskedAt := Some(now)); }
      data := data.(commercial := PersistCommercial(lead.commercial, r.update, now));
      if r.nextState == HUMAN_HANDOFF && lead.state != HUMAN_HANDOFF { data := data.(handoffAt := Some(now)); }
    }

    method PersistLeadUpdate(r: HandlerResult, turnCount: nat, nameFromThisTurn: Option<string>, now: Time)
      modifies `lead
      ensures lead == Persist(old(lead), r, turnCount, nameFromThisTurn, now)
    {
      var data := Assign(r, turnCount, nameFromThisTurn, now);
      var score, tag := CalculateLeadScore(ScoringView(lead, r, turnCount, nameFromThisTurn, now));
      lead := data.(score := Some(score), scoreLabel := Some(tag));
    }

    /** The row as the search left it is read again before sending and writing. */
    method SendAndPersist(r: HandlerResult, g: Guardrail, turnCount: nat, name: Option<string>, now: Time)
      modifies this
      ensures var out := Conclude(old(lead), r, g, turnCount, name, now);
        lead == out.lead && outbox == old(outbox) + out.sent
    {
      SendActions(Apology(g) + r.actions);
      PersistLeadUpdate(r, turnCount, name, now);
    }

    /** A turn that reaches a handler, which works from `ctx.lead`. */
    method AnswerTurn(i: TurnInput, text: string, g: Guardrail, e: Extraction, ctx: Ctx, ghost before: LeadRow)
      requires lead == Stored(before, g) && ctx == TurnCtx(lang, before, i.world, text, g, e)
      modifies this
      ensures var out := Answer(lang, before, i, text, g, e); lead == out.lead && outbox == old(outbox) + out.sent
    {
      var filters := MergeFilters(ctx.lead.filters, e);
      if e.maxPrice.Some? || e.currency.Some? { filters := filters.(priceMentionedAtTurn := Some(ctx.lead.turnCount)); }
      if |filters.offered| > 0 && |filters.neighborhoods| == 0 && lang.accepts(text) {
        filters := filters.(neighborhoods := filters.offered, offered := []);
      }
      assert filters == TurnFilters(lang, ctx.lead.filters, e, text, ctx.lead.turnCount);
      var r := ResolveResult(ctx, filters);
      SendAndPersist(r, g, ctx.lead.turnCount, e.name, i.now);
    }

    /** A turn that the guardrails let through; an expiry is written at once. */
    method RunTurn(i: TurnInput, text: string, g: Guardrail)
      requires (g == TimeoutRelease || g == SessionExpired || g == Continue) && i.extraction.Some?
      modifies this
      ensures var out := Answer(lang, old(lead), i, text, g, Sanitize(lang.lexicon, i.extraction.value, text));
        lead == out.lead && outbox == old(outbox) + out.sent
    {
      var before := lead;
      if g == SessionExpired { lead := ResetSession(lead); }
      var e := Sanitize(lang.lexicon, i.extraction.value, text);
      AnswerTurn(i, text, g, e, TurnCtx(lang, before, i.world, text, g, e), before);
    }

    /** The same when nothing could be extracted from the text. */
    method AskToReformulate(i: TurnInput, text: string, g: Guardrail)
      requires (g == TimeoutRelease || g == SessionExpired || g == Continue) && i.extraction.None?
      modifies this
      ensures var out := Respond(lang, old(lead), i, text, g); lead == out.lead && outbox == old(outbox) + out.sent
    {
      var effective := Effective(lead, g);
      SendTexts(Apology(g) + [Text(Reformulate)]);
      lead := effective.(lastMessageAt := Some(i.now), turnCount := effective.turnCount + 1);
    }

    method SendTexts(actions: seq<Action>)
      requires forall a :: a in actions ==> a.Say?
      modifies `outbox
      ensures outbox == old(outbox) + actions
    {
      AllSendable(actions, lead.lastSearchIds);
      SendActions(actions);
    }

    /** A turn of the bot: it writes the row and sends the messages of the turn function. */
    method HandleTurn(i: TurnInput)
      modifies this
      ensures var out := Turn(lang, old(lead), i); lead == out.lead && outbox == old(outbox) + out.sent
    {
      var text := lang.plainDigits(i.rawText);
      var g := Evaluate(lang, lead, text, i.now);
      if g == SessionExpired && i.openAppointment { g := Continue; }
      match g
      case OptOut =>
        SendTexts([Text(OptOutConfirmation)]);
        lead := lead.(state := OPTED_OUT, optedOutAt := Some(i.now));
      case ToHuman =>
        SendTexts([Text(HandoffFarewell)]);
        lead := lead.(state := HUMAN_HANDOFF, handoffAt := Some(i.now));
      case Silenced =>
      case _ =>
        if i.extraction.None? {
          AskToReformulate(i, text, g);
        } else {
          RunTurn(i, text, g);
        }
    }
  }

  lemma {:induction false} AllSendable(actions: seq<Action>, whitelist: seq<Id>)
    requires forall a :: a in actions ==> a.Say?
    ensures Sendable(actions, whitelist) == actions
    decreases |actions|
  {
    if actions != [] {
      var front, a := actions[..|actions| - 1], actions[|actions| - 1];
      assert actions == front + [a] && a in actions;
      AllSendable(front, whitelist);
    }
  }
}
