/** What single turns and admin actions leave behind, in the row's own fields and in the
    messages themselves. */
module TurnEffects {
  import opened Common
  import opened Strings
  import opened PropertySearch
  import opened SearchOrder
  import opened ZoneText
  import opened Lead
  import opened Handlers
  import opened Engine
  import opened HandlerFacts
  import opened ConversationRuns
  import opened ConversationResults

  /** A turn the chat lets happen. */
  ghost predicate Possible(c: Chat, i: TurnInput) { c.clock <= i.now && i.world.Valid() }

  /** The text as the guardrails read it. */
  function Read(lang: Lang, i: TurnInput): string { Trim(lang.plainDigits(i.rawText)) }

  lemma OneMessageOut(a: Action, b: Action)
    ensures BotMessages([a]) == [FromBot(a)] && BotMessages([a, b]) == [FromBot(a), FromBot(b)]
  {
    assert [a][..0] == [] && [a, b][..1] == [a];
    assert BotMessages([]) == [];
  }

  // ----- the guardrails -----

  /** A text that opts out is obeyed in whatever other state the lead is, a handoff
      included: the opt-out is stored with its date, nothing else changes, and the lead
      gets exactly the confirmation. */
  lemma OptOutIsWritten(lang: Lang, c: Chat, i: TurnInput)
    requires Possible(c, i) && c.lead.state != OPTED_OUT && lang.optsOut(Read(lang, i))
    ensures Next(lang, c, BotTurn(i)) == c.(
      lead := c.lead.(state := OPTED_OUT, optedOutAt := Some(i.now)), clock := i.now,
      outbox := c.outbox + [FromBot(Text(OptOutConfirmation))])
  {
    OneMessageOut(Text(OptOutConfirmation), Text(OptOutConfirmation));
  }

  /** So from then on, in every run, the lead stays opted out since that turn, and apart from
      what was already under way the confirmation is the last message it ever gets. */
  lemma OptOutTextEndsIt(lang: Lang, c: Chat, i: TurnInput, run: seq<Step>)
    requires Possible(c, i) && c.lead.state != OPTED_OUT && lang.optsOut(Read(lang, i))
    ensures var d := Exec(lang, Next(lang, c, BotTurn(i)), run);
      && d.lead.state == OPTED_OUT && d.lead.optedOutAt == Some(i.now)
      && c.outbox + [FromBot(Text(OptOutConfirmation))] <= d.outbox
      && |d.outbox| <= |c.outbox| + 1 + |c.committed| + |c.replying|
  {
    OptOutIsWritten(lang, c, i);
    OptedOutIsFinal(lang, Next(lang, c, BotTurn(i)), run);
  }

  /** A text that asks for a human hands the lead off, dated now, with the farewell alone. */
  lemma HumanIsCalled(lang: Lang, c: Chat, i: TurnInput)
    requires Possible(c, i) && c.lead.state != OPTED_OUT && c.lead.state != HUMAN_HANDOFF
    requires lang.asksHuman(Read(lang, i)) && !lang.optsOut(Read(lang, i))
    ensures Next(lang, c, BotTurn(i)) == c.(
      lead := c.lead.(state := HUMAN_HANDOFF, handoffAt := Some(i.now)), clock := i.now,
      outbox := c.outbox + [FromBot(Text(HandoffFarewell))])
  {
    OneMessageOut(Text(HandoffFarewell), Text(HandoffFarewell));
  }

  /** In the 48 hours after a handoff a turn does nothing, unless its text opts out. */
  lemma HandoffIsLeftAlone(lang: Lang, c: Chat, i: TurnInput, at: Time)
    requires Possible(c, i) && c.lead.state == HUMAN_HANDOFF && c.lead.handoffAt == Some(at)
    requires i.now < at + 48 * 60 * 60 * 1000 && !lang.optsOut(Read(lang, i))
    ensures Next(lang, c, BotTurn(i)) == c.(clock := i.now)
  {
    assert GuardrailOf(lang, c.lead, i) == Silenced;
    assert BotMessages([]) == [] && c.outbox + [] == c.outbox;
  }

  lemma UnreadResponse(lang: Lang, lead: LeadRow, i: TurnInput, text: string, g: Guardrail)
    requires i.extraction.None?
    ensures g == Continue ==>
      Respond(lang, lead, i, text, g)
      == TurnOutput(lead.(lastMessageAt := Some(i.now), turnCount := lead.turnCount + 1), [Text(Reformulate)], g, None)
    ensures g == TimeoutRelease ==>
      Respond(lang, lead, i, text, g)
      == TurnOutput(
        lead.(state := if lead.lastSearchIds == [] then QUALIFICATION else SEARCH_MATCH, handoffAt := None,
              lastMessageAt := Some(i.now), turnCount := lead.turnCount + 1),
        [Text(TimeoutApology), Text(Reformulate)], g, None)
  {
    assert [] + [Text(Reformulate)] == [Text(Reformulate)];
    assert [Text(TimeoutApology)] + [Text(Reformulate)] == [Text(TimeoutApology), Text(Reformulate)];
  }

  /** What a turn does to the chat. */
  lemma AfterPossible(lang: Lang, c: Chat, i: TurnInput, out: TurnOutput)
    requires Possible(c, i) && out == Respond(lang, c.lead, i, lang.plainDigits(i.rawText), GuardrailOf(lang, c.lead, i))
    ensures var d := Next(lang, c, BotTurn(i)); d.lead == out.lead && d.outbox == c.outbox + BotMessages(out.sent)
  {
  }

  /** A turn whose text yields nothing asks to say it again and counts, and changes nothing
      else of a lead that is with the bot. */
  lemma UnreadTurn(lang: Lang, c: Chat, i: TurnInput)
    requires Possible(c, i) && i.extraction.None? && GuardrailOf(lang, c.lead, i) == Continue
    ensures var d := Next(lang, c, BotTurn(i));
      && d.lead == c.lead.(lastMessageAt := Some(i.now), turnCount := c.lead.turnCount + 1)
      && d.outbox == c.outbox + [FromBot(Text(Reformulate))]
  {
    var text := lang.plainDigits(i.rawText);
    OneMessageOut(Text(Reformulate), Text(Reformulate));
    UnreadResponse(lang, c.lead, i, text, Continue);
    AfterPossible(lang, c, i, Respond(lang, c.lead, i, text, Continue));
  }

  /** One whose handoff is over goes back to the bot, with an apology first. */
  lemma UnreadAfterHandoff(lang: Lang, c: Chat, i: TurnInput)
    requires Possible(c, i) && i.extraction.None? && GuardrailOf(lang, c.lead, i) == TimeoutRelease
    ensures var d := Next(lang, c, BotTurn(i));
      && d.lead == c.lead.(
        state := if c.lead.lastSearchIds == [] then QUALIFICATION else SEARCH_MATCH, handoffAt := None,
        lastMessageAt := Some(i.now), turnCount := c.lead.turnCount + 1)
      && d.outbox == c.outbox + [FromBot(Text(TimeoutApology)), FromBot(Text(Reformulate))]
  {
    var text := lang.plainDigits(i.rawText);
    OneMessageOut(Text(TimeoutApology), Text(Reformulate));
    UnreadResponse(lang, c.lead, i, text, TimeoutRelease);
    AfterPossible(lang, c, i, Respond(lang, c.lead, i, text, TimeoutRelease));
  }

  /** A turn on a handoff whose 48 hours are over, if it neither opts out nor is unread,
      begins with the apology and goes on as a bot turn: in the results if there are any,
      else in qualification. */
  lemma TimedOutHandoffIsAnswered(lang: Lang, c: Chat, i: TurnInput, at: Time)
    requires Reached(lang, c) && Possible(c, i) && i.extraction.Some?
    requires c.lead.state == HUMAN_HANDOFF && c.lead.handoffAt == Some(at)
    requires i.now >= at + 48 * 60 * 60 * 1000 && !lang.optsOut(Read(lang, i))
    ensures HandlerTurn(lang, c, i)
    ensures Turn(lang, c.lead, i).sent == [Text(TimeoutApology)] + Turn(lang, c.lead, i).result.value.actions
    ensures Seen(lang, c.lead, i).lead.state == if c.lead.lastSearchIds == [] then QUALIFICATION else SEARCH_MATCH
  {
    NothingIsBlocked(lang, c, i);
  }

  /** The row an expired session starts from: every filter and commercial answer empty, no
      results, nothing greeted or asked; the name and the dates of opt-out, handoff and
      last message stay, as does the cached score. */
  predicate StartsOver(before: LeadRow, row: LeadRow) {
    && row.state == GREETING
    && row.filters == Filters(None, [], None, None, None, None, None, None, [], None)
    && row.commercial == Commercial(None, None, None, None, [], None, None, false)
    && row.lastSearchIds == [] && row.preferredDay.None? && row.greetedAt.None? && row.nameAskedAt.None?
    && row.name == before.name && row.optedOutAt == before.optedOutAt && row.handoffAt == before.handoffAt
    && row.score == before.score && row.scoreLabel == before.scoreLabel
  }

  /** That row is what the handler of the expiring turn works from, in the first turn of the
      new session, or what is stored if the turn is unread. */
  lemma ExpiredStartsOver(lang: Lang, c: Chat, i: TurnInput)
    requires Possible(c, i) && GuardrailOf(lang, c.lead, i) == SessionExpired
    ensures i.extraction.Some? ==>
      StartsOver(c.lead, Seen(lang, c.lead, i).lead) && Seen(lang, c.lead, i).lead.turnCount == 1
    ensures i.extraction.None? ==>
      && StartsOver(c.lead, Next(lang, c, BotTurn(i)).lead) && Next(lang, c, BotTurn(i)).lead.turnCount == 1
      && Next(lang, c, BotTurn(i)).outbox == c.outbox + [FromBot(Text(Reformulate))]
  {
    OneMessageOut(Text(Reformulate), Text(Reformulate));
    assert [] + [Text(Reformulate)] == [Text(Reformulate)];
  }

  // ----- manual sends -----

  /** What the bot said, of all that went out. */
  function BotSaid(outbox: seq<Sent>): seq<Action> {
    if outbox == [] then []
    else
      var last := outbox[|outbox| - 1];
      BotSaid(outbox[..|outbox| - 1]) + if last.FromBot? then [last.action] else []
  }

  lemma BotSaidSnoc(outbox: seq<Sent>, s: Sent)
    ensures BotSaid(outbox + [s]) == BotSaid(outbox) + if s.FromBot? then [s.action] else []
  {
    assert (outbox + [s])[..|outbox|] == outbox;
  }

  predicate HandedOffSince(c: Chat, at: Time) {
    at <= c.clock && c.lead.state == HUMAN_HANDOFF && c.lead.handoffAt.Some? && c.lead.handoffAt.value >= at
  }

  /** Neither an admin's release or opt-out, nor a turn that opts out or comes at `end` or
      later. */
  predicate LeavesHandoff(lang: Lang, step: Step, end: Time) {
    && !step.AdminRelease? && !step.AdminOptOut?
    && (step.BotTurn? ==> step.input.now < end && !lang.optsOut(Read(lang, step.input)))
  }

  lemma HandedOffStep(lang: Lang, c: Chat, at: Time, step: Step)
    requires HandedOffSince(c, at) && LeavesHandoff(lang, step, at + 48 * 60 * 60 * 1000)
    ensures HandedOffSince(Next(lang, c, step), at) && BotSaid(Next(lang, c, step).outbox) == BotSaid(c.outbox)
  {
    match step
    case BotTurn(i) => if Possible(c, i) { HandoffIsLeftAlone(lang, c, i, c.lead.handoffAt.value); }
    case ManualEnqueue(n) => BotSaidSnoc(c.outbox, Manual(n));
    case UnsupportedReply(n) => BotSaidSnoc(c.outbox, Unsupported(n));
    case Stamp(_) => case ManualCheck(_) => case ManualCommit(_, _) => case UnsupportedCheck(_) =>
    case AdminRelease => case AdminOptOut(_) =>
  }

  lemma {:induction false} HandedOffRun(lang: Lang, c: Chat, at: Time, run: seq<Step>)
    requires HandedOffSince(c, at)
    requires forall k :: 0 <= k < |run| ==> LeavesHandoff(lang, run[k], at + 48 * 60 * 60 * 1000)
    ensures HandedOffSince(Exec(lang, c, run), at) && BotSaid(Exec(lang, c, run).outbox) == BotSaid(c.outbox)
    decreases |run|
  {
    if run != [] {
      HandedOffRun(lang, c, at, run[..|run| - 1]);
      HandedOffStep(lang, Exec(lang, c, run[..|run| - 1]), at, run[|run| - 1]);
    }
  }

  /** A manual send that commits hands the lead off, dated then even over an earlier
      handoff, and the bot says nothing in the 48 hours after it, whatever happens but an
      admin's release or opt-out or the lead's own. */
  lemma ManualSendSilencesTheBot(lang: Lang, c: Chat, n: RequestId, now: Time, run: seq<Step>)
    requires n in c.checked && c.clock <= now && c.lead.state != OPTED_OUT
    requires forall k :: 0 <= k < |run| ==> LeavesHandoff(lang, run[k], now + 48 * 60 * 60 * 1000)
    ensures var d := Next(lang, c, ManualCommit(n, now));
      && d.lead == c.lead.(state := HUMAN_HANDOFF, handoffAt := Some(now)) && n in d.committed
      && Exec(lang, d, run).lead.state == HUMAN_HANDOFF
      && BotSaid(Exec(lang, d, run).outbox) == BotSaid(c.outbox)
  {
    HandedOffRun(lang, Next(lang, c, ManualCommit(n, now)), now, run);
  }

  // ----- what a turn stores -----

  /** A name given is stored if the lead had none, and a name known stays. */
  lemma NameIsKept(lang: Lang, c: Chat, i: TurnInput)
    requires Reached(lang, c) && HandlerTurn(lang, c, i)
    ensures var before, given, after := c.lead.name, Seen(lang, c.lead, i).e.name, Turn(lang, c.lead, i).lead.name;
      && (before.Some? && before.value != "" ==> after == before)
      && ((before.None? || before.value == "") && given.Some? && given.value != "" ==> after == given)
      && (given.None? || given.value == "" ==> after == before)
  {
    var ctx, f, r := Parts(lang, c, i);
    WrittenName(Stored(c.lead, GuardrailOf(lang, c.lead, i)), r, ctx.lead.turnCount, ctx.e.name, i.now);
  }

  lemma WrittenName(stored: LeadRow, r: HandlerResult, turnCount: nat, given: Option<string>, now: Time)
    ensures var before, after := stored.name, ConversationRuns.Written(stored, r, turnCount, given, now).name;
      && (before.Some? && before.value != "" ==> after == before)
      && ((before.None? || before.value == "") && given.Some? && given.value != "" ==> after == given)
      && (given.None? || given.value == "" ==> after == before)
  {
  }

  lemma AnswerCounts(lang: Lang, lead: LeadRow, i: TurnInput, text: string, g: Guardrail, e: Extraction)
    ensures var out := Answer(lang, lead, i, text, g, e);
      && out.lead.lastMessageAt == Some(i.now)
      && out.lead.turnCount == if g == SessionExpired then 1 else lead.turnCount + 1
  {
  }

  /** Every turn a handler answers counts, and is the last one dated. */
  lemma TurnIsCounted(lang: Lang, c: Chat, i: TurnInput)
    requires HandlerTurn(lang, c, i)
    ensures var out := Turn(lang, c.lead, i);
      && out.lead.lastMessageAt == Some(i.now)
      && out.lead.turnCount == if GuardrailOf(lang, c.lead, i) == SessionExpired then 1 else c.lead.turnCount + 1
  {
    var text, g := lang.plainDigits(i.rawText), GuardrailOf(lang, c.lead, i);
    RespondAnswers(lang, c.lead, i, text, g);
    AnswerCounts(lang, c.lead, i, text, g, Sanitize(lang.lexicon, i.extraction.value, text));
  }

  /** The turn goes into the commercial questions: the lead has just chosen a ficha, or is in
      that stage and brings nothing new to search for. */
  predicate TakesAnswers(ctx: Ctx, f: Filters, r: HandlerResult) {
    r.entered || (!ctx.lang.buyingSignal(ctx.text) && !IsRedirectable(ctx, f)
                  && ctx.lead.state == COMMERCIAL_QUALIFICATION && !HasNewFilterData(ctx.e))
  }

  predicate UpdatesAnswers(ctx: Ctx, f: Filters, r: HandlerResult) {
    var u, e := r.update, ctx.e;
    && (if TakesAnswers(ctx, f, r)
        then u.guarantee == e.guarantee && u.payment == e.paymentMethod && u.timeline == e.timeline
             && u.hasPropertyToSell == e.hasPropertyToSell
        else u.guarantee.None? && u.payment.None? && u.timeline.None? && u.hasPropertyToSell.None?)
    && u.buyingSignal == ctx.lang.buyingSignal(ctx.text)
  }

  predicate NoAnswers(r: HandlerResult) {
    var u := r.update;
    && u.guarantee.None? && u.payment.None? && u.timeline.None? && u.hasPropertyToSell.None? && !u.buyingSignal
    && !r.entered
  }

  lemma SearchTakesNoAnswers(ctx: Ctx, f: Filters, note: bool)
    requires f.operation.Some?
    ensures NoAnswers(NoteRooms(TriggerSearch(ctx, f), note))
  {
    var o := ctx.world.search(FiltersToSearch(ctx, f));
    assert NoAnswers(ShowResults(ctx, f, o));
    assert NoAnswers(ExplainNoResults(ctx, f, o.relaxed));
  }

  lemma AskingTakesNoAnswers(ctx: Ctx, f: Filters, note: bool)
    ensures NoAnswers(AskMissingFilter(ctx, f, note))
    ensures f.operation.Some? ==> NoAnswers(TriggerTeaser(ctx, f))
  {
    assert NoAnswers(AskMissingFilter(ctx, f, false));
  }

  lemma LiveTakesNoAnswers(ctx: Ctx, f: Filters)
    ensures NoAnswers(QualifyLive(ctx, f))
  {
    var roomsNote := ctx.e.roomsInferred && f.minRooms.Some?;
    if f.operation.Some? { SearchTakesNoAnswers(ctx, f, roomsNote); }
    AskingTakesNoAnswers(ctx, f, roomsNote);
  }

  lemma QualificationTakesNoAnswers(ctx: Ctx, f: Filters)
    ensures NoAnswers(Qualification(ctx, f))
  {
    if f.neighborhoods != [] { assert NoAnswers(SuggestAlternativeZones(ctx, f)); }
    LiveTakesNoAnswers(ctx, f);
  }

  lemma GreetingTakesNoAnswers(ctx: Ctx, f: Filters)
    ensures NoAnswers(GreetingHandler(ctx, f))
  {
    QualificationTakesNoAnswers(ctx, f);
    if f.neighborhoods != [] { assert NoAnswers(SuggestAlternativeZones(ctx, f)); }
  }

  predicate TakesThem(ctx: Ctx, r: HandlerResult) {
    var u, e := r.update, ctx.e;
    && u.guarantee == e.guarantee && u.payment == e.paymentMethod && u.timeline == e.timeline
    && u.hasPropertyToSell == e.hasPropertyToSell && !u.buyingSignal
  }

  lemma ProcessTakesThem(ctx: Ctx, f: Filters, asked: seq<Field>, chosen: Option<Option<Id>>, entered: bool)
    ensures var r := ProcessCommercial(ctx, f, asked, chosen).(entered := entered); TakesThem(ctx, r) && r.entered == entered
  {
  }

  lemma SearchMatchTakesAnswers(ctx: Ctx, f: Filters)
    ensures var r := SearchMatchHandler(ctx, f); if r.entered then TakesThem(ctx, r) else NoAnswers(r)
  {
    QualificationTakesNoAnswers(ctx, f);
    var index := ctx.e.interestedPropertyIndex;
    if index.Some? {
      var chosen := ResolveChosen(ctx.world, ctx.lead.lastSearchIds, index.value);
      if chosen.Some? { ProcessTakesThem(ctx, f, [], Some(Some(chosen.value.id)), true); }
    }
  }

  lemma ResolveTakesAnswers(ctx: Ctx, f: Filters)
    requires Active(ctx.lead)
    ensures UpdatesAnswers(ctx, f, Resolve(ctx, f))
  {
    if !ctx.lang.buyingSignal(ctx.text) && !IsRedirectable(ctx, f) {
      match ctx.lead.state
      case GREETING => GreetingTakesNoAnswers(ctx, f);
      case QUALIFICATION => QualificationTakesNoAnswers(ctx, f);
      case SEARCH_MATCH => SearchMatchTakesAnswers(ctx, f);
      case COMMERCIAL_QUALIFICATION =>
        QualificationTakesNoAnswers(ctx, f);
        ProcessTakesThem(ctx, f, ctx.lead.commercial.asked, None, false);
    }
  }

  lemma WrittenAnswers(stored: LeadRow, r: HandlerResult, turnCount: nat, name: Option<string>, now: Time)
    ensures var u, before, after := r.update, stored.commercial,
                                    ConversationRuns.Written(stored, r, turnCount, name, now).commercial;
      && after.guarantee == (if u.guarantee.Some? then u.guarantee else before.guarantee)
      && after.payment == (if u.payment.Some? then u.payment else before.payment)
      && after.timeline == (if u.timeline.Some? then u.timeline else before.timeline)
      && after.hasPropertyToSell == (if u.hasPropertyToSell.Some? then u.hasPropertyToSell else before.hasPropertyToSell)
      && after.buyingSignalAt == (if u.buyingSignal then Some(now) else before.buyingSignalAt)
  {
  }

  /** Each commercial answer given while those questions are open is the row's afterwards,
      and no other turn touches one; a sign of buying is dated now. */
  lemma AnswersAreStored(lang: Lang, c: Chat, i: TurnInput)
    requires Reached(lang, c) && HandlerTurn(lang, c, i)
    ensures var ctx, out := Seen(lang, c.lead, i), Turn(lang, c.lead, i);
      var e, before, after := ctx.e, ctx.lead.commercial, out.lead.commercial;
      var takes := TakesAnswers(ctx, Given(ctx), out.result.value);
      && after.guarantee == (if takes && e.guarantee.Some? then e.guarantee else before.guarantee)
      && after.payment == (if takes && e.paymentMethod.Some? then e.paymentMethod else before.payment)
      && after.timeline == (if takes && e.timeline.Some? then e.timeline else before.timeline)
      && after.hasPropertyToSell
         == (if takes && e.hasPropertyToSell.Some? then e.hasPropertyToSell else before.hasPropertyToSell)
      && after.buyingSignalAt == (if lang.buyingSignal(ctx.text) then Some(i.now) else before.buyingSignalAt)
  {
    var ctx, f, r := Parts(lang, c, i);
    ResolveTakesAnswers(ctx, f);
    WrittenAnswers(Stored(c.lead, GuardrailOf(lang, c.lead, i)), r, ctx.lead.turnCount, ctx.e.name, i.now);
  }

  // ----- beside the turns -----

  /** A reply to an unsupported message is only begun for a lead that is with the bot, and a
      manual send only for one that has not opted out. */
  lemma RepliesAreForThoseListening(lang: Lang, c: Chat, step: Step)
    ensures forall n :: n in Next(lang, c, step).replying && n !in c.replying ==>
      c.lead.state != OPTED_OUT && c.lead.state != HUMAN_HANDOFF
    ensures forall n :: n in Next(lang, c, step).checked && n !in c.checked ==> c.lead.state != OPTED_OUT
    ensures forall n :: n in Next(lang, c, step).committed && n !in c.committed ==>
      c.lead.state != OPTED_OUT && n in c.checked
  {
  }

  /** What admins do is done: an opt-out with its date, keeping an earlier one, and a release
      to the results if there are any, else to qualification. */
  lemma AdminsAreObeyed(lang: Lang, c: Chat, now: Time)
    requires c.clock <= now
    ensures var lead := Next(lang, c, AdminOptOut(now)).lead;
      lead.state == OPTED_OUT && (c.lead.state != OPTED_OUT ==> lead.optedOutAt == Some(now))
      && (c.lead.state == OPTED_OUT ==> lead == c.lead)
    ensures Next(lang, c, AdminRelease).lead ==
      if c.lead.state != HUMAN_HANDOFF then c.lead
      else c.lead.(state := if c.lead.lastSearchIds == [] then QUALIFICATION else SEARCH_MATCH, handoffAt := None)
  {
  }
}
