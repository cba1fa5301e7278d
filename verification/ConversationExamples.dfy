/** Runs from the start that show why the conditions of the results are there. */
module ConversationExamples {
  import opened Common
  import opened Strings
  import opened PropertySearch
  import opened ZoneText
  import opened Lead
  import opened Handlers
  import opened Engine
  import opened HandlerFacts
  import opened ConversationRuns
  import opened ConversationResults
  import opened Worlds

  /** A language of texts that say nothing but choices. */
  const PLAIN := Lang(
    Lexicon(c => [c], map[], {}, {}, s => s, s => Some(Immediate), s => None, s => None),
    s => s, s => false, s => false, s => false, s => false, s => false, s => true, s => None)

  const FLAT := Property(7, 0, ACTIVE, TEMP_RENT, 50.0, "USD", "centro", Some(2), false, None)

  /** A temporary rent of two rooms for up to 100. */
  const SEARCHES := RawExtraction(
    ProvideInfo, Some(TEMP_RENT), [], Some(100.0), None, Some(2), None, None, false, false, None, None, None, None,
    None, None, None)

  /** The first one, at once. */
  const PICKS_FIRST := RawExtraction(
    ShowInterest, None, [], None, None, None, None, None, false, false, None, Some(1), None, Some("ya"), None, None, None)

  lemma Extend(run: seq<Step>, c: Chat, step: Step) returns (longer: seq<Step>, d: Chat)
    requires Exec(PLAIN, START, run) == c
    ensures longer == run + [step] && d == Next(PLAIN, c, step) && Exec(PLAIN, START, longer) == d
  {
    longer, d := run + [step], Next(PLAIN, c, step);
    assert longer[..|run|] == run;
  }

  // ----- a world with one flat -----

  lemma OneFlat() returns (w: World)
    ensures w.Valid() && w.table == {FLAT} && w.tenant == 0
  {
    EveryTableHasAWorld({FLAT}, 0, 1.0);
    w :| w.table == {FLAT} && w.tenant == 0 && w.usdArs == 1.0 && w.Valid();
  }

  lemma SearchFindsFlat(w: World, f: SearchFilters)
    requires w.Valid() && w.table == {FLAT} && w.tenant == 0
    requires f.operation == TEMP_RENT && f.neighborhoods == [] && !CurrencyPinned(f)
    requires f.garage.None? && f.petsAllowed.None?
    ensures w.search(f).properties == [FLAT] && w.find(7) == Some(FLAT)
  {
    var s := w.search(f).properties;
    assert IsSearchAnswer(w.search(f), w.table, w.tenant, f, w.usdArs);
    SearchIsComplete(w.search(f), w.table, w.tenant, f, w.usdArs);
    assert FLAT in w.table && MeetsHardFilters(w.tenant, f, FLAT);
    DistinctCount(s);
    assert s[0] in s && s[0] == FLAT;
    assert (set p | p in s) == {FLAT};
  }

  // ----- a lead that has been shown it -----

  /** What the handler does with the search. */
  lemma SearchShowsFlat(w: World, ctx: Ctx)
    requires w.Valid() && w.table == {FLAT} && w.tenant == 0 && ctx.world == w && ctx.lang == PLAIN && ctx.text == "x"
    requires ctx.lead == NEW_LEAD.(state := QUALIFICATION, turnCount := 1)
    requires ctx.e == Sanitize(PLAIN.lexicon, SEARCHES, "x")
    ensures var f := Given(ctx);
      && f.operation == Some(TEMP_RENT) && f.maxPrice == Some(100.0)
      && var r := Resolve(ctx, f);
        && r.nextState == SEARCH_MATCH && r.recorded == Some([7]) && r.filterUpdates == Some(f) && r.update == NO_UPDATE
  {
    var f := Given(ctx);
    assert f == NO_FILTERS.(operation := Some(TEMP_RENT), maxPrice := Some(100.0), minRooms := Some(2),
                            priceMentionedAtTurn := Some(1));
    var sf := FiltersToSearch(ctx, f);
    SearchFindsFlat(w, sf);
    assert Resolve(ctx, f) == Qualification(ctx, f) == QualifyLive(ctx, f);
    assert Ids([FLAT]) == [7];
    ShownResult(ctx, f, w.search(sf));
  }

  lemma ShownResult(ctx: Ctx, f: Filters, o: SearchOutcome)
    requires o.properties == [FLAT] && ctx.lead.state == QUALIFICATION
    ensures var r := ShowResults(ctx, f, o);
      r.nextState == SEARCH_MATCH && r.filterUpdates == Some(f) && r.update == NO_UPDATE
  {
  }

  /** The lead row after it. */
  predicate ShownFlat(lead: LeadRow) {
    && lead.state == SEARCH_MATCH && lead.lastSearchIds == [7] && lead.name.None?
    && lead.filters.operation == Some(TEMP_RENT) && lead.filters.maxPrice == Some(100.0)
    && lead.commercial == NO_COMMERCIAL && lead.lastMessageAt == Some(0)
  }

  /** A human takes the new lead over and gives it back to the bot. */
  lemma GivenBack() returns (run: seq<Step>, c: Chat)
    ensures Exec(PLAIN, START, run) == c
    ensures c == START.(lead := NEW_LEAD.(state := QUALIFICATION), committed := {1})
  {
    OneStep(PLAIN, START, ManualCheck(1));
    run, c := [ManualCheck(1)], Next(PLAIN, START, ManualCheck(1));
    assert c == START.(checked := {1});
    run, c := Extend(run, c, ManualCommit(1, 0));
    assert c == START.(lead := TakenOver(NEW_LEAD, 0), committed := {1});
    run, c := Extend(run, c, AdminRelease);
  }

  lemma BotGoesOn(lead: LeadRow, i: TurnInput)
    requires lead == NEW_LEAD.(state := QUALIFICATION)
    ensures GuardrailOf(PLAIN, lead, i) == Continue
    ensures i.extraction.Some? ==> Seen(PLAIN, lead, i).lead == lead.(turnCount := 1)
  {
  }

  lemma SearchTurn(w: World, c: Chat, i: TurnInput)
    requires w.Valid() && w.table == {FLAT} && w.tenant == 0 && i == TurnInput(0, "x", Some(SEARCHES), false, w)
    requires Reached(PLAIN, c) && c.clock == 0 && c.lead == NEW_LEAD.(state := QUALIFICATION)
    ensures var lead := Turn(PLAIN, c.lead, i).lead; ShownFlat(lead) && ScoreAgreed(lead)
  {
    BotGoesOn(c.lead, i);
    var ctx, f, r := Parts(PLAIN, c, i);
    SearchShowsFlat(w, ctx);
    ShownRow(c.lead, f, r, ctx.lead.turnCount);
    ScoreIsOfTheRow(PLAIN, c, i);
  }

  /** It searches, and the flat is shown. */
  lemma FlatShown(w: World) returns (run: seq<Step>, c: Chat)
    requires w.Valid() && w.table == {FLAT} && w.tenant == 0
    ensures Exec(PLAIN, START, run) == c && ShownFlat(c.lead) && c.clock == 0 && ScoreAgreed(c.lead)
  {
    run, c := GivenBack();
    var i := TurnInput(0, "x", Some(SEARCHES), false, w);
    assert Reached(PLAIN, c);
    SearchTurn(w, c, i);
    run, c := AfterSearch(run, c, i);
  }

  lemma ShownRow(stored: LeadRow, f: Filters, r: HandlerResult, turnCount: nat)
    requires stored == NEW_LEAD.(state := QUALIFICATION)
    requires f.operation == Some(TEMP_RENT) && f.maxPrice == Some(100.0)
    requires r.nextState == SEARCH_MATCH && r.recorded == Some([7]) && r.filterUpdates == Some(f) && r.update == NO_UPDATE
    ensures ShownFlat(Written(stored, r, turnCount, None, 0))
  {
  }

  lemma AfterSearch(run: seq<Step>, c: Chat, i: TurnInput) returns (longer: seq<Step>, d: Chat)
    requires Exec(PLAIN, START, run) == c && c.clock <= i.now == 0 && i.world.Valid()
    requires var lead := Turn(PLAIN, c.lead, i).lead; ShownFlat(lead) && ScoreAgreed(lead)
    ensures Exec(PLAIN, START, longer) == d && ShownFlat(d.lead) && d.clock == 0 && ScoreAgreed(d.lead)
  {
    longer, d := Extend(run, c, BotTurn(i));
  }

  // ----- the handoff that is not dated -----

  lemma PickingLeadsToVisit(ctx: Ctx, f: Filters)
    requires ctx.world.Valid() && ctx.world.find(7).Some? && ctx.lang == PLAIN && ctx.text == "1"
    requires ctx.lead.state == SEARCH_MATCH && ctx.lead.lastSearchIds == [7]
    requires ctx.lead.filters.operation == Some(TEMP_RENT) && ctx.e == Sanitize(PLAIN.lexicon, PICKS_FIRST, "1")
    ensures Resolve(ctx, f).nextState == HUMAN_HANDOFF
  {
    assert ctx.e.interestedPropertyIndex == Some(1) && ctx.e.timeline == Some(Immediate);
    assert Resolve(ctx, f) == EnterCommercial(ctx, ctx.world.find(7).value, f);
    var merged := MergeAnswers(ctx.lead.commercial, ctx.e);
    FirstOpenIsOpen(QuestionOrder(Some(TEMP_RENT)), merged, []);
    assert Answered(merged, TimelineField);
    assert NextFieldToAsk(Some(TEMP_RENT), merged, []) == None;
  }

  /** A lead shown a flat is taken over by a human; 48 hours later it picks the flat. That
      turn releases the handoff and starts another, which keeps the date of the first and
      so does not silence the bot. */
  lemma ReleasedHandoffIsNotDated() returns (run: seq<Step>, i: TurnInput)
    ensures var c := Exec(PLAIN, START, run);
      && HandlerTurn(PLAIN, c, i) && GuardrailOf(PLAIN, c.lead, i) == TimeoutRelease
      && Turn(PLAIN, c.lead, i).lead.state == HUMAN_HANDOFF
      && Turn(PLAIN, c.lead, i).lead.handoffAt == Some(0) && i.now == HANDOFF_TIMEOUT_MS
  {
    var w := OneFlat();
    var c: Chat;
    run, c := FlatShown(w);
    run, c := TakenOverThen(run, c);
    i := TurnInput(HANDOFF_TIMEOUT_MS, "1", Some(PICKS_FIRST), true, w);
    assert Reached(PLAIN, c);
    assert FLAT in w.table;
    var ctx, f, r := Parts(PLAIN, c, i);
    PickingLeadsToVisit(ctx, f);
    HandoffIsDated(PLAIN, c, i);
  }

  lemma TakenOverThen(run: seq<Step>, c: Chat) returns (longer: seq<Step>, d: Chat)
    requires Exec(PLAIN, START, run) == c && ShownFlat(c.lead) && c.clock == 0
    ensures Exec(PLAIN, START, longer) == d && d.clock == 0
    ensures d.lead == c.lead.(state := HUMAN_HANDOFF, handoffAt := Some(0))
  {
    longer, d := Extend(run, c, ManualCheck(2));
    longer, d := Extend(longer, d, ManualCommit(2, 0));
  }

  // ----- the score left behind -----

  /** The same lead thirty days later: its session expires, nothing can be extracted, and
      the score keeps counting the budget the reset has dropped. */
  lemma ScoreGoesStale() returns (run: seq<Step>, i: TurnInput)
    ensures var c := Exec(PLAIN, START, run);
      && ScoreAgreed(c.lead) && ExpiresUnread(PLAIN, c, BotTurn(i))
      && !ScoreAgreed(Next(PLAIN, c, BotTurn(i)).lead)
  {
    var w := OneFlat();
    var c: Chat;
    run, c := FlatShown(w);
    i := TurnInput(SESSION_EXPIRATION_MS, "x", None, false, w);
    assert Reached(PLAIN, c);
    ShownScore(c.lead);
    ShownExpires(c.lead, i);
    ScoreStaysAgreed(PLAIN, c, BotTurn(i));
  }

  lemma ShownScore(lead: LeadRow)
    requires ShownFlat(lead)
    ensures ScoreOf(lead) == 5 && ScoreOf(ResetSession(lead)) == 0
  {
    assert ScoreSum(lead) == 5 && ScoreSum(ResetSession(lead)) == 0;
  }

  lemma ShownExpires(lead: LeadRow, i: TurnInput)
    requires ShownFlat(lead) && i.now == SESSION_EXPIRATION_MS && !i.openAppointment
    ensures GuardrailOf(PLAIN, lead, i) == SessionExpired
  {
  }

  // ----- written to after opting out -----

  /** A manual send that has committed goes out after the opt-out. */
  lemma SendOutlivesOptOut() returns (run: seq<Step>, c: Chat)
    ensures Exec(PLAIN, START, run) == c && c.lead.state == OPTED_OUT && c.outbox == []
    ensures Next(PLAIN, c, ManualEnqueue(1)).outbox == [Manual(1)]
  {
    run, c := GivenBack();
    run, c := Extend(run, c, AdminOptOut(0));
    assert [] + [Manual(1)] == [Manual(1)];
  }

  /** So does the reply to an unsupported message that has passed its check. */
  lemma ReplyOutlivesOptOut() returns (run: seq<Step>, c: Chat)
    ensures Exec(PLAIN, START, run) == c && c.lead.state == OPTED_OUT && c.outbox == []
    ensures Next(PLAIN, c, UnsupportedReply(1)).outbox == [Unsupported(1)]
  {
    OneStep(PLAIN, START, UnsupportedCheck(1));
    run, c := [UnsupportedCheck(1)], Next(PLAIN, START, UnsupportedCheck(1));
    run, c := Extend(run, c, AdminOptOut(0));
    assert [] + [Unsupported(1)] == [Unsupported(1)];
  }
}
