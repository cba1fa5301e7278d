/** What holds of every run of a lead's conversation. */
module ConversationResults {
  import opened Common
  import opened Strings
  import opened PropertySearch
  import opened ZoneText
  import opened Lead
  import opened Handlers
  import opened Engine
  import opened HandlerFacts
  import opened ConversationRuns

  /** Some run leads here. */
  ghost predicate Reached(lang: Lang, c: Chat) { exists run: seq<Step> :: Exec(lang, START, run) == c }

  lemma ReachedInv(lang: Lang, c: Chat)
    requires Reached(lang, c)
    ensures Inv(lang, c)
  {
    var run: seq<Step> :| Exec(lang, START, run) == c;
    Reachable(lang, run);
  }

  /** A turn that a handler answers: the guardrails let it through and something was
      extracted. */
  ghost predicate HandlerTurn(lang: Lang, c: Chat, i: TurnInput) {
    && c.clock <= i.now && i.world.Valid()
    && Answers(GuardrailOf(lang, c.lead, i)) && i.extraction.Some?
  }

  /** What the handler of such a turn sees. */
  function Seen(lang: Lang, lead: LeadRow, i: TurnInput): Ctx
    requires i.extraction.Some?
  {
    var text := lang.plainDigits(i.rawText);
    TurnCtx(lang, lead, i.world, text, GuardrailOf(lang, lead, i), Sanitize(lang.lexicon, i.extraction.value, text))
  }

  /** The filters it is given. */
  function Given(ctx: Ctx): Filters {
    TurnFilters(ctx.lang, ctx.lead.filters, ctx.e, ctx.text, ctx.lead.turnCount)
  }

  lemma Parts(lang: Lang, c: Chat, i: TurnInput) returns (ctx: Ctx, f: Filters, r: HandlerResult)
    requires Reached(lang, c) && HandlerTurn(lang, c, i)
    ensures ctx == Seen(lang, c.lead, i) && f == Given(ctx)
    ensures var g := GuardrailOf(lang, c.lead, i);
      && HandlerRan(lang, Stored(c.lead, g), i, ctx, f, r) && ctx.lead.state == Effective(c.lead, g).state
      && CameOut(Stored(c.lead, g), g, i.now, ctx, r, Turn(lang, c.lead, i))
      && LeadInv(lang, c.lead, c.session)
  {
    ReachedInv(lang, c);
    var text, g := lang.plainDigits(i.rawText), GuardrailOf(lang, c.lead, i);
    GuardrailFits(lang, c.lead, i);
    ctx, f, r := AnswerParts(lang, c.lead, i, text, g, Sanitize(lang.lexicon, i.extraction.value, text));
  }

  // ----- states and data -----

  /** No run reaches SCHEDULING; a handoff is dated, so the guardrail that frees an
      undated one is never taken; an opted-out lead is exactly one with an opt-out date;
      results shown or being discussed mean the operation is known. */
  lemma StatesMeanData(lang: Lang, c: Chat)
    requires Reached(lang, c)
    ensures var lead := c.lead;
      && lead.state != SCHEDULING
      && (lead.state == HUMAN_HANDOFF ==> lead.handoffAt.Some?)
      && (lead.state == OPTED_OUT <==> lead.optedOutAt.Some?)
      && (lead.state == SEARCH_MATCH || lead.state == COMMERCIAL_QUALIFICATION || lead.lastSearchIds != [] ==>
            lead.filters.operation.Some?)
  {
    ReachedInv(lang, c);
  }

  lemma TurnKeepsKnown(lang: Lang, c: Chat, i: TurnInput)
    requires Reached(lang, c) && c.clock <= i.now && i.world.Valid()
    requires GuardrailOf(lang, c.lead, i) != SessionExpired
    ensures KeepsKnown(c.lead.filters, Turn(lang, c.lead, i).lead.filters)
  {
    var g := GuardrailOf(lang, c.lead, i);
    if Answers(g) && i.extraction.Some? {
      var ctx, f, r := Parts(lang, c, i);
      KnownKept(c.lead, f, r, Sum(r.actions), ctx.lead.turnCount, ctx.e.name, i.now);
    } else {
      ReachedInv(lang, c);
      GuardrailFits(lang, c.lead, i);
      CutShort(lang, c.lead, i, lang.plainDigits(i.rawText), g);
    }
  }

  /** What is known of operation, budget, currency, rooms, garage and pets is forgotten
      only when a session expires. */
  lemma KnownUntilExpiry(lang: Lang, c: Chat, step: Step)
    requires Reached(lang, c)
    ensures
      || KeepsKnown(c.lead.filters, Next(lang, c, step).lead.filters)
      || (step.BotTurn? && GuardrailOf(lang, c.lead, step.input) == SessionExpired)
  {
    if step.BotTurn? {
      var i := step.input;
      if c.clock <= i.now && i.world.Valid() && GuardrailOf(lang, c.lead, i) != SessionExpired {
        TurnKeepsKnown(lang, c, i);
      }
    } else {
      ReachedInv(lang, c);
      AsideFrame(c, step);
    }
  }

  // ----- what the lead is shown -----

  /** Number N on the lead's screen is entry N of the last results, whatever happened
      since they were sent. */
  lemma NumbersOnScreen(lang: Lang, c: Chat)
    requires Reached(lang, c)
    ensures
      && |c.session.shown| == |c.lead.lastSearchIds|
      && (forall k :: 0 <= k < |c.session.shown| ==> c.session.shown[k] == (k + 1, c.lead.lastSearchIds[k]))
  {
    ReachedInv(lang, c);
    NumberedAt(c.lead.lastSearchIds);
  }

  /** The output whitelist blocks nothing: all that a handler answers goes out. */
  lemma NothingIsBlocked(lang: Lang, c: Chat, i: TurnInput)
    requires Reached(lang, c) && HandlerTurn(lang, c, i)
    ensures var out := Turn(lang, c.lead, i);
      out.sent == Apology(out.guardrail) + out.result.value.actions
  {
    var ctx, f, r := Parts(lang, c, i);
  }

  lemma ChoosesNumber(ctx: Ctx, f: Filters, shown: seq<(nat, Id)>, n: nat)
    requires ctx.world.Valid() && ctx.lead.state == SEARCH_MATCH && shown == Numbered(ctx.lead.lastSearchIds)
    requires ctx.e.interestedPropertyIndex == Some(n) && !IsRedirectable(ctx, f)
    requires ctx.lang.confirmsChoice(ctx.text) && !ctx.lang.buyingSignal(ctx.text)
    ensures var id, r := FichaWithNumber(shown, n), Resolve(ctx, f);
      if id.None? || ctx.world.find(id.value).None? then r.actions == [Text(UnknownFicha)]
      else if HasUnansweredQuestion(ctx) then r.actions == [Text(AnswerAbout(id.value))]
      else r.entered && (r.update.pending == Some(id) || r.proposed == Some(id))
  {
    var ids := ctx.lead.lastSearchIds;
    NumberIsPosition(ids, n);
    assert Resolve(ctx, f) == SearchMatchHandler(ctx, f);
    SearchMatchChoice(ctx, f);
    if 1 <= n <= |ids| && ctx.world.find(ids[n - 1]).Some? {
      assert ctx.world.find(ids[n - 1]).value.id == ids[n - 1];
      assert ResolveChosen(ctx.world, ids, n).Some?;
    }
  }

  /** A lead that confirms a number, in a turn that is no sign of buying and no digression,
      gets that ficha: its question answered, or the way to a visit entered, for the
      property that carries the number on its screen, if it still exists; otherwise it is
      told so. */
  lemma LaN(lang: Lang, c: Chat, i: TurnInput, n: nat)
    requires Reached(lang, c) && HandlerTurn(lang, c, i)
    requires var ctx := Seen(lang, c.lead, i);
      && ctx.lead.state == SEARCH_MATCH && ctx.e.interestedPropertyIndex == Some(n)
      && lang.confirmsChoice(ctx.text) && !lang.buyingSignal(ctx.text) && !IsRedirectable(ctx, Given(ctx))
    ensures var ctx, id, r := Seen(lang, c.lead, i), FichaWithNumber(c.session.shown, n), Turn(lang, c.lead, i).result.value;
      if id.None? || i.world.find(id.value).None? then r.actions == [Text(UnknownFicha)]
      else if HasUnansweredQuestion(ctx) then r.actions == [Text(AnswerAbout(id.value))]
      else r.entered && (r.update.pending == Some(id) || r.proposed == Some(id))
  {
    var ctx, f, r := Parts(lang, c, i);
    ChoosesNumber(ctx, f, c.session.shown, n);
  }

  lemma ProposedIsChosen(lang: Lang, stored: LeadRow, seen: LeadRow, h: Session, w: World, r: HandlerResult,
                         text: string, s: Summary, index: Option<nat>, zoneless: bool)
    requires ChosenInv(stored, h) && ShownInv(stored, h) && SeenAs(stored, seen) && r.proposed.Some?
    requires ChoiceFacts(r, seen, w, index)
    requires seen.state == COMMERCIAL_QUALIFICATION ==> stored.state == COMMERCIAL_QUALIFICATION
    ensures var chosen := Remember(lang, h, text, s, r, index, zoneless).chosen;
      chosen.Some? && r.proposed == Some(StillThere(w, chosen))
  {
    if r.entered { NumberIsPosition(stored.lastSearchIds, index.value); }
  }

  lemma ChosenVisit(lang: Lang, stored: LeadRow, h: Session, g: Guardrail, i: TurnInput, ctx: Ctx, f: Filters,
                    r: HandlerResult, out: TurnOutput)
    requires LeadInv(lang, stored, Base(h, g)) && HandlerRan(lang, stored, i, ctx, f, r)
    requires CameOut(stored, g, i.now, ctx, r, out) && r.proposed.Some?
    ensures var chosen := SessionAfter(lang, h, stored.filters, i, out).chosen;
      chosen.Some? && out.result == Some(r) && r.proposed == Some(StillThere(i.world, chosen))
  {
    ProposedIsChosen(lang, stored, ctx.lead, Base(h, g), i.world, r, ctx.text, Sum(out.sent),
                     ctx.e.interestedPropertyIndex, Zoneless(stored.filters, ctx.e));
  }

  /** A visit is only ever proposed for the ficha whose number the lead gave when it
      entered the way to it, however many turns ago, or for none when it is gone. */
  lemma VisitIsForTheChosen(lang: Lang, c: Chat, i: TurnInput)
    requires Reached(lang, c) && HandlerTurn(lang, c, i) && Turn(lang, c.lead, i).result.value.proposed.Some?
    ensures var chosen := AfterTurn(lang, c, i).session.chosen;
      chosen.Some? && Turn(lang, c.lead, i).result.value.proposed == Some(StillThere(i.world, chosen))
  {
    var ctx, f, r := Parts(lang, c, i);
    var g := GuardrailOf(lang, c.lead, i);
    BaseKept(lang, c.lead, c.session, g);
    ChosenVisit(lang, Stored(c.lead, g), c.session, g, i, ctx, f, r, Turn(lang, c.lead, i));
  }

  /** Searches and teasers run only where every zone has stock, so the lead is never told
      that the zone it searched is empty. */
  lemma NoSearchOnDeadZone(lang: Lang, c: Chat, i: TurnInput)
    requires Reached(lang, c) && HandlerTurn(lang, c, i)
    ensures var out, w := Turn(lang, c.lead, i), i.world;
      && Sum(out.sent).emptyZones == 0
      && (out.result.value.searched.Some? ==>
            forall z :: z in out.result.value.searched.value.1 ==>
              HasStock(w.table, w.tenant, [z], Some(out.result.value.searched.value.0)))
  {
    var ctx, f, r := Parts(lang, c, i);
  }

  // ----- no nagging -----

  /** Within a session the greeting and the name question go out once each at most, and
      the row says so exactly when they did. */
  lemma AskedOnce(lang: Lang, c: Chat)
    requires Reached(lang, c)
    ensures
      && c.session.greetings == (if c.lead.greetedAt.Some? then 1 else 0)
      && c.session.nameAsks == (if c.lead.nameAskedAt.Some? then 1 else 0)
  {
    ReachedInv(lang, c);
  }

  /** Between two entries the commercial questions are two at most, all different. */
  lemma FewCommercialQuestions(lang: Lang, c: Chat)
    requires Reached(lang, c)
    ensures var asked := c.session.asked; |asked| <= 2 && Distinct(asked)
  {
    ReachedInv(lang, c);
  }

  lemma AskedIsOpen(stored: LeadRow, seen: LeadRow, r: HandlerResult, s: Summary, field: Field,
                    turnCount: nat, name: Option<string>, now: Time)
    requires SeenAs(stored, seen) && CommercialFacts(r, seen, s) && field in s.asked
    ensures seen.state != GREETING && !Answered(stored.commercial, field)
    ensures !Answered(Written(stored, r, turnCount, name, now).commercial, field)
  {
    assert s.asked == [field];
    assert !Answered(AfterUpdate(stored.commercial, r.update), field);
  }

  /** None of them is about something the row already answers, then or before. */
  lemma NothingAnsweredIsAsked(lang: Lang, c: Chat, i: TurnInput, field: Field)
    requires Reached(lang, c) && HandlerTurn(lang, c, i)
    requires field in Sum(Turn(lang, c.lead, i).sent).asked
    ensures !Answered(c.lead.commercial, field)
    ensures !Answered(Turn(lang, c.lead, i).lead.commercial, field)
  {
    var ctx, f, r := Parts(lang, c, i);
    var stored := Stored(c.lead, GuardrailOf(lang, c.lead, i));
    AskedIsOpen(stored, ctx.lead, r, Sum(r.actions), field, ctx.lead.turnCount, ctx.e.name, i.now);
  }

  // ----- zones -----

  /** Every zone of the search was named in a text of this session, typos apart, or is of
      an offer the lead took while it was the last one and no zone was set; none is there
      twice. What a coming acceptance would take is the last offer not taken yet. */
  lemma ZonesAreTheLeads(lang: Lang, c: Chat)
    requires Reached(lang, c)
    ensures
      && Distinct(c.lead.filters.neighborhoods) && ZonesOf(c.lead.filters.offered) == c.session.pending
      && forall z :: z in c.lead.filters.neighborhoods ==>
           (exists text :: text in c.session.texts && SaidIn(lang.lexicon, text, z)) || z in c.session.accepted
  {
    ReachedInv(lang, c);
    assert forall z :: z in c.lead.filters.neighborhoods ==> Provenance(lang, c.session, z);
  }

  // ----- score -----

  predicate ScoreAgreed(lead: LeadRow) {
    lead.score == Some(ScoreOf(lead)) && lead.scoreLabel == Some(LabelOf(ScoreOf(lead)))
  }

  /** Nothing known becomes unknown in a turn, so the values written with the old ones as
      fallback weigh the same as the row they leave. */
  lemma ViewWeighsTheSame(row: LeadRow, f: Filters, r: HandlerResult, s: Summary, turnCount: nat,
                          name: Option<string>, now: Time)
    requires KeepsKnown(row.filters, f) && KeepsFilters(r, f, s)
    ensures ScoreAgreed(Persist(row, r, turnCount, name, now))
  {
    var view, written := ScoringView(row, r, turnCount, name, now), PersistFields(row, r, turnCount, name, now);
    assert view.filters.operation == written.filters.operation;
    assert view.filters.maxPrice == written.filters.maxPrice;
    assert ScoreSum(view) == ScoreSum(written);
    assert ScoreSum(Persist(row, r, turnCount, name, now)) == ScoreSum(written);
  }

  /** Every turn a handler answers leaves the score and label of the row as stored. */
  lemma ScoreIsOfTheRow(lang: Lang, c: Chat, i: TurnInput)
    requires Reached(lang, c) && HandlerTurn(lang, c, i)
    ensures ScoreAgreed(Turn(lang, c.lead, i).lead)
  {
    var ctx, f, r := Parts(lang, c, i);
    WrittenAgrees(Stored(c.lead, GuardrailOf(lang, c.lead, i)), f, r, ctx, i.now);
  }

  lemma WrittenAgrees(stored: LeadRow, f: Filters, r: HandlerResult, ctx: Ctx, now: Time)
    requires KeepsKnown(stored.filters, f) && Facts(ctx, f, r)
    ensures ScoreAgreed(Written(stored, r, ctx.lead.turnCount, ctx.e.name, now))
  {
    ViewWeighsTheSame(Recorded(stored, r), f, r, Sum(r.actions), ctx.lead.turnCount, ctx.e.name, now);
  }

  /** What the score does not count may change. */
  lemma SameWeights(s: LeadRow, t: LeadRow)
    requires t.name == s.name && t.filters == s.filters && t.commercial == s.commercial
    requires t.score == s.score && t.scoreLabel == s.scoreLabel
    ensures ScoreAgreed(s) <==> ScoreAgreed(t)
  {
    assert ScoreSum(s) == ScoreSum(t);
  }

  lemma Unscored(lang: Lang, lead: LeadRow, i: TurnInput, text: string, g: Guardrail)
    requires (!Answers(g) || i.extraction.None?) && g != SessionExpired
    ensures ScoreAgreed(lead) <==> ScoreAgreed(Respond(lang, lead, i, text, g).lead)
  {
    SameWeights(lead, Respond(lang, lead, i, text, g).lead);
  }

  /** The turn resets a session and nothing is extracted from its text. */
  ghost predicate ExpiresUnread(lang: Lang, c: Chat, step: Step) {
    && step.BotTurn? && c.clock <= step.input.now && step.input.world.Valid()
    && step.input.extraction.None? && GuardrailOf(lang, c.lead, step.input) == SessionExpired
  }

  /** A right score goes wrong in one step exactly when that step is a turn that expires
      the session, whose extraction fails, and the reset changes what the score counts:
      the score is then left as it was. */
  lemma ScoreStaysAgreed(lang: Lang, c: Chat, step: Step)
    requires Reached(lang, c) && ScoreAgreed(c.lead)
    ensures ScoreAgreed(Next(lang, c, step).lead)
            <==> !(ExpiresUnread(lang, c, step) && ScoreOf(ResetSession(c.lead)) != ScoreOf(c.lead))
  {
    if step.BotTurn? {
      TurnStaysAgreed(lang, c, step.input);
    } else {
      SameWeights(c.lead, Aside(c, step).lead);
    }
  }

  lemma UnreadExpiry(lang: Lang, lead: LeadRow, i: TurnInput)
    requires ScoreAgreed(lead) && i.extraction.None? && GuardrailOf(lang, lead, i) == SessionExpired
    ensures ScoreAgreed(Turn(lang, lead, i).lead) <==> ScoreOf(ResetSession(lead)) == ScoreOf(lead)
  {
    assert ScoreSum(Turn(lang, lead, i).lead) == ScoreSum(ResetSession(lead));
  }

  lemma TurnStaysAgreed(lang: Lang, c: Chat, i: TurnInput)
    requires Reached(lang, c) && ScoreAgreed(c.lead)
    ensures ScoreAgreed(Next(lang, c, BotTurn(i)).lead)
            <==> !(ExpiresUnread(lang, c, BotTurn(i)) && ScoreOf(ResetSession(c.lead)) != ScoreOf(c.lead))
  {
    var g := GuardrailOf(lang, c.lead, i);
    if c.clock <= i.now && i.world.Valid() {
      if Answers(g) && i.extraction.Some? {
        ScoreIsOfTheRow(lang, c, i);
      } else if g != SessionExpired {
        Unscored(lang, c.lead, i, lang.plainDigits(i.rawText), g);
      } else {
        UnreadExpiry(lang, c.lead, i);
      }
    }
  }

  // ----- opting out -----

  /** Nothing of the row changed but the date of the last message. */
  predicate OnlyStamped(s: LeadRow, t: LeadRow) { t == s.(lastMessageAt := t.lastMessageAt) }

  lemma OptedOutTurn(lang: Lang, lead: LeadRow, i: TurnInput)
    requires lead.state == OPTED_OUT
    ensures Turn(lang, lead, i) == TurnOutput(lead, [], Silenced, None)
  {
    assert GuardrailOf(lang, lead, i) == Silenced;
  }

  /** The row frozen, and what was under way sent or dropped, each once. */
  predicate Frozen(c: Chat, d: Chat) {
    && OnlyStamped(c.lead, d.lead) && d.committed <= c.committed && d.replying <= c.replying
    && |d.outbox| + |d.committed| + |d.replying| == |c.outbox| + |c.committed| + |c.replying|
    && c.outbox <= d.outbox
  }

  lemma OptedOutAside(c: Chat, step: Step)
    requires c.lead.state == OPTED_OUT && !step.BotTurn?
    ensures Frozen(c, Aside(c, step))
  {
  }

  lemma OptedOutStep(lang: Lang, c: Chat, step: Step)
    requires c.lead.state == OPTED_OUT
    ensures Frozen(c, Next(lang, c, step))
  {
    if step.BotTurn? {
      OptedOutTurn(lang, c.lead, step.input);
      assert BotMessages([]) == [];
    } else {
      OptedOutAside(c, step);
    }
  }

  /** Opting out is final: no later step touches the row again, the date of the last
      message apart. What still goes out was committed by a manual send, or past its
      check by an unsupported reply, at that moment; each of those once. */
  lemma {:induction false} OptedOutIsFinal(lang: Lang, c: Chat, run: seq<Step>)
    requires c.lead.state == OPTED_OUT
    ensures Frozen(c, Exec(lang, c, run))
    decreases |run|
  {
    if run != [] {
      OptedOutIsFinal(lang, c, run[..|run| - 1]);
      OptedOutStep(lang, Exec(lang, c, run[..|run| - 1]), run[|run| - 1]);
    }
  }

  /** An opted-out lead is written to no more, whatever happens, exactly when no manual
      send has committed and no unsupported reply has passed its check by then. */
  lemma SilentExactlyWhenNoneIsUnderWay(lang: Lang, c: Chat)
    requires c.lead.state == OPTED_OUT
    ensures (forall run :: Exec(lang, c, run).outbox == c.outbox) <==> c.committed == {} && c.replying == {}
  {
    if c.committed == {} && c.replying == {} {
      forall run ensures Exec(lang, c, run).outbox == c.outbox {
        OptedOutIsFinal(lang, c, run);
      }
    } else if c.committed != {} {
      var n :| n in c.committed;
      OneStep(lang, c, ManualEnqueue(n));
      assert Exec(lang, c, [ManualEnqueue(n)]).outbox != c.outbox;
    } else {
      var n :| n in c.replying;
      OneStep(lang, c, UnsupportedReply(n));
      assert Exec(lang, c, [UnsupportedReply(n)]).outbox != c.outbox;
    }
  }

  lemma OneStep(lang: Lang, c: Chat, step: Step)
    ensures Exec(lang, c, [step]) == Next(lang, c, step)
  {
    assert [step][..0] == [];
  }

  lemma TurnOptsOut(lang: Lang, lead: LeadRow, i: TurnInput)
    requires StateInv(lead) && NoDuplicateZones(lead.filters) && i.world.Valid() && lead.state != OPTED_OUT
    requires GuardrailOf(lang, lead, i) != OptOut
    ensures Turn(lang, lead, i).lead.state != OPTED_OUT
  {
    var text, g := lang.plainDigits(i.rawText), GuardrailOf(lang, lead, i);
    GuardrailFits(lang, lead, i);
    if Answers(g) && i.extraction.Some? {
      var ctx, f, r := AnswerParts(lang, lead, i, text, g, Sanitize(lang.lexicon, i.extraction.value, text));
    } else if Answers(g) {
      ReleasedIsActive(lead, g);
    }
  }

  /** Only the lead's own words, or an admin, opt a lead out. */
  lemma OptOutIsAskedFor(lang: Lang, c: Chat, step: Step)
    requires Reached(lang, c) && c.lead.state != OPTED_OUT
    ensures Next(lang, c, step).lead.state == OPTED_OUT ==>
      step.AdminOptOut? || (step.BotTurn? && lang.optsOut(Trim(lang.plainDigits(step.input.rawText))))
  {
    ReachedInv(lang, c);
    if step.BotTurn? {
      var i := step.input;
      if c.clock <= i.now && i.world.Valid() && GuardrailOf(lang, c.lead, i) != OptOut { TurnOptsOut(lang, c.lead, i); }
    }
  }

  // ----- sessions and handoffs in time -----

  predicate StampedSince(c: Chat, d: Time) {
    d <= c.clock && c.lead.lastMessageAt.Some? && d <= c.lead.lastMessageAt.value
  }

  lemma {:induction false} StaysStamped(lang: Lang, c: Chat, d: Time, run: seq<Step>)
    requires StampedSince(c, d)
    ensures StampedSince(Exec(lang, c, run), d)
    decreases |run|
  {
    if run != [] {
      var front, step := run[..|run| - 1], run[|run| - 1];
      StaysStamped(lang, c, d, front);
      if step.BotTurn? { TurnStampsNow(lang, Exec(lang, c, front).lead, step.input); }
    }
  }

  /** The webhook dates the lead when a message arrives, before its turn runs. So however
      long the lead was silent, its session expires at a turn only if the message itself
      has waited the thirty days since it arrived at `d`. */
  lemma ArrivalKeepsSessionAlive(lang: Lang, c: Chat, d: Time, run: seq<Step>, i: TurnInput)
    requires c.clock <= d
    requires var late := Exec(lang, Next(lang, c, Stamp(d)), run);
      late.clock <= i.now && GuardrailOf(lang, late.lead, i) == SessionExpired
    ensures i.now - d >= SESSION_EXPIRATION_MS
  {
    StaysStamped(lang, Next(lang, c, Stamp(d)), d, run);
  }

  /** Two messages thirty days apart: the second one's turn goes on with the session. */
  lemma ThirtyDaysOfSilence(lang: Lang, i: TurnInput) returns (run: seq<Step>)
    requires i.now == SESSION_EXPIRATION_MS
    ensures run == [Stamp(0), Stamp(SESSION_EXPIRATION_MS)]
    ensures Exec(lang, START, run[..1]).lead.lastMessageAt == Some(0)
    ensures var c := Exec(lang, START, run); c.clock <= i.now && GuardrailOf(lang, c.lead, i) != SessionExpired
  {
    run := [Stamp(0), Stamp(SESSION_EXPIRATION_MS)];
    assert run[..1] == [Stamp(0)];
    OneStep(lang, START, Stamp(0));
  }

  predicate Redates(step: Step) { step.Stamp? || step.BotTurn? }

  lemma {:induction false} DateKept(lang: Lang, c: Chat, run: seq<Step>)
    requires forall k :: 0 <= k < |run| ==> !Redates(run[k])
    ensures Exec(lang, c, run).lead.lastMessageAt == c.lead.lastMessageAt
    decreases |run|
  {
    if run != [] {
      var front := run[..|run| - 1];
      DateKept(lang, c, front);
      assert !Redates(run[|run| - 1]);
    }
  }

  /** With nothing dating the lead after the stamp at `d`, its next turn expires the session
      exactly when it comes thirty days after that stamp, the lead is with the bot, its
      text neither opts out nor asks for a human, and no visit is open. */
  lemma SessionExpiresExactly(lang: Lang, c: Chat, d: Time, run: seq<Step>, i: TurnInput)
    requires c.clock <= d && forall k :: 0 <= k < |run| ==> !Redates(run[k])
    ensures var late, text := Exec(lang, Next(lang, c, Stamp(d)), run), Trim(lang.plainDigits(i.rawText));
      GuardrailOf(lang, late.lead, i) == SessionExpired
      <==> i.now - d >= SESSION_EXPIRATION_MS && !Silent(late.lead) && !lang.optsOut(text) && !lang.asksHuman(text)
           && !i.openAppointment
  {
    DateKept(lang, Next(lang, c, Stamp(d)), run);
  }

  /** A handoff that a handler starts is dated then, unless the same turn had released a
      timed-out one: then the old date stays. */
  lemma HandoffIsDated(lang: Lang, c: Chat, i: TurnInput)
    requires Reached(lang, c) && HandlerTurn(lang, c, i)
    requires Turn(lang, c.lead, i).lead.state == HUMAN_HANDOFF
    ensures Turn(lang, c.lead, i).lead.handoffAt
            == if GuardrailOf(lang, c.lead, i) == TimeoutRelease then c.lead.handoffAt else Some(i.now)
  {
    var ctx, f, r := Parts(lang, c, i);
    GuardrailFits(lang, c.lead, i);
  }

  lemma SilencedExactly(lang: Lang, lead: LeadRow, j: TurnInput)
    requires lead.state == HUMAN_HANDOFF && lead.handoffAt.Some?
    requires !lang.optsOut(Trim(lang.plainDigits(j.rawText)))
    ensures GuardrailOf(lang, lead, j) == Silenced <==> j.now - lead.handoffAt.value < HANDOFF_TIMEOUT_MS
  {
  }

  /** The bot keeps silent for the next 48 hours, but for an opt-out, exactly if that turn
      had not released an earlier handoff. */
  lemma HandoffSilencesTheBot(lang: Lang, c: Chat, i: TurnInput, j: TurnInput)
    requires Reached(lang, c) && HandlerTurn(lang, c, i)
    requires Turn(lang, c.lead, i).lead.state == HUMAN_HANDOFF
    requires i.now <= j.now < i.now + HANDOFF_TIMEOUT_MS && !lang.optsOut(Trim(lang.plainDigits(j.rawText)))
    ensures GuardrailOf(lang, Turn(lang, c.lead, i).lead, j) == Silenced
            <==> GuardrailOf(lang, c.lead, i) != TimeoutRelease
  {
    HandoffIsDated(lang, c, i);
    StatesMeanData(lang, c);
    GuardrailFits(lang, c.lead, i);
    TimedOut(lang, c.lead, i);
    SilencedExactly(lang, Turn(lang, c.lead, i).lead, j);
  }

  lemma TimedOut(lang: Lang, lead: LeadRow, i: TurnInput)
    ensures GuardrailOf(lang, lead, i) == TimeoutRelease && lead.handoffAt.Some? ==>
      i.now - lead.handoffAt.value >= HANDOFF_TIMEOUT_MS
  {
  }
}
