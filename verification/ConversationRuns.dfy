/** Whole runs of one lead's conversation: bot turns, the stamps of the webhook and the
    outgoing worker, manual sends, replies to unsupported messages and admin actions, in
    any order. A bot turn is one step; a manual send and an unsupported reply are split
    where they can be overtaken. */
module ConversationRuns {
  import opened Common
  import opened PropertySearch
  import opened ZoneText
  import opened Lead
  import opened Handlers
  import opened Engine
  import opened HandlerFacts

  type RequestId = nat

  /** What went out to the lead. */
  datatype Sent = FromBot(action: Action) | Manual(request: RequestId) | Unsupported(request: RequestId)

  /** History of the session, read off the texts answered and the messages sent:
      `pending` is the last offer of zones until it is taken, `accepted` the zones of the
      offers taken, `asked` the commercial questions since that stage was last entered,
      `shown` the last fichas with their numbers, `chosen` the one whose number the lead
      gave on entering. */
  datatype Session = Session(
    texts: seq<string>, pending: set<string>, accepted: set<string>,
    greetings: nat, nameAsks: nat, asked: seq<Field>, shown: seq<(nat, Id)>, chosen: Option<Id>)

  const NEW_SESSION := Session([], {}, {}, 0, 0, [], [], None)

  /** `checked` are manual sends past their first look at the row, `committed` those
      past their write, `replying` unsupported replies past their look. */
  datatype Chat = Chat(
    lead: LeadRow, session: Session, clock: Time,
    checked: set<RequestId>, committed: set<RequestId>, replying: set<RequestId>, outbox: seq<Sent>)

  const START := Chat(NEW_LEAD, NEW_SESSION, 0, {}, {}, {}, [])

  datatype Step =
    | Stamp(now: Time)
    | BotTurn(input: TurnInput)
    | ManualCheck(request: RequestId) | ManualCommit(request: RequestId, now: Time) | ManualEnqueue(request: RequestId)
    | UnsupportedCheck(request: RequestId) | UnsupportedReply(request: RequestId)
    | AdminRelease
    | AdminOptOut(now: Time)

  predicate Silent(lead: LeadRow) { lead.state == OPTED_OUT || lead.state == HUMAN_HANDOFF }

  function BotMessages(actions: seq<Action>): seq<Sent> {
    if actions == [] then [] else BotMessages(actions[..|actions| - 1]) + [FromBot(actions[|actions| - 1])]
  }

  function FichaWithNumber(shown: seq<(nat, Id)>, n: nat): Option<Id> {
    if shown == [] then None
    else if shown[|shown| - 1].0 == n then Some(shown[|shown| - 1].1)
    else FichaWithNumber(shown[..|shown| - 1], n)
  }

  /** The history after a turn answered `text` with `r`, whose messages sum up to `s`. An
      offer is taken by a text that accepts while the search has no zone, if the answer
      stores its filters; a new offer takes the place of the one before. */
  function Remember(lang: Lang, h: Session, text: string, s: Summary, r: HandlerResult, index: Option<nat>,
                    zoneless: bool): Session
  {
    var taken := zoneless && lang.accepts(text) && r.filterUpdates.Some?;
    Session(
      h.texts + [text],
      if s.offered.Some? then s.offered.value else if taken then {} else h.pending,
      if taken then h.accepted + h.pending else h.accepted,
      h.greetings + s.greetings, h.nameAsks + s.nameAsks,
      (if r.entered then [] else h.asked) + s.asked,
      if s.shown == [] then h.shown else s.shown,
      if r.entered && index.Some? then FichaWithNumber(h.shown, index.value) else h.chosen)
  }

  /** Neither the row nor the turn's words have a zone to search. */
  predicate Zoneless(f: Filters, e: Extraction) { f.neighborhoods == [] && e.neighborhoods == [] }

  /** `f` are the row's filters before the turn, or after the reset of its session. */
  function SessionAfter(lang: Lang, h: Session, f: Filters, i: TurnInput, out: TurnOutput): Session {
    var base := if out.guardrail == SessionExpired then NEW_SESSION else h;
    if out.result.None? || i.extraction.None? then base
    else
      var text := lang.plainDigits(i.rawText);
      Remember(lang, base, text, Sum(out.sent), out.result.value, i.extraction.value.interestedPropertyIndex,
               Zoneless(f, Sanitize(lang.lexicon, i.extraction.value, text)))
  }

  function AfterTurn(lang: Lang, c: Chat, i: TurnInput): Chat {
    var out := Turn(lang, c.lead, i);
    c.(lead := out.lead, session := SessionAfter(lang, c.session, Stored(c.lead, out.guardrail).filters, i, out),
       clock := i.now, outbox := c.outbox + BotMessages(out.sent))
  }

  /** The steps that are not the bot's. */
  function Aside(c: Chat, step: Step): Chat
    requires !step.BotTurn?
  {
    match step
    case Stamp(now) =>
      if now < c.clock then c else c.(lead := c.lead.(lastMessageAt := Some(now)), clock := now)
    case ManualCheck(n) => if c.lead.state == OPTED_OUT then c else c.(checked := c.checked + {n})
    case ManualCommit(n, now) =>
      if n !in c.checked || now < c.clock then c
      else if c.lead.state == OPTED_OUT then c.(checked := c.checked - {n}, clock := now)
      else c.(lead := TakenOver(c.lead, now), checked := c.checked - {n}, committed := c.committed + {n}, clock := now)
    case ManualEnqueue(n) =>
      if n !in c.committed then c else c.(committed := c.committed - {n}, outbox := c.outbox + [Manual(n)])
    case UnsupportedCheck(n) => if Silent(c.lead) then c else c.(replying := c.replying + {n})
    case UnsupportedReply(n) =>
      if n !in c.replying then c else c.(replying := c.replying - {n}, outbox := c.outbox + [Unsupported(n)])
    case AdminRelease => c.(lead := Released(c.lead))
    case AdminOptOut(now) => if now < c.clock then c else c.(lead := OptedOutBy(c.lead, now), clock := now)
  }

  /** A step that is not possible, or dated before the last one, changes nothing. */
  ghost function Next(lang: Lang, c: Chat, step: Step): Chat {
    if !step.BotTurn? then Aside(c, step)
    else if step.input.now < c.clock || !step.input.world.Valid() then c
    else AfterTurn(lang, c, step.input)
  }

  ghost function Exec(lang: Lang, c: Chat, run: seq<Step>): Chat
    decreases |run|
  {
    if run == [] then c else Next(lang, Exec(lang, c, run[..|run| - 1]), run[|run| - 1])
  }

  // ----- invariants -----

  /** What a state says about the data. */
  predicate StateInv(lead: LeadRow) {
    && lead.state != SCHEDULING
    && (lead.state == HUMAN_HANDOFF ==> lead.handoffAt.Some?)
    && (lead.state == OPTED_OUT <==> lead.optedOutAt.Some?)
    && (ShowsState(lead.state) || lead.lastSearchIds != [] ==> lead.filters.operation.Some?)
  }

  /** The row remembers the greeting and the name question exactly when they were sent,
      which was once. */
  predicate OnceInv(lead: LeadRow, h: Session) {
    && h.greetings == (if lead.greetedAt.Some? then 1 else 0)
    && h.nameAsks == (if lead.nameAskedAt.Some? then 1 else 0)
  }

  predicate AskedInv(lead: LeadRow, h: Session) {
    && (lead.state == COMMERCIAL_QUALIFICATION ==> lead.commercial.asked == h.asked)
    && |h.asked| <= MAX_COMMERCIAL_QUESTIONS && Distinct(h.asked)
  }

  /** What waits for a visit is the ficha whose number the lead gave. */
  predicate ChosenInv(lead: LeadRow, h: Session) {
    lead.state == COMMERCIAL_QUALIFICATION ==> h.chosen.Some? && lead.commercial.pending == h.chosen
  }

  predicate ShownInv(lead: LeadRow, h: Session) { h.shown == Numbered(lead.lastSearchIds) }

  /** The zone was named in a text of the session, or its offer was taken. */
  ghost predicate Provenance(lang: Lang, h: Session, z: string) {
    (exists text :: text in h.texts && SaidIn(lang.lexicon, text, z)) || z in h.accepted
  }

  ghost predicate ZonesInv(lang: Lang, f: Filters, h: Session) {
    && NoDuplicateZones(f)
    && (forall z :: z in f.neighborhoods ==> Provenance(lang, h, z))
    && ZonesOf(f.offered) == h.pending
  }

  ghost predicate LeadInv(lang: Lang, lead: LeadRow, h: Session) {
    && StateInv(lead) && OnceInv(lead, h) && AskedInv(lead, h) && ShownInv(lead, h) && ChosenInv(lead, h)
    && ZonesInv(lang, lead.filters, h)
  }

  predicate ClockInv(c: Chat) { c.lead.lastMessageAt.Some? ==> c.lead.lastMessageAt.value <= c.clock }

  ghost predicate Inv(lang: Lang, c: Chat) {
    LeadInv(lang, c.lead, c.session) && ClockInv(c)
  }

  // ----- a turn that a handler answers -----

  /** The filters the handler is given: what the turn adds comes from its text or from an
      acceptance, and nothing known is forgotten. */
  lemma TurnFiltersFacts(lang: Lang, f: Filters, e: Extraction, text: string, turnCount: nat)
    requires NoDuplicateZones(f) && Distinct(e.neighborhoods)
    ensures var g := TurnFilters(lang, f, e, text, turnCount);
      && NoDuplicateZones(g)
      && (forall z :: z in g.neighborhoods ==>
            z in f.neighborhoods || z in e.neighborhoods || (Zoneless(f, e) && lang.accepts(text) && z in f.offered))
      && g.offered == (if Zoneless(f, e) && lang.accepts(text) then [] else f.offered)
      && (Zoneless(f, e) && lang.accepts(text) ==> g.neighborhoods == f.offered)
      && (forall z :: z in e.neighborhoods ==> z in g.neighborhoods)
      && (e.neighborhoods == [] && !(Zoneless(f, e) && lang.accepts(text)) ==> g.neighborhoods == f.neighborhoods)
      && (e.intent != ChangeFilters ==> forall z :: z in f.neighborhoods ==> z in g.neighborhoods)
      && (e.intent == ChangeFilters && e.neighborhoods != [] ==> g.neighborhoods == e.neighborhoods)
      && (f.operation.Some? ==> g.operation.Some?) && (f.maxPrice.Some? ==> g.maxPrice.Some?)
      && (f.currency.Some? ==> g.currency.Some?) && (f.minRooms.Some? ==> g.minRooms.Some?)
      && (f.garage.Some? ==> g.garage.Some?) && (f.petsAllowed.Some? ==> g.petsAllowed.Some?)
  {
    UniqueIsDistinct(f.neighborhoods + e.neighborhoods);
  }

  lemma {:induction false} SendableAll(actions: seq<Action>, whitelist: seq<Id>)
    requires forall x :: x in Sum(actions).shown ==> x.1 in whitelist
    ensures Sendable(actions, whitelist) == actions
    decreases |actions|
  {
    if actions != [] {
      var front, a := actions[..|actions| - 1], actions[|actions| - 1];
      assert actions == front + [a];
      SumSnoc(front, a);
      assert forall x :: x in Sum(front).shown ==> x in Sum(actions).shown;
      SendableAll(front, whitelist);
      if a.Ficha? { assert (a.number, a.property.id) in Sum(actions).shown; }
    }
  }

  /** The row a handler sees is the stored one, but for state, handoff and turn count. */
  predicate SeenAs(stored: LeadRow, seen: LeadRow) {
    seen == stored.(state := seen.state, handoffAt := seen.handoffAt, turnCount := seen.turnCount)
  }

  /** The row after a handler's result has been recorded and written. */
  function Written(stored: LeadRow, r: HandlerResult, turnCount: nat, name: Option<string>, now: Time): LeadRow {
    Persist(Recorded(stored, r), r, turnCount, name, now)
  }

  /** Nothing known is forgotten, zones apart. */
  predicate KeepsKnown(f: Filters, g: Filters) {
    && (f.operation.Some? ==> g.operation.Some?) && (f.maxPrice.Some? ==> g.maxPrice.Some?)
    && (f.currency.Some? ==> g.currency.Some?) && (f.minRooms.Some? ==> g.minRooms.Some?)
    && (f.garage.Some? ==> g.garage.Some?) && (f.petsAllowed.Some? ==> g.petsAllowed.Some?)
  }

  lemma KnownKept(stored: LeadRow, f: Filters, r: HandlerResult, s: Summary, turnCount: nat, name: Option<string>,
                  now: Time)
    requires KeepsKnown(stored.filters, f) && KeepsFilters(r, f, s)
    ensures KeepsKnown(stored.filters, Written(stored, r, turnCount, name, now).filters)
  {
  }

  lemma StateKept(stored: LeadRow, seen: LeadRow, f: Filters, r: HandlerResult, s: Summary,
                  turnCount: nat, name: Option<string>, now: Time)
    requires StateInv(stored) && stored.state != OPTED_OUT && SeenAs(stored, seen) && KeepsKnown(stored.filters, f)
    requires KeepsFilters(r, f, s) && StateFacts(r, seen, f) && RecordsWhatItShows(r, seen, f, s)
    requires ShowsState(seen.state) ==> seen.filters.operation.Some?
    ensures StateInv(Written(stored, r, turnCount, name, now))
  {
    KnownKept(stored, f, r, s, turnCount, name, now);
  }

  lemma OnceKept(lang: Lang, stored: LeadRow, seen: LeadRow, h: Session, r: HandlerResult, s: Summary,
                 text: string, index: Option<nat>, zoneless: bool, turnCount: nat, name: Option<string>, now: Time)
    requires OnceInv(stored, h) && SeenAs(stored, seen) && AsksOnce(r, seen, s)
    ensures OnceInv(Written(stored, r, turnCount, name, now), Remember(lang, h, text, s, r, index, zoneless))
  {
  }

  lemma AskedKept(lang: Lang, stored: LeadRow, seen: LeadRow, h: Session, r: HandlerResult, s: Summary,
                  text: string, index: Option<nat>, zoneless: bool, turnCount: nat, name: Option<string>, now: Time)
    requires AskedInv(stored, h) && SeenAs(stored, seen) && CommercialFacts(r, seen, s)
    requires seen.state == COMMERCIAL_QUALIFICATION ==> stored.state == COMMERCIAL_QUALIFICATION
    ensures AskedInv(Written(stored, r, turnCount, name, now), Remember(lang, h, text, s, r, index, zoneless))
  {
    var before := if r.entered then [] else h.asked;
    var t := Written(stored, r, turnCount, name, now);
    if s.asked == [] {
      assert before + s.asked == before;
      assert t.commercial.asked == stored.commercial.asked;
    } else {
      assert t.commercial.asked == before + s.asked;
      assert |before + s.asked| == |before| + 1;
    }
  }

  lemma ShownKept(lang: Lang, stored: LeadRow, seen: LeadRow, h: Session, f: Filters, r: HandlerResult, s: Summary,
                  text: string, index: Option<nat>, zoneless: bool, turnCount: nat, name: Option<string>, now: Time)
    requires ShownInv(stored, h) && SeenAs(stored, seen) && RecordsWhatItShows(r, seen, f, s)
    ensures ShownInv(Written(stored, r, turnCount, name, now), Remember(lang, h, text, s, r, index, zoneless))
  {
    if r.recorded.Some? { NumberedAt(r.recorded.value); }
  }

  lemma {:induction false} NumberIsPosition(ids: seq<Id>, n: nat)
    ensures FichaWithNumber(Numbered(ids), n) == if 1 <= n <= |ids| then Some(ids[n - 1]) else None
    decreases |ids|
  {
    if ids != [] {
      NumberIsPosition(ids[..|ids| - 1], n);
      NumberedSnoc(ids[..|ids| - 1], ids[|ids| - 1]);
      assert ids == ids[..|ids| - 1] + [ids[|ids| - 1]];
      assert Numbered(ids)[..|ids| - 1] == Numbered(ids[..|ids| - 1]) by { NumberedAt(ids); NumberedAt(ids[..|ids| - 1]); }
    }
  }

  lemma ChosenKept(lang: Lang, stored: LeadRow, seen: LeadRow, h: Session, w: World, r: HandlerResult, s: Summary,
                   text: string, index: Option<nat>, zoneless: bool, turnCount: nat, name: Option<string>, now: Time)
    requires ChosenInv(stored, h) && ShownInv(stored, h) && SeenAs(stored, seen)
    requires ChoiceFacts(r, seen, w, index) && CommercialFacts(r, seen, s)
    requires seen.state == COMMERCIAL_QUALIFICATION ==> stored.state == COMMERCIAL_QUALIFICATION
    ensures ChosenInv(Written(stored, r, turnCount, name, now), Remember(lang, h, text, s, r, index, zoneless))
  {
    if index.Some? { NumberIsPosition(stored.lastSearchIds, index.value); }
  }

  /** What had a provenance keeps it. */
  lemma ProvenanceKept(lang: Lang, h: Session, text: string, s: Summary, r: HandlerResult, index: Option<nat>,
                       zoneless: bool, z: string)
    requires
      || Provenance(lang, h, z) || SaidIn(lang.lexicon, text, z)
      || (zoneless && lang.accepts(text) && r.filterUpdates.Some? && z in h.pending)
    ensures Provenance(lang, Remember(lang, h, text, s, r, index, zoneless), z)
  {
    var k := Remember(lang, h, text, s, r, index, zoneless);
    assert text in k.texts && forall t :: t in h.texts ==> t in k.texts;
    if z !in k.accepted {
      var t :| t in h.texts + [text] && SaidIn(lang.lexicon, t, z);
      assert t in k.texts;
    }
  }

  lemma ZonesKept(lang: Lang, stored: LeadRow, h: Session, f: Filters, e: Extraction, r: HandlerResult, s: Summary,
                  text: string, index: Option<nat>, turnCount: nat, name: Option<string>, now: Time)
    requires ZonesInv(lang, stored.filters, h)
    requires Distinct(e.neighborhoods) && forall z :: z in e.neighborhoods ==> SaidIn(lang.lexicon, text, z)
    requires f == TurnFilters(lang, stored.filters, e, text, turnCount) && KeepsFilters(r, f, s)
    ensures ZonesInv(lang, Written(stored, r, turnCount, name, now).filters,
                     Remember(lang, h, text, s, r, index, Zoneless(stored.filters, e)))
  {
    TurnFiltersFacts(lang, stored.filters, e, text, turnCount);
    var zoneless := Zoneless(stored.filters, e);
    var g, k := Written(stored, r, turnCount, name, now).filters, Remember(lang, h, text, s, r, index, zoneless);
    forall z | z in g.neighborhoods ensures Provenance(lang, k, z) {
      ProvenanceKept(lang, h, text, s, r, index, zoneless, z);
    }
  }

  // ----- a whole turn -----

  predicate Answers(g: Guardrail) { g == TimeoutRelease || g == SessionExpired || g == Continue }

  /** Which states a guardrail's answer leaves possible. */
  predicate Fits(lead: LeadRow, g: Guardrail) {
    match g
    case OptOut => lead.state != OPTED_OUT
    case ToHuman => !Silent(lead)
    case Silenced => Silent(lead)
    case TimeoutRelease => lead.state == HUMAN_HANDOFF
    case SessionExpired => !Silent(lead)
    case Continue => !Silent(lead)
  }

  lemma GuardrailFits(lang: Lang, lead: LeadRow, i: TurnInput)
    ensures Fits(lead, GuardrailOf(lang, lead, i))
  {
  }

  lemma ReleasedIsActive(lead: LeadRow, g: Guardrail)
    requires StateInv(lead) && Fits(lead, g) && Answers(g)
    ensures lead.state != OPTED_OUT && StateInv(Stored(lead, g)) && Active(Effective(lead, g))
    ensures SeenAs(Stored(lead, g), Effective(lead, g))
    ensures ShowsState(Effective(lead, g).state) ==> Effective(lead, g).filters.operation.Some?
    ensures Effective(lead, g).state == COMMERCIAL_QUALIFICATION ==> Stored(lead, g).state == COMMERCIAL_QUALIFICATION
  {
  }

  /** The session a turn continues, or the one it starts. */
  function Base(h: Session, g: Guardrail): Session { if g == SessionExpired then NEW_SESSION else h }

  lemma BaseKept(lang: Lang, lead: LeadRow, h: Session, g: Guardrail)
    requires LeadInv(lang, lead, h) && lead.state != OPTED_OUT
    ensures LeadInv(lang, Stored(lead, g), Base(h, g))
  {
  }

  /** What goes into a handler turn: `r` is what the handler made of `ctx` and `f`. */
  ghost predicate HandlerRan(lang: Lang, stored: LeadRow, i: TurnInput, ctx: Ctx, f: Filters, r: HandlerResult) {
    && SeenAs(stored, ctx.lead) && Active(ctx.lead) && stored.state != OPTED_OUT
    && ctx.lang == lang && ctx.world == i.world && ctx.text == lang.plainDigits(i.rawText)
    && i.extraction.Some? && ctx.e == Sanitize(lang.lexicon, i.extraction.value, ctx.text)
    && f == TurnFilters(lang, stored.filters, ctx.e, ctx.text, ctx.lead.turnCount)
    && r == Resolve(ctx, f) && Facts(ctx, f, r)
    && ChoiceFacts(r, ctx.lead, i.world, ctx.e.interestedPropertyIndex)
    && KeepsKnown(stored.filters, f)
    && (ShowsState(ctx.lead.state) ==> ctx.lead.filters.operation.Some?)
    && (ctx.lead.state == COMMERCIAL_QUALIFICATION ==> stored.state == COMMERCIAL_QUALIFICATION)
  }

  /** What comes out of it: everything the handler said is sent, and its result is what
      is recorded and written. */
  ghost predicate CameOut(stored: LeadRow, g: Guardrail, now: Time, ctx: Ctx, r: HandlerResult, out: TurnOutput) {
    && out.result == Some(r) && out.guardrail == g
    && out.sent == Apology(g) + r.actions && Sum(out.sent) == Sum(r.actions)
    && out.lead == Written(stored, r, ctx.lead.turnCount, ctx.e.name, now)
  }

  /** A handler turn, by its parts. */
  lemma AnswerParts(lang: Lang, lead: LeadRow, i: TurnInput, text: string, g: Guardrail, e: Extraction)
    returns (ctx: Ctx, f: Filters, r: HandlerResult)
    requires StateInv(lead) && NoDuplicateZones(lead.filters) && i.world.Valid()
    requires text == lang.plainDigits(i.rawText) && Fits(lead, g) && Answers(g)
    requires i.extraction.Some? && e == Sanitize(lang.lexicon, i.extraction.value, text)
    ensures ctx == TurnCtx(lang, lead, i.world, text, g, e)
    ensures HandlerRan(lang, Stored(lead, g), i, ctx, f, r) && ctx.lead.state == Effective(lead, g).state
    ensures CameOut(Stored(lead, g), g, i.now, ctx, r, Answer(lang, lead, i, text, g, e))
  {
    ctx := TurnCtx(lang, lead, i.world, text, g, e);
    f := TurnFilters(lang, ctx.lead.filters, e, text, ctx.lead.turnCount);
    r := Resolve(ctx, f);
    ReleasedIsActive(lead, g);
    HandlerRuns(lang, Stored(lead, g), i, ctx, f, r);
    ConcludeSendsAll(Stored(lead, g), g, i.now, ctx, f, r);
  }

  lemma HandlerRuns(lang: Lang, stored: LeadRow, i: TurnInput, ctx: Ctx, f: Filters, r: HandlerResult)
    requires NoDuplicateZones(stored.filters) && i.world.Valid() && i.extraction.Some?
    requires SeenAs(stored, ctx.lead) && Active(ctx.lead) && stored.state != OPTED_OUT
    requires ctx.lang == lang && ctx.world == i.world && ctx.text == lang.plainDigits(i.rawText)
    requires ctx.e == Sanitize(lang.lexicon, i.extraction.value, ctx.text)
    requires f == TurnFilters(lang, stored.filters, ctx.e, ctx.text, ctx.lead.turnCount) && r == Resolve(ctx, f)
    requires ShowsState(ctx.lead.state) ==> ctx.lead.filters.operation.Some?
    requires ctx.lead.state == COMMERCIAL_QUALIFICATION ==> stored.state == COMMERCIAL_QUALIFICATION
    ensures HandlerRan(lang, stored, i, ctx, f, r)
  {
    SanitizedZones(lang.lexicon, i.extraction.value.neighborhoods, ctx.text);
    TurnFiltersFacts(lang, stored.filters, ctx.e, ctx.text, ctx.lead.turnCount);
    ResolveFacts(ctx, f);
    ResolveChoice(ctx, f);
  }

  lemma ConcludeSendsAll(stored: LeadRow, g: Guardrail, now: Time, ctx: Ctx, f: Filters, r: HandlerResult)
    requires SeenAs(stored, ctx.lead) && Facts(ctx, f, r)
    ensures CameOut(stored, g, now, ctx, r, Conclude(Recorded(stored, r), r, g, ctx.lead.turnCount, ctx.e.name, now))
  {
    ApologyFirst(Apology(g), r.actions);
    AllWhitelisted(stored, ctx.lead, f, r, Apology(g));
  }

  lemma ApologyFirst(replies: seq<Action>, actions: seq<Action>)
    requires replies == [] || replies == [Text(TimeoutApology)]
    ensures Sum(replies + actions) == Sum(actions)
  {
    if replies == [] {
      assert replies + actions == actions;
    } else {
      SumQuietFirst(Text(TimeoutApology), actions);
    }
  }

  /** The whitelist never blocks a ficha. */
  lemma AllWhitelisted(stored: LeadRow, seen: LeadRow, f: Filters, r: HandlerResult, replies: seq<Action>)
    requires SeenAs(stored, seen) && RecordsWhatItShows(r, seen, f, Sum(r.actions))
    requires Sum(replies + r.actions) == Sum(r.actions)
    ensures Sendable(replies + r.actions, Recorded(stored, r).lastSearchIds) == replies + r.actions
  {
    var row := Recorded(stored, r);
    NumberedAt(row.lastSearchIds);
    assert forall x :: x in Sum(r.actions).shown ==> x.1 in row.lastSearchIds;
    SendableAll(replies + r.actions, row.lastSearchIds);
  }

  /** What a handler's result leaves behind keeps everything. */
  lemma AnswerKeeps(lang: Lang, stored: LeadRow, h: Session, i: TurnInput, ctx: Ctx, f: Filters, r: HandlerResult)
    requires LeadInv(lang, stored, h) && HandlerRan(lang, stored, i, ctx, f, r)
    ensures LeadInv(lang, Written(stored, r, ctx.lead.turnCount, ctx.e.name, i.now),
                    Remember(lang, h, ctx.text, Sum(r.actions), r, ctx.e.interestedPropertyIndex,
                             Zoneless(stored.filters, ctx.e)))
  {
    var seen, e, s, text, n := ctx.lead, ctx.e, Sum(r.actions), ctx.text, ctx.lead.turnCount;
    var index, zoneless := e.interestedPropertyIndex, Zoneless(stored.filters, e);
    SanitizedZones(lang.lexicon, i.extraction.value.neighborhoods, text);
    StateKept(stored, seen, f, r, s, n, e.name, i.now);
    OnceKept(lang, stored, seen, h, r, s, text, index, zoneless, n, e.name, i.now);
    AskedKept(lang, stored, seen, h, r, s, text, index, zoneless, n, e.name, i.now);
    ShownKept(lang, stored, seen, h, f, r, s, text, index, zoneless, n, e.name, i.now);
    ChosenKept(lang, stored, seen, h, ctx.world, r, s, text, index, zoneless, n, e.name, i.now);
    ZonesKept(lang, stored, h, f, e, r, s, text, index, n, e.name, i.now);
  }

  lemma CameOutKeeps(lang: Lang, stored: LeadRow, h: Session, g: Guardrail, i: TurnInput, ctx: Ctx, f: Filters,
                     r: HandlerResult, out: TurnOutput)
    requires LeadInv(lang, stored, Base(h, g)) && HandlerRan(lang, stored, i, ctx, f, r)
    requires CameOut(stored, g, i.now, ctx, r, out)
    ensures LeadInv(lang, out.lead, SessionAfter(lang, h, stored.filters, i, out))
  {
    AnswerKeeps(lang, stored, Base(h, g), i, ctx, f, r);
  }

  /** What no handler touches. */
  predicate SameData(s: LeadRow, t: LeadRow) {
    && t.filters == s.filters && t.commercial == s.commercial && t.lastSearchIds == s.lastSearchIds
    && t.greetedAt == s.greetedAt && t.nameAskedAt == s.nameAskedAt
  }

  lemma SameDataKeeps(lang: Lang, s: LeadRow, t: LeadRow, h: Session)
    requires LeadInv(lang, s, h) && SameData(s, t) && StateInv(t)
    requires t.state == COMMERCIAL_QUALIFICATION ==> s.state == COMMERCIAL_QUALIFICATION
    ensures LeadInv(lang, t, h)
  {
  }

  /** A turn that the guardrails or a failed extraction cut short. */
  lemma CutShort(lang: Lang, lead: LeadRow, i: TurnInput, text: string, g: Guardrail)
    requires StateInv(lead) && Fits(lead, g) && (!Answers(g) || i.extraction.None?)
    ensures var out, stored := Respond(lang, lead, i, text, g), Stored(lead, g);
      && out.guardrail == g && out.result.None?
      && SameData(stored, out.lead) && StateInv(out.lead)
      && (out.lead.state == COMMERCIAL_QUALIFICATION ==> stored.state == COMMERCIAL_QUALIFICATION)
  {
    if Answers(g) { ReleasedIsActive(lead, g); }
  }

  lemma RespondAnswers(lang: Lang, lead: LeadRow, i: TurnInput, text: string, g: Guardrail)
    requires Answers(g) && i.extraction.Some?
    ensures Respond(lang, lead, i, text, g)
            == Answer(lang, lead, i, text, g, Sanitize(lang.lexicon, i.extraction.value, text))
  {
  }

  lemma AnsweredKeeps(lang: Lang, lead: LeadRow, h: Session, i: TurnInput, text: string, g: Guardrail, e: Extraction)
    requires LeadInv(lang, lead, h) && i.world.Valid() && text == lang.plainDigits(i.rawText) && Fits(lead, g)
    requires Answers(g) && i.extraction.Some? && e == Sanitize(lang.lexicon, i.extraction.value, text)
    ensures var out := Answer(lang, lead, i, text, g, e);
      LeadInv(lang, out.lead, SessionAfter(lang, h, Stored(lead, g).filters, i, out))
  {
    if g == SessionExpired { BaseKept(lang, lead, h, g); }
    var ctx, f, r := AnswerParts(lang, lead, i, text, g, e);
    CameOutKeeps(lang, Stored(lead, g), h, g, i, ctx, f, r, Answer(lang, lead, i, text, g, e));
  }

  lemma CutShortKeeps(lang: Lang, lead: LeadRow, h: Session, i: TurnInput, text: string, g: Guardrail)
    requires LeadInv(lang, lead, h) && Fits(lead, g) && (!Answers(g) || i.extraction.None?)
    ensures var out := Respond(lang, lead, i, text, g);
      LeadInv(lang, out.lead, SessionAfter(lang, h, Stored(lead, g).filters, i, out))
  {
    if g == SessionExpired { BaseKept(lang, lead, h, g); }
    CutShort(lang, lead, i, text, g);
    SameDataKeeps(lang, Stored(lead, g), Respond(lang, lead, i, text, g).lead, Base(h, g));
  }

  lemma RespondKeeps(lang: Lang, lead: LeadRow, h: Session, i: TurnInput, text: string, g: Guardrail)
    requires LeadInv(lang, lead, h) && i.world.Valid() && text == lang.plainDigits(i.rawText) && Fits(lead, g)
    ensures var out := Respond(lang, lead, i, text, g);
      LeadInv(lang, out.lead, SessionAfter(lang, h, Stored(lead, g).filters, i, out))
  {
    if Answers(g) && i.extraction.Some? {
      RespondAnswers(lang, lead, i, text, g);
      AnsweredKeeps(lang, lead, h, i, text, g, Sanitize(lang.lexicon, i.extraction.value, text));
    } else {
      CutShortKeeps(lang, lead, h, i, text, g);
    }
  }

  lemma TurnKeeps(lang: Lang, lead: LeadRow, h: Session, i: TurnInput)
    requires LeadInv(lang, lead, h) && i.world.Valid()
    ensures var out := Turn(lang, lead, i);
      LeadInv(lang, out.lead, SessionAfter(lang, h, Stored(lead, out.guardrail).filters, i, out))
  {
    GuardrailFits(lang, lead, i);
    RespondKeeps(lang, lead, h, i, lang.plainDigits(i.rawText), GuardrailOf(lang, lead, i));
  }

  lemma TurnStampsNow(lang: Lang, lead: LeadRow, i: TurnInput)
    ensures var at := Turn(lang, lead, i).lead.lastMessageAt; at == lead.lastMessageAt || at == Some(i.now)
  {
  }

  lemma InvStep(lang: Lang, c: Chat, step: Step)
    requires Inv(lang, c)
    ensures Inv(lang, Next(lang, c, step))
  {
    if step.BotTurn? {
      TurnInv(lang, c, step.input);
    } else {
      AsideInv(lang, c, step);
    }
  }

  lemma TurnInv(lang: Lang, c: Chat, i: TurnInput)
    requires Inv(lang, c)
    ensures Inv(lang, Next(lang, c, BotTurn(i)))
  {
    if c.clock <= i.now && i.world.Valid() {
      TurnKeeps(lang, c.lead, c.session, i);
      TurnStampsNow(lang, c.lead, i);
    }
  }

  lemma AsideFrame(c: Chat, step: Step)
    requires StateInv(c.lead) && ClockInv(c) && !step.BotTurn?
    ensures var d := Aside(c, step);
      && SameData(c.lead, d.lead) && d.session == c.session && StateInv(d.lead) && ClockInv(d)
      && (d.lead.state == COMMERCIAL_QUALIFICATION ==> c.lead.state == COMMERCIAL_QUALIFICATION)
  {
    match step
    case Stamp(_) => case ManualCheck(_) => case ManualCommit(_, _) => case ManualEnqueue(_) =>
    case UnsupportedCheck(_) => case UnsupportedReply(_) => case AdminRelease => case AdminOptOut(_) =>
  }

  lemma AsideInv(lang: Lang, c: Chat, step: Step)
    requires Inv(lang, c) && !step.BotTurn?
    ensures Inv(lang, Aside(c, step))
  {
    AsideFrame(c, step);
    SameDataKeeps(lang, c.lead, Aside(c, step).lead, c.session);
  }

  lemma {:induction false} Reachable(lang: Lang, run: seq<Step>)
    ensures Inv(lang, Exec(lang, START, run))
    decreases |run|
  {
    if run != [] {
      Reachable(lang, run[..|run| - 1]);
      InvStep(lang, Exec(lang, START, run[..|run| - 1]), run[|run| - 1]);
    }
  }
}
