/** The lead row, the filters it accumulates, the guardrails in front of a turn, the
    release out of a handoff and the lead score. */
module Lead {
  import opened Common
  import opened Strings
  import opened PropertySearch
  import opened ZoneText

  datatype ConversationState =
    | GREETING | QUALIFICATION | SEARCH_MATCH | COMMERCIAL_QUALIFICATION | SCHEDULING | HUMAN_HANDOFF | OPTED_OUT

  /** Milliseconds. */
  type Time = nat

  datatype Filters = Filters(
    operation: Option<Operation>, neighborhoods: seq<string>, maxPrice: Option<real>, currency: Option<string>,
    minRooms: Option<int>, garage: Option<bool>, petsAllowed: Option<bool>, notes: Option<string>,
    offered: seq<string>, priceMentionedAtTurn: Option<nat>)

  const NO_FILTERS := Filters(None, [], None, None, None, None, None, None, [], None)

  datatype Field = GuaranteeField | TimelineField | PaymentField | PropertyToSellField

  datatype Day = Saturday | Weekday

  /** The commercial part of the row. */
  datatype Commercial = Commercial(
    guarantee: Option<Guarantee>, payment: Option<Payment>, timeline: Option<Timeline>,
    hasPropertyToSell: Option<bool>, asked: seq<Field>, pending: Option<Id>,
    buyingSignalAt: Option<Time>, wantsStockAlert: bool)

  const NO_COMMERCIAL := Commercial(None, None, None, None, [], None, None, false)

  datatype ScoreLabel = Cold | Warm | Hot

  datatype LeadRow = LeadRow(
    state: ConversationState, name: Option<string>, filters: Filters, commercial: Commercial,
    handoffAt: Option<Time>, optedOutAt: Option<Time>, lastMessageAt: Option<Time>,
    greetedAt: Option<Time>, nameAskedAt: Option<Time>, preferredDay: Option<Day>,
    lastSearchIds: seq<Id>, turnCount: nat, score: Option<int>, scoreLabel: Option<ScoreLabel>)

  const NEW_LEAD := LeadRow(GREETING, None, NO_FILTERS, NO_COMMERCIAL, None, None, None, None, None, None,
                            [], 0, None, None)

  // ----- filters -----

  function Or<T>(x: Option<T>, y: Option<T>): Option<T> { if x.Some? then x else y }

  /** This turn's words win over what was known; zones add up, unless the lead asked to
      change the filters. */
  function MergeFilters(current: Filters, e: Extraction): Filters {
    current.(
      operation := Or(e.operation, current.operation),
      neighborhoods :=
        if e.neighborhoods == [] then current.neighborhoods
        else if e.intent == ChangeFilters then e.neighborhoods
        else Unique(current.neighborhoods + e.neighborhoods),
      maxPrice := Or(e.maxPrice, current.maxPrice),
      currency := Or(e.currency, current.currency),
      minRooms := Or(e.minRooms, current.minRooms),
      garage := Or(e.wantsGarage, current.garage),
      petsAllowed := Or(e.wantsPetsAllowed, current.petsAllowed),
      notes := Or(e.extraRequirements, current.notes))
  }

  predicate HasNewFilterData(e: Extraction) {
    || e.operation.Some? || e.neighborhoods != [] || e.maxPrice.Some? || e.minRooms.Some?
    || e.wantsGarage.Some? || e.wantsPetsAllowed.Some?
  }

  function CountFilledCoreFilters(f: Filters): nat {
    (if f.neighborhoods != [] then 1 else 0) + (if f.maxPrice.Some? then 1 else 0) + (if f.minRooms.Some? then 1 else 0)
  }

  datatype MissingFilter = MissingNeighborhood | MissingRooms | MissingPrice

  function FirstMissingFilter(f: Filters): MissingFilter {
    if f.neighborhoods == [] then MissingNeighborhood
    else if f.minRooms.None? then MissingRooms
    else MissingPrice
  }

  const STALE_PRICE_TURNS: nat := 3

  predicate IsPriceStale(f: Filters, turnCount: nat) {
    f.maxPrice.Some? && f.priceMentionedAtTurn.Some? && turnCount - f.priceMentionedAtTurn.value > STALE_PRICE_TURNS
  }

  // ----- guardrails -----

  /** What the regular expressions of the bot say about a text. */
  datatype Lang = Lang(
    lexicon: Lexicon, plainDigits: string -> string, optsOut: string -> bool, asksHuman: string -> bool,
    buyingSignal: string -> bool, accepts: string -> bool, delegatesZone: string -> bool,
    confirmsChoice: string -> bool, dayPreference: string -> Option<Day>)

  datatype Guardrail = OptOut | ToHuman | Silenced | TimeoutRelease | SessionExpired | Continue

  const HANDOFF_TIMEOUT_MS: nat := 48 * 60 * 60 * 1000
  const SESSION_EXPIRATION_MS: nat := 30 * 24 * 60 * 60 * 1000

  function Evaluate(lang: Lang, lead: LeadRow, text: string, now: Time): Guardrail {
    var trimmed := Trim(text);
    if lead.state != OPTED_OUT && lang.optsOut(trimmed) then OptOut
    else if lead.state != HUMAN_HANDOFF && lead.state != OPTED_OUT && lang.asksHuman(trimmed) then ToHuman
    else if lead.state == OPTED_OUT then Silenced
    else if lead.state == HUMAN_HANDOFF then
      if lead.handoffAt.None? || now - lead.handoffAt.value >= HANDOFF_TIMEOUT_MS then TimeoutRelease else Silenced
    else if lead.lastMessageAt.Some? && now - lead.lastMessageAt.value >= SESSION_EXPIRATION_MS then SessionExpired
    else Continue
  }

  function ReleaseState(lead: LeadRow): ConversationState {
    if lead.lastSearchIds != [] then SEARCH_MATCH else QUALIFICATION
  }

  /** An admin's release, which only a handoff lets through. */
  function Released(lead: LeadRow): LeadRow {
    if lead.state == HUMAN_HANDOFF then lead.(state := ReleaseState(lead), handoffAt := None) else lead
  }

  /** An admin's opt-out; the date of an earlier one stays. */
  function OptedOutBy(lead: LeadRow, now: Time): LeadRow {
    if lead.state == OPTED_OUT then lead else lead.(state := OPTED_OUT, optedOutAt := Some(now))
  }

  /** The write of a manual send: the lead is handed off, unless it has opted out. */
  function TakenOver(lead: LeadRow, now: Time): LeadRow {
    if lead.state == OPTED_OUT then lead else lead.(state := HUMAN_HANDOFF, handoffAt := Some(now))
  }

  /** An expired session starts over; name, opt-out date and score stay. */
  function ResetSession(lead: LeadRow): LeadRow {
    lead.(state := GREETING, filters := NO_FILTERS, commercial := NO_COMMERCIAL, preferredDay := None,
          turnCount := 0, lastSearchIds := [], greetedAt := None, nameAskedAt := None)
  }

  // ----- score -----

  function TimelineWeight(t: Option<Timeline>): int {
    match t case Some(Immediate) => 25 case Some(OneToThreeMonths) => 15 case Some(ThreeToSixMonths) => 5 case _ => 0
  }

  function PaymentWeight(op: Option<Operation>, p: Option<Payment>): int {
    if op != Some(SALE) then 0
    else match p case Some(Cash) => 25 case Some(Credit) => 10 case Some(Mixed) => 10 case _ => 0
  }

  function GuaranteeWeight(op: Option<Operation>, g: Option<Guarantee>): int {
    if op != Some(RENT) then 0
    else match g case Some(OwnProperty) => 20 case Some(Surety) => 20 case Some(PaySlip) => 10
                 case Some(NoGuarantee) => -15 case _ => 0
  }

  predicate HasName(name: Option<string>) { name.Some? && name.value != "" }

  /** The weights of everything known about the lead, added up. */
  function ScoreSum(lead: LeadRow): int {
    var c, f := lead.commercial, lead.filters;
    (if c.asked != [] then 30 else 0)
    + TimelineWeight(c.timeline) + PaymentWeight(f.operation, c.payment) + GuaranteeWeight(f.operation, c.guarantee)
    + (if c.buyingSignalAt.Some? then 15 else 0) + (if HasName(lead.name) then 5 else 0)
    + (if f.maxPrice.Some? then 5 else 0)
  }

  function ScoreOf(lead: LeadRow): int {
    var sum := ScoreSum(lead);
    if sum < 0 then 0 else if sum > 100 then 100 else sum
  }

  const HOT_THRESHOLD := 60
  const WARM_THRESHOLD := 30

  function LabelOf(score: int): ScoreLabel {
    if score >= HOT_THRESHOLD then Hot else if score >= WARM_THRESHOLD then Warm else Cold
  }

  method CalculateLeadScore(lead: LeadRow) returns (score: int, tag: ScoreLabel)
    ensures score == ScoreOf(lead) && tag == LabelOf(score)
  {
    score := 0;
    if lead.commercial.asked != [] { score := score + 30; }
    if lead.commercial.timeline.Some? { score := score + TimelineWeight(lead.commercial.timeline); }
    if lead.filters.operation == Some(SALE) && lead.commercial.payment.Some? {
      score := score + PaymentWeight(lead.filters.operation, lead.commercial.payment);
    }
    if lead.filters.operation == Some(RENT) && lead.commercial.guarantee.Some? {
      score := score + GuaranteeWeight(lead.filters.operation, lead.commercial.guarantee);
    }
    if lead.commercial.buyingSignalAt.Some? { score := score + 15; }
    if HasName(lead.name) { score := score + 5; }
    if lead.filters.maxPrice.Some? { score := score + 5; }
    score := if score < 0 then 0 else if score > 100 then 100 else score;
    tag := LabelOf(score);
  }

  /** The score runs from 0 to 100, and a higher one never has a colder label: hot from 60
      on, cold below 30. */
  lemma LabelsFollowScores(lead: LeadRow, other: LeadRow)
    ensures 0 <= ScoreOf(lead) <= 100 && ScoreOf(NEW_LEAD) == 0
    ensures 0 <= ScoreSum(lead) <= 100 ==> ScoreOf(lead) == ScoreSum(lead)
    ensures LabelOf(ScoreOf(lead)) == Hot <==> ScoreOf(lead) >= 60
    ensures LabelOf(ScoreOf(lead)) == Cold <==> ScoreOf(lead) < 30
    ensures ScoreOf(lead) <= ScoreOf(other) ==>
      && (LabelOf(ScoreOf(lead)) == Hot ==> LabelOf(ScoreOf(other)) == Hot)
      && (LabelOf(ScoreOf(other)) == Cold ==> LabelOf(ScoreOf(lead)) == Cold)
  {
  }

  function Asked(lead: LeadRow, asked: seq<Field>): LeadRow { lead.(commercial := lead.commercial.(asked := asked)) }

  function Named(lead: LeadRow, name: Option<string>): LeadRow { lead.(name := name) }

  function Budgeted(lead: LeadRow, max: Option<real>): LeadRow { lead.(filters := lead.filters.(maxPrice := max)) }

  function Signalled(lead: LeadRow, at: Option<Time>): LeadRow {
    lead.(commercial := lead.commercial.(buyingSignalAt := at))
  }

  function InTime(lead: LeadRow, t: Option<Timeline>): LeadRow { lead.(commercial := lead.commercial.(timeline := t)) }

  function Paying(lead: LeadRow, p: Option<Payment>): LeadRow { lead.(commercial := lead.commercial.(payment := p)) }

  function Backed(lead: LeadRow, g: Option<Guarantee>): LeadRow { lead.(commercial := lead.commercial.(guarantee := g)) }

  /** `more` points above `less`, short of the two ends of the scale. */
  predicate Worth(more: LeadRow, less: LeadRow, points: int) {
    && ScoreSum(more) == ScoreSum(less) + points
    && (points >= 0 ==> ScoreOf(more) >= ScoreOf(less)) && (points <= 0 ==> ScoreOf(more) <= ScoreOf(less))
  }

  /** What each fact about a lead adds to its score, whatever else is known: being asked
      commercial questions 30, a sign of buying 15, a name 5, a budget 5. */
  lemma WhatEachFactIsWorth(lead: LeadRow, asked: seq<Field>, name: string, max: real, at: Time)
    ensures asked != [] ==> Worth(Asked(lead, asked), Asked(lead, []), 30)
    ensures Worth(Signalled(lead, Some(at)), Signalled(lead, None), 15)
    ensures name != "" ==> Worth(Named(lead, Some(name)), Named(lead, None), 5)
    ensures Worth(Budgeted(lead, Some(max)), Budgeted(lead, None), 5)
  {
  }

  /** And each answer. The sooner the better; */
  lemma WhatTimeIsWorth(lead: LeadRow)
    ensures Worth(InTime(lead, Some(Immediate)), InTime(lead, None), 25)
    ensures Worth(InTime(lead, Some(OneToThreeMonths)), InTime(lead, None), 15)
    ensures Worth(InTime(lead, Some(ThreeToSixMonths)), InTime(lead, None), 5)
    ensures Worth(InTime(lead, Some(Exploring)), InTime(lead, None), 0)
  {
  }

  /** the surer the payment of a sale the better, and only of a sale; */
  lemma WhatPaymentIsWorth(lead: LeadRow)
    ensures var sale := lead.filters.operation == Some(SALE);
      && Worth(Paying(lead, Some(Cash)), Paying(lead, None), if sale then 25 else 0)
      && Worth(Paying(lead, Some(Credit)), Paying(lead, None), if sale then 10 else 0)
      && Worth(Paying(lead, Some(Mixed)), Paying(lead, None), if sale then 10 else 0)
      && Worth(Paying(lead, Some(UnsurePayment)), Paying(lead, None), 0)
  {
  }

  /** the surer the guarantee of a rent the better, and having none counts against the lead. */
  lemma WhatGuaranteeIsWorth(lead: LeadRow)
    ensures var rent := lead.filters.operation == Some(RENT);
      && Worth(Backed(lead, Some(OwnProperty)), Backed(lead, None), if rent then 20 else 0)
      && Worth(Backed(lead, Some(Surety)), Backed(lead, None), if rent then 20 else 0)
      && Worth(Backed(lead, Some(PaySlip)), Backed(lead, None), if rent then 10 else 0)
      && Worth(Backed(lead, Some(NoGuarantee)), Backed(lead, None), if rent then -15 else 0)
      && Worth(Backed(lead, Some(UnsureGuarantee)), Backed(lead, None), 0)
  {
  }

  // ----- what admins do to the row -----

  /** Each writes on a condition that is part of the write, so it is one step; its count
      says whether it took place. */
  class AdminLeadsService {
    var lead: LeadRow

    constructor (lead: LeadRow)
      ensures this.lead == lead
    {
      this.lead := lead;
    }

    method OptOut(now: Time) returns (optedOut: LeadRow)
      modifies this
      ensures lead == OptedOutBy(old(lead), now) == optedOut
      ensures lead.state == OPTED_OUT && (old(lead).state == OPTED_OUT ==> lead == old(lead))
      ensures old(lead).state != OPTED_OUT ==> lead == old(lead).(state := OPTED_OUT, optedOutAt := Some(now))
    {
      if lead.state != OPTED_OUT { lead := lead.(state := OPTED_OUT, optedOutAt := Some(now)); }
      optedOut := lead;
    }

    method Release() returns (released: bool)
      modifies this
      ensures lead == Released(old(lead)) && (released <==> old(lead).state == HUMAN_HANDOFF)
      ensures lead == if !released then old(lead)
                      else old(lead).(handoffAt := None, state := if lead.lastSearchIds == [] then QUALIFICATION else SEARCH_MATCH)
    {
      var nextState := ReleaseState(lead);
      var count := if lead.state == HUMAN_HANDOFF then 1 else 0;
      if count == 1 { lead := lead.(state := nextState, handoffAt := None); }
      released := count != 0;
    }

    method TakeOver(now: Time) returns (ok: bool)
      modifies this
      ensures lead == TakenOver(old(lead), now) && (ok <==> old(lead).state != OPTED_OUT)
      ensures lead == if ok then old(lead).(state := HUMAN_HANDOFF, handoffAt := Some(now)) else old(lead)
    {
      ok := lead.state != OPTED_OUT;
      if ok { lead := lead.(state := HUMAN_HANDOFF, handoffAt := Some(now)); }
    }
  }
}
