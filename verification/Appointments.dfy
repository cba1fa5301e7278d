/** The life of one appointment under any number of concurrent requests. A request reads
    the row and checks the transition, later writes on the condition that the row is still
    in a state the transition starts from, and at last reads the row back. The public
    confirmation page reads too, but writes without a condition. */
module Appointments {
  import opened Common

  datatype Status = PROPOSED | CONFIRMED | DONE | CANCELLED | NO_SHOW

  type Time = nat
  type PersonId = nat
  type RequestId = nat

  datatype Appointment = Appointment(
    status: Status, scheduledAt: Option<Time>, notes: Option<string>, assignee: Option<PersonId>, outcome: Option<string>)

  const JUST_PROPOSED := Appointment(PROPOSED, None, None, None, None)

  datatype Request =
    | Confirm(at: Time, assignee: Option<PersonId>, notes: Option<string>)
    | Reschedule(at: Time, notes: Option<string>)
    | Cancel(notes: Option<string>)
    | Done(outcome: Option<string>, notes: Option<string>)
    | NoShow(outcome: Option<string>, notes: Option<string>)
    | ConfirmPublic(at: Time)

  predicate Terminal(s: Status) { s == DONE || s == CANCELLED || s == NO_SHOW }

  /** The states a transition may start from. */
  function ValidOrigins(r: Request): set<Status> {
    match r
    case Confirm(_, _, _) => {PROPOSED}
    case Reschedule(_, _) => {CONFIRMED}
    case Cancel(_) => {PROPOSED, CONFIRMED}
    case Done(_, _) => {CONFIRMED}
    case NoShow(_, _) => {CONFIRMED}
    case ConfirmPublic(_) => {PROPOSED}
  }

  /** The columns a request writes; the others keep their value. */
  datatype Patch = Patch(
    status: Option<Status>, scheduledAt: Option<Time>, notes: Option<string>, assignee: Option<PersonId>,
    outcome: Option<string>)

  const NO_CHANGE := Patch(None, None, None, None, None)

  const PAGE_NOTE := "Confirmado por el cliente desde la agenda p\U{FA}blica"

  function PatchOf(r: Request): Patch {
    match r
    case Confirm(at, assignee, notes) =>
      NO_CHANGE.(status := Some(CONFIRMED), scheduledAt := Some(at), assignee := assignee, notes := notes)
    case Reschedule(at, notes) => NO_CHANGE.(scheduledAt := Some(at), notes := notes)
    case Cancel(notes) => NO_CHANGE.(status := Some(CANCELLED), notes := notes)
    case Done(outcome, notes) => NO_CHANGE.(status := Some(DONE), outcome := outcome, notes := notes)
    case NoShow(outcome, notes) => NO_CHANGE.(status := Some(NO_SHOW), outcome := outcome, notes := notes)
    case ConfirmPublic(at) =>
      NO_CHANGE.(status := Some(CONFIRMED), scheduledAt := Some(at), notes := Some(PAGE_NOTE))
  }

  function Patched(a: Appointment, p: Patch): Appointment {
    Appointment(
      if p.status.Some? then p.status.value else a.status, if p.scheduledAt.Some? then p.scheduledAt else a.scheduledAt,
      if p.notes.Some? then p.notes else a.notes, if p.assignee.Some? then p.assignee else a.assignee,
      if p.outcome.Some? then p.outcome else a.outcome)
  }

  // ----- requests as steps -----

  datatype Response = Accepted(row: Appointment) | Conflict | BadRequest

  datatype Phase = Reading | Writing | ReadingBack | Answered(response: Response)

  datatype Job = Job(request: Request, phase: Phase)

  /** A write that took place: whose, what and over which row. */
  datatype Write = Write(id: RequestId, request: Request, before: Appointment)

  datatype System = System(row: Appointment, jobs: map<RequestId, Job>, writes: seq<Write>)

  const START := System(JUST_PROPOSED, map[], [])

  /** `personMissing` is what a confirmation finds out about its assignee. */
  datatype Step = Begin(id: RequestId, request: Request) | Advance(id: RequestId, personMissing: bool)

  function To(s: System, id: RequestId, phase: Phase): System
    requires id in s.jobs
  {
    s.(jobs := s.jobs[id := s.jobs[id].(phase := phase)])
  }

  predicate NeedsPerson(r: Request) { r.Confirm? && r.assignee.Some? }

  /** Whether the write of `r` finds a row to change. */
  predicate Hits(r: Request, row: Appointment) { r.ConfirmPublic? || row.status in ValidOrigins(r) }

  /** The page answers with the row as it wrote it; the others read it back. */
  function AfterWrite(r: Request, row: Appointment): Phase {
    if r.ConfirmPublic? then Answered(Accepted(Patched(row, PatchOf(r)))) else ReadingBack
  }

  function Advanced(s: System, id: RequestId, personMissing: bool): System
    requires id in s.jobs
  {
    var r := s.jobs[id].request;
    match s.jobs[id].phase
    case Reading =>
      if s.row.status !in ValidOrigins(r) then To(s, id, Answered(Conflict))
      else if NeedsPerson(r) && personMissing then To(s, id, Answered(BadRequest))
      else To(s, id, Writing)
    case Writing =>
      if Hits(r, s.row) then
        To(s, id, AfterWrite(r, s.row)).(row := Patched(s.row, PatchOf(r)), writes := s.writes + [Write(id, r, s.row)])
      else To(s, id, Answered(Conflict))
    case ReadingBack => To(s, id, Answered(Accepted(s.row)))
    case Answered(_) => s
  }

  function Next(s: System, step: Step): System {
    match step
    case Begin(id, r) => if id in s.jobs then s else s.(jobs := s.jobs[id := Job(r, Reading)])
    case Advance(id, personMissing) => if id in s.jobs then Advanced(s, id, personMissing) else s
  }

  function Exec(s: System, run: seq<Step>): System
    decreases |run|
  {
    if run == [] then s else Next(Exec(s, run[..|run| - 1]), run[|run| - 1])
  }

  // ----- the order the writes stand in -----

  /** The requests carried out one after another, each at once. */
  function Replay(writes: seq<Write>): Appointment {
    if writes == [] then JUST_PROPOSED
    else Patched(Replay(writes[..|writes| - 1]), PatchOf(writes[|writes| - 1].request))
  }

  predicate Allowed(w: Write) { w.before.status in ValidOrigins(w.request) }

  /** Each write found the row the ones before it left, in a state it may start from,
      unless it is the page's. */
  predicate InOrder(writes: seq<Write>) {
    forall i :: 0 <= i < |writes| ==>
      && writes[i].before == Replay(writes[..i])
      && (!writes[i].request.ConfirmPublic? ==> Allowed(writes[i]))
  }

  predicate HasWritten(phase: Phase) { phase == ReadingBack || (phase.Answered? && phase.response.Accepted?) }

  predicate WroteBy(writes: seq<Write>, id: RequestId, r: Request) {
    exists i :: 0 <= i < |writes| && writes[i].id == id && writes[i].request == r
  }

  predicate OneEach(writes: seq<Write>) {
    forall i, j :: 0 <= i < j < |writes| ==> writes[i].id != writes[j].id
  }

  /** A request has written once if it got past its write, and else not at all. */
  predicate Accounted(s: System) {
    && OneEach(s.writes)
    && (forall i :: 0 <= i < |s.writes| ==> s.writes[i].id in s.jobs)
    && (forall id :: id in s.jobs && HasWritten(s.jobs[id].phase) ==> WroteBy(s.writes, id, s.jobs[id].request))
    && (forall i :: 0 <= i < |s.writes| ==> HasWritten(s.jobs[s.writes[i].id].phase))
  }

  predicate Inv(s: System) { InOrder(s.writes) && s.row == Replay(s.writes) && Accounted(s) }

  lemma WriteInOrder(writes: seq<Write>, w: Write)
    requires InOrder(writes) && w.before == Replay(writes) && Hits(w.request, w.before)
    ensures InOrder(writes + [w]) && Replay(writes + [w]) == Patched(w.before, PatchOf(w.request))
  {
    var all := writes + [w];
    assert all[..|writes|] == writes;
    forall i | 0 <= i < |all| ensures all[i].before == Replay(all[..i]) {
      if i < |writes| { assert all[..i] == writes[..i]; }
    }
  }

  lemma WriteAccounted(s: System, id: RequestId, phase: Phase)
    requires Accounted(s) && id in s.jobs && s.jobs[id].phase == Writing && HasWritten(phase)
    ensures var w := Write(id, s.jobs[id].request, s.row);
      Accounted(To(s, id, phase).(writes := s.writes + [w]))
  {
    var w := Write(id, s.jobs[id].request, s.row);
    var all := s.writes + [w];
    assert all[|s.writes|] == w;
    assert forall i :: 0 <= i < |s.writes| ==> all[i] == s.writes[i] && s.writes[i].id != id;
    forall k | k in s.jobs && k != id && HasWritten(s.jobs[k].phase) ensures WroteBy(all, k, s.jobs[k].request) {
      var i :| 0 <= i < |s.writes| && s.writes[i].id == k && s.writes[i].request == s.jobs[k].request;
      assert all[i].id == k;
    }
  }

  /** `Accounted` does not look at the row. */
  lemma AccountedAnyRow(s: System, row: Appointment)
    requires Accounted(s)
    ensures Accounted(s.(row := row))
  {
  }

  lemma MoveAccounted(s: System, id: RequestId, phase: Phase)
    requires Accounted(s) && id in s.jobs && (HasWritten(phase) <==> HasWritten(s.jobs[id].phase))
    ensures Accounted(To(s, id, phase))
  {
  }

  lemma BeginAccounted(s: System, id: RequestId, r: Request)
    requires Accounted(s) && id !in s.jobs
    ensures Accounted(s.(jobs := s.jobs[id := Job(r, Reading)]))
  {
  }

  lemma WriteKeeps(s: System, id: RequestId)
    requires Inv(s) && id in s.jobs && s.jobs[id].phase == Writing && Hits(s.jobs[id].request, s.row)
    ensures Inv(Advanced(s, id, false)) && Advanced(s, id, true) == Advanced(s, id, false)
  {
    var r := s.jobs[id].request;
    var w := Write(id, r, s.row);
    WriteInOrder(s.writes, w);
    WriteAccounted(s, id, AfterWrite(r, s.row));
    AccountedAnyRow(To(s, id, AfterWrite(r, s.row)).(writes := s.writes + [w]), Patched(s.row, PatchOf(r)));
  }

  lemma AdvancedKeeps(s: System, id: RequestId, personMissing: bool)
    requires Inv(s) && id in s.jobs
    ensures Inv(Advanced(s, id, personMissing))
  {
    var r := s.jobs[id].request;
    match s.jobs[id].phase
    case Reading =>
      MoveAccounted(s, id, Answered(Conflict));
      MoveAccounted(s, id, Answered(BadRequest));
      MoveAccounted(s, id, Writing);
    case Writing =>
      if Hits(r, s.row) {
        WriteKeeps(s, id);
      } else {
        MoveAccounted(s, id, Answered(Conflict));
      }
    case ReadingBack => MoveAccounted(s, id, Answered(Accepted(s.row)));
    case Answered(_) =>
  }

  lemma InvStep(s: System, step: Step)
    requires Inv(s)
    ensures Inv(Next(s, step))
  {
    match step
    case Begin(id, r) => if id !in s.jobs { BeginAccounted(s, id, r); }
    case Advance(id, personMissing) => if id in s.jobs { AdvancedKeeps(s, id, personMissing); }
  }

  lemma {:induction false} Reachable(run: seq<Step>)
    ensures Inv(Exec(START, run))
    decreases |run|
  {
    if run != [] {
      Reachable(run[..|run| - 1]);
      InvStep(Exec(START, run[..|run| - 1]), run[|run| - 1]);
    }
  }

  // ----- results -----

  /** Where a request may find the visit: only a proposal is confirmed, only a confirmed visit
      is moved, held or missed, and either is cancelled. */
  predicate MayFind(r: Request, status: Status) {
    match r
    case Confirm(_, _, _) => status == PROPOSED
    case ConfirmPublic(_) => status == PROPOSED
    case Cancel(_) => status == PROPOSED || status == CONFIRMED
    case _ => status == CONFIRMED
  }

  lemma OriginsAreThese(r: Request, status: Status)
    ensures status in ValidOrigins(r) <==> MayFind(r, status)
  {
  }

  /** However the requests overlap, the row is what their writes make of it one after
      another, each write starting from a state its transition allows; a request is
      accepted for its one write, and refused ones wrote nothing. */
  lemma Linearizable(run: seq<Step>)
    ensures var s := Exec(START, run);
      && s.row == Replay(s.writes) && OneEach(s.writes)
      && (forall i :: 0 <= i < |s.writes| && !s.writes[i].request.ConfirmPublic? ==>
            MayFind(s.writes[i].request, Replay(s.writes[..i]).status))
      && (forall id :: id in s.jobs && s.jobs[id].phase.Answered? ==>
            (s.jobs[id].phase.response.Accepted? <==> WroteBy(s.writes, id, s.jobs[id].request)))
  {
    Reachable(run);
    var w := Exec(START, run).writes;
    forall i | 0 <= i < |w| && !w[i].request.ConfirmPublic? ensures MayFind(w[i].request, Replay(w[..i]).status) {
      assert Allowed(w[i]);
      OriginsAreThese(w[i].request, w[i].before.status);
    }
  }

  lemma WritesGrow(s: System, step: Step)
    ensures s.writes <= Next(s, step).writes
  {
  }

  lemma {:induction false} PrefixWrites(run: seq<Step>, k: nat)
    requires k <= |run|
    ensures Exec(START, run[..k]).writes <= Exec(START, run).writes
    decreases |run|
  {
    if k < |run| {
      var front := run[..|run| - 1];
      assert front[..k] == run[..k];
      PrefixWrites(front, k);
      WritesGrow(Exec(START, front), run[|run| - 1]);
    } else {
      assert run[..k] == run;
    }
  }

  /** Step `k` of the run answers request `id` with `refusal`. */
  predicate RefusedAt(run: seq<Step>, k: nat, id: RequestId, refusal: Response) {
    && k < |run| && run[k].Advance? && run[k].id == id
    && var s, t := Exec(START, run[..k]), Exec(START, run[..k + 1]);
      && id in s.jobs && !s.jobs[id].phase.Answered?
      && id in t.jobs && t.jobs[id].phase == Answered(refusal)
  }

  lemma {:induction false} RefusedByThen(run: seq<Step>, id: RequestId, refusal: Response) returns (k: nat)
    requires var s := Exec(START, run); id in s.jobs && s.jobs[id].phase == Answered(refusal)
    ensures RefusedAt(run, k, id, refusal)
    ensures Exec(START, run[..k]).jobs[id].request == Exec(START, run).jobs[id].request
    decreases |run|
  {
    var front, step := run[..|run| - 1], run[|run| - 1];
    var s := Exec(START, front);
    if id in s.jobs && s.jobs[id].phase == Answered(refusal) {
      k := RefusedByThen(front, id, refusal);
      assert run[..k] == front[..k] && run[..k + 1] == front[..k + 1];
    } else {
      k := |front|;
      assert run[..k] == front && run[..k + 1] == run;
    }
  }

  /** A refusal has its place among the writes too. For every run, a request answered with
      a conflict was so by a step after its begin at which the row, as some of the final
      writes had left it, was in no state its transition may start from; an assignee
      refused was unknown. */
  lemma RefusalIsRight(run: seq<Step>, id: RequestId, refusal: Response) returns (k: nat, m: nat)
    requires var s := Exec(START, run); id in s.jobs && s.jobs[id].phase == Answered(refusal) && !refusal.Accepted?
    ensures RefusedAt(run, k, id, refusal)
    ensures var s, w := Exec(START, run), Exec(START, run).writes;
      && m == |Exec(START, run[..k]).writes| <= |w| && Exec(START, run[..k]).row == Replay(w[..m])
      && (refusal == Conflict ==> !MayFind(s.jobs[id].request, Replay(w[..m]).status))
      && (refusal == BadRequest ==> NeedsPerson(s.jobs[id].request) && run[k].personMissing)
  {
    k := RefusedByThen(run, id, refusal);
    var s := Exec(START, run[..k]);
    m := |s.writes|;
    PrefixWrites(run, k);
    Reachable(run[..k]);
    assert Exec(START, run).writes[..m] == s.writes;
    assert run[..k + 1][..k] == run[..k] && run[..k + 1][k] == run[k];
    RefusalStep(s, id, run[k].personMissing, refusal);
    OriginsAreThese(s.jobs[id].request, s.row.status);
  }

  lemma RefusalStep(s: System, id: RequestId, personMissing: bool, refusal: Response)
    requires id in s.jobs && !s.jobs[id].phase.Answered? && !refusal.Accepted?
    requires Advanced(s, id, personMissing).jobs[id].phase == Answered(refusal)
    ensures refusal == Conflict ==> s.row.status !in ValidOrigins(s.jobs[id].request)
    ensures refusal == BadRequest ==> NeedsPerson(s.jobs[id].request) && personMissing
  {
  }

  /** The row as a write left it. */
  function LeftBy(w: Write): Appointment { Patched(w.before, PatchOf(w.request)) }

  datatype Column = STATUS | SCHEDULED_AT | NOTES | ASSIGNEE | OUTCOME

  predicate Sets(w: Write, c: Column) {
    var p := PatchOf(w.request);
    match c
    case STATUS => p.status.Some?
    case SCHEDULED_AT => p.scheduledAt.Some?
    case NOTES => p.notes.Some?
    case ASSIGNEE => p.assignee.Some?
    case OUTCOME => p.outcome.Some?
  }

  predicate SameIn(a: Appointment, b: Appointment, c: Column) {
    match c
    case STATUS => a.status == b.status
    case SCHEDULED_AT => a.scheduledAt == b.scheduledAt
    case NOTES => a.notes == b.notes
    case ASSIGNEE => a.assignee == b.assignee
    case OUTCOME => a.outcome == b.outcome
  }

  /** `w` sets the column to the value it has in `row`. */
  predicate SetsTo(w: Write, row: Appointment, c: Column) {
    var p := PatchOf(w.request);
    match c
    case STATUS => p.status == Some(row.status)
    case SCHEDULED_AT => p.scheduledAt == row.scheduledAt && p.scheduledAt.Some?
    case NOTES => p.notes == row.notes && p.notes.Some?
    case ASSIGNEE => p.assignee == row.assignee && p.assignee.Some?
    case OUTCOME => p.outcome == row.outcome && p.outcome.Some?
  }

  /** The last of the writes from `first` on to set the column. */
  predicate SetsLast(writes: seq<Write>, first: nat, k: nat, c: Column) {
    first <= k < |writes| && Sets(writes[k], c) && forall l :: k < l < |writes| ==> !Sets(writes[l], c)
  }

  predicate LastSetsTo(writes: seq<Write>, first: nat, row: Appointment, c: Column) {
    forall k :: 0 <= k < |writes| && SetsLast(writes, first, k, c) ==> SetsTo(writes[k], row, c)
  }

  /** Column by column, the last write from `first` on to set it sets it to what it is
      in `row`. */
  predicate AllLastSetTo(writes: seq<Write>, first: nat, row: Appointment) {
    && LastSetsTo(writes, first, row, STATUS) && LastSetsTo(writes, first, row, SCHEDULED_AT)
    && LastSetsTo(writes, first, row, NOTES) && LastSetsTo(writes, first, row, ASSIGNEE)
    && LastSetsTo(writes, first, row, OUTCOME)
  }

  lemma ColumnOfWrite(before: Appointment, w: Write, row: Appointment, c: Column)
    ensures SameIn(Patched(before, PatchOf(w.request)), row, c)
            <==> if Sets(w, c) then SetsTo(w, row, c) else SameIn(before, row, c)
  {
    match c case STATUS => case SCHEDULED_AT => case NOTES => case ASSIGNEE => case OUTCOME =>
  }

  lemma LastToSet(front: seq<Write>, w: Write, first: nat, row: Appointment, c: Column)
    requires first <= |front|
    ensures LastSetsTo(front + [w], first, row, c)
            <==> if Sets(w, c) then SetsTo(w, row, c) else LastSetsTo(front, first, row, c)
  {
    var all, n := front + [w], |front|;
    assert all[n] == w;
    if Sets(w, c) {
      assert SetsLast(all, first, n, c);
      assert forall k :: 0 <= k < n ==> !SetsLast(all, first, k, c);
    } else {
      assert forall k :: 0 <= k < n ==> all[k] == front[k] && (SetsLast(all, first, k, c) <==> SetsLast(front, first, k, c));
    }
  }

  lemma {:induction false} ColumnAfter(writes: seq<Write>, first: nat, c: Column)
    requires first <= |writes|
    ensures var row := Replay(writes[..first]); SameIn(Replay(writes), row, c) <==> LastSetsTo(writes, first, row, c)
    decreases |writes|
  {
    if first == |writes| {
      assert writes[..first] == writes;
    } else {
      var front, w, row := writes[..|writes| - 1], writes[|writes| - 1], Replay(writes[..first]);
      assert front[..first] == writes[..first] && front + [w] == writes;
      ColumnAfter(front, first, c);
      ColumnOfWrite(Replay(front), w, row, c);
      LastToSet(front, w, first, row, c);
    }
  }

  lemma RowAfter(writes: seq<Write>, first: nat)
    requires first <= |writes|
    ensures var row := Replay(writes[..first]); Replay(writes) == row <==> AllLastSetTo(writes, first, row)
  {
    ColumnAfter(writes, first, STATUS);
    ColumnAfter(writes, first, SCHEDULED_AT);
    ColumnAfter(writes, first, NOTES);
    ColumnAfter(writes, first, ASSIGNEE);
    ColumnAfter(writes, first, OUTCOME);
  }

  /** A request about to read back answers with its own result exactly when, column by
      column, the last later write to set it set it to the value the request had left
      there; so it does when nothing was written later. */
  lemma AnswerIsItsOwn(run: seq<Step>, id: RequestId, i: nat)
    requires var s := Exec(START, run);
      && id in s.jobs && s.jobs[id].phase == ReadingBack && i < |s.writes| && s.writes[i].id == id
    ensures var s := Exec(START, run);
      var answer := Next(s, Advance(id, false)).jobs[id].phase;
      && answer.Answered? && answer.response.Accepted?
      && (answer.response.row == LeftBy(s.writes[i]) <==> AllLastSetTo(s.writes, i + 1, LeftBy(s.writes[i])))
      && (i == |s.writes| - 1 ==> answer.response.row == LeftBy(s.writes[i]))
  {
    Reachable(run);
    var s := Exec(START, run);
    ReplayIsLeftBy(s.writes, i);
    ReadsBack(s, id);
    RowAfter(s.writes, i + 1);
    if i == |s.writes| - 1 { assert s.writes[..i + 1] == s.writes; }
  }

  lemma ReplayIsLeftBy(writes: seq<Write>, i: nat)
    requires InOrder(writes) && i < |writes|
    ensures Replay(writes[..i + 1]) == LeftBy(writes[i])
  {
    assert writes[..i + 1][..i] == writes[..i];
  }

  lemma ReadsBack(s: System, id: RequestId)
    requires id in s.jobs && s.jobs[id].phase == ReadingBack
    ensures Next(s, Advance(id, false)).jobs[id].phase == Answered(Accepted(s.row))
  {
  }

  /** No page confirmation wrote over a visit already closed. */
  predicate PageBehaved(writes: seq<Write>) {
    forall i :: 0 <= i < |writes| && writes[i].request.ConfirmPublic? ==> !Terminal(writes[i].before.status)
  }

  function StatusAfter(w: Write): Status { Patched(w.before, PatchOf(w.request)).status }

  lemma NeverProposedAgain(w: Write)
    requires !w.request.ConfirmPublic? ==> Allowed(w)
    ensures StatusAfter(w) != PROPOSED
  {
  }

  /** The next write starts where this one ended: not at a proposal, and at a confirmed
      visit unless it is the page's. */
  lemma NextStarts(writes: seq<Write>, i: nat)
    requires InOrder(writes) && i + 1 < |writes|
    ensures writes[i + 1].before.status == StatusAfter(writes[i]) != PROPOSED
    ensures !writes[i + 1].request.ConfirmPublic? ==> StatusAfter(writes[i]) == CONFIRMED
  {
    assert writes[..i + 1][..i] == writes[..i];
    assert writes[i + 1].before == Replay(writes[..i + 1]);
    NeverProposedAgain(writes[i]);
    assert !writes[i + 1].request.ConfirmPublic? ==> Allowed(writes[i + 1]);
  }

  predicate ConfirmedUntilLast(writes: seq<Write>) {
    forall i :: 0 <= i < |writes| - 1 ==> StatusAfter(writes[i]) == CONFIRMED
  }

  lemma PathOf(writes: seq<Write>)
    requires InOrder(writes)
    ensures PageBehaved(writes) <==> ConfirmedUntilLast(writes)
  {
    forall i | 0 <= i < |writes| - 1 && PageBehaved(writes) ensures StatusAfter(writes[i]) == CONFIRMED {
      NextStarts(writes, i);
    }
    forall i | 0 <= i < |writes| && ConfirmedUntilLast(writes) ensures !Terminal(writes[i].before.status) {
      if i > 0 {
        NextStarts(writes, i - 1);
      } else {
        assert writes[0].before == Replay(writes[..0]);
      }
    }
  }

  /** The visit goes from proposed through any number of confirmed stages to one closed
      state at most, which ends it, exactly when no page confirmation wrote over a closed
      one. So one closing request wins at most. */
  lemma LegalPath(run: seq<Step>)
    ensures PageBehaved(Exec(START, run).writes) <==> ConfirmedUntilLast(Exec(START, run).writes)
  {
    Reachable(run);
    PathOf(Exec(START, run).writes);
  }

  function Given<T>(x: Option<T>, before: Option<T>): Option<T> { if x.Some? then x else before }

  /** What a request is for, column by column. */
  predicate Did(r: Request, before: Appointment, after: Appointment) {
    match r
    case Confirm(at, assignee, notes) =>
      after == Appointment(CONFIRMED, Some(at), Given(notes, before.notes), Given(assignee, before.assignee), before.outcome)
    case Reschedule(at, notes) => after == before.(scheduledAt := Some(at), notes := Given(notes, before.notes))
    case Cancel(notes) => after == before.(status := CANCELLED, notes := Given(notes, before.notes))
    case Done(outcome, notes) =>
      after == before.(status := DONE, outcome := Given(outcome, before.outcome), notes := Given(notes, before.notes))
    case NoShow(outcome, notes) =>
      after == before.(status := NO_SHOW, outcome := Given(outcome, before.outcome), notes := Given(notes, before.notes))
    case ConfirmPublic(at) =>
      after == before.(status := CONFIRMED, scheduledAt := Some(at),
                       notes := Some("Confirmado por el cliente desde la agenda p\U{FA}blica"))
  }

  lemma WriteDoes(w: Write)
    ensures Did(w.request, w.before, LeftBy(w))
  {
  }

  /** Every request accepted has done to the row, at its one write, what it was for, and to
      no other column. */
  lemma AcceptedDidIt(run: seq<Step>, id: RequestId) returns (i: nat)
    requires var s := Exec(START, run);
      id in s.jobs && s.jobs[id].phase.Answered? && s.jobs[id].phase.response.Accepted?
    ensures var s := Exec(START, run);
      && i < |s.writes| && s.writes[i].id == id
      && Did(s.jobs[id].request, Replay(s.writes[..i]), Replay(s.writes[..i + 1]))
  {
    Reachable(run);
    var s := Exec(START, run);
    assert WroteBy(s.writes, id, s.jobs[id].request);
    i :| 0 <= i < |s.writes| && s.writes[i].id == id && s.writes[i].request == s.jobs[id].request;
    ReplayIsLeftBy(s.writes, i);
    WriteDoes(s.writes[i]);
  }

  predicate Closes(r: Request) { r.Cancel? || r.Done? || r.NoShow? }

  /** So a closing request that is accepted has the last word, held, missed or cancelled,
      unless the page wrote over a closed visit. */
  lemma ClosingIsFinal(run: seq<Step>, id: RequestId)
    requires var s := Exec(START, run);
      && id in s.jobs && s.jobs[id].phase.Answered? && s.jobs[id].phase.response.Accepted?
      && Closes(s.jobs[id].request) && PageBehaved(s.writes)
    ensures var s := Exec(START, run);
      s.row.status == match s.jobs[id].request case Done(_, _) => DONE case NoShow(_, _) => NO_SHOW case _ => CANCELLED
  {
    var s := Exec(START, run);
    var i := AcceptedDidIt(run, id);
    Reachable(run);
    PathOf(s.writes);
    ReplayIsLeftBy(s.writes, i);
    assert StatusAfter(s.writes[i]) != CONFIRMED;
    assert i == |s.writes| - 1;
    assert s.writes[..i + 1] == s.writes;
  }

  /** A visit confirmed, held or missed has its date. */
  lemma {:induction false} DateIsSet(writes: seq<Write>)
    requires InOrder(writes)
    ensures var row := Replay(writes);
      row.status == CONFIRMED || row.status == DONE || row.status == NO_SHOW ==> row.scheduledAt.Some?
    decreases |writes|
  {
    if writes != [] {
      var front, last := writes[..|writes| - 1], writes[|writes| - 1];
      forall i | 0 <= i < |front| ensures front[i].before == Replay(front[..i]) && front[i] == writes[i] {
        assert writes[..i] == front[..i];
      }
      DateIsSet(front);
      assert last.before == Replay(front);
    }
  }

  lemma ConfirmedIsDated(run: seq<Step>)
    ensures var row := Exec(START, run).row;
      row.status == CONFIRMED || row.status == DONE || row.status == NO_SHOW ==> row.scheduledAt.Some?
  {
    Reachable(run);
    DateIsSet(Exec(START, run).writes);
  }

  // ----- runs that show why the conditions are there -----

  lemma Extend(run: seq<Step>, s: System, step: Step) returns (longer: seq<Step>, t: System)
    requires Exec(START, run) == s
    ensures longer == run + [step] && t == Next(s, step) && Exec(START, longer) == t
  {
    longer, t := run + [step], Next(s, step);
    assert longer[..|run|] == run;
  }

  const BY_PAGE := ConfirmPublic(9)
  const CANCELLING := Cancel(None)

  /** A cancelled visit comes back when the page's confirmation, read before, writes. */
  lemma PageReopensCancelled() returns (run: seq<Step>)
    ensures |run| > 0
    ensures Exec(START, run[..|run| - 1]).row.status == CANCELLED && Exec(START, run).row.status == CONFIRMED
  {
    var s: System;
    run, s := Extend([], START, Begin(1, BY_PAGE));
    run, s := Extend(run, s, Begin(2, CANCELLING));
    run, s := Extend(run, s, Advance(1, false));
    assert s == System(JUST_PROPOSED, map[1 := Job(BY_PAGE, Writing), 2 := Job(CANCELLING, Reading)], []);
    run, s := Extend(run, s, Advance(2, false));
    run, s := Extend(run, s, Advance(2, false));
    assert s.row.status == CANCELLED && s.jobs[1] == Job(BY_PAGE, Writing);
    var before := run;
    run, s := Extend(run, s, Advance(1, false));
    assert run[..|run| - 1] == before;
  }

  const CONFIRMING := Confirm(5, None, None)

  /** An accepted confirmation may answer with a cancelled visit: the row is read back
      after the write, not with it. */
  lemma AnswerShowsAnother() returns (run: seq<Step>)
    ensures var s := Exec(START, run);
      1 in s.jobs && s.jobs[1].request == CONFIRMING && s.jobs[1].phase.Answered?
      && s.jobs[1].phase.response.Accepted? && s.jobs[1].phase.response.row.status == CANCELLED
  {
    var s: System;
    run, s := Extend([], START, Begin(1, CONFIRMING));
    run, s := Extend(run, s, Begin(2, CANCELLING));
    run, s := Extend(run, s, Advance(1, false));
    assert s == System(JUST_PROPOSED, map[1 := Job(CONFIRMING, Writing), 2 := Job(CANCELLING, Reading)], []);
    run, s := Extend(run, s, Advance(1, false));
    assert s.row.status == CONFIRMED && s.jobs == map[1 := Job(CONFIRMING, ReadingBack), 2 := Job(CANCELLING, Reading)];
    run, s := Extend(run, s, Advance(2, false));
    assert s.row.status == CONFIRMED && s.jobs == map[1 := Job(CONFIRMING, ReadingBack), 2 := Job(CANCELLING, Writing)];
    run, s := Extend(run, s, Advance(2, false));
    assert s.row.status == CANCELLED && s.jobs[1] == Job(CONFIRMING, ReadingBack);
    run, s := Extend(run, s, Advance(1, false));
  }

  // ----- the service as it runs -----

  /** Steps of other requests between two calls of request `id`. */
  ghost predicate OthersActed(id: RequestId, s: System, t: System) {
    exists run: seq<Step> :: t == Exec(s, run) && forall k :: 0 <= k < |run| ==> run[k].id != id
  }

  /** Whatever the others do, a request stays where it is. */
  lemma {:induction false} MyPhaseStays(id: RequestId, s: System, run: seq<Step>)
    requires id in s.jobs && forall k :: 0 <= k < |run| ==> run[k].id != id
    ensures id in Exec(s, run).jobs && Exec(s, run).jobs[id] == s.jobs[id]
    decreases |run|
  {
    if run != [] { MyPhaseStays(id, s, run[..|run| - 1]); }
  }

  lemma NobodyActed(id: RequestId, s: System)
    ensures OthersActed(id, s, s)
  {
    assert Exec(s, []) == s;
  }

  class AppointmentsAdminService {
    var row: Appointment
    // The system's state and the run that led to it.
    ghost var at: System
    ghost var done: seq<Step>

    ghost predicate Valid()
      reads this
    {
      at == Exec(START, done) && row == at.row
    }

    constructor ()
      ensures Valid() && done == [] && at == START
    {
      row, at, done := JUST_PROPOSED, START, [];
    }

    ghost predicate IsAt(id: RequestId, r: Request, phase: Phase)
      reads this
    {
      id in at.jobs && at.jobs[id] == Job(r, phase)
    }

    ghost method Record(step: Step)
      requires at == Exec(START, done)
      modifies `at, `done
      ensures at == Next(old(at), step) && done == old(done) + [step] && at == Exec(START, done)
    {
      assert (done + [step])[..|done|] == done;
      at, done := Next(at, step), done + [step];
    }

    /** The first read, with the check of the transition and of the assignee. */
    method FindAndAssert(id: RequestId, r: Request, personMissing: bool) returns (refusal: Option<Response>)
      requires Valid() && IsAt(id, r, Reading)
      modifies this
      ensures Valid() && old(done) <= done && OthersActed(id, Next(old(at), Advance(id, personMissing)), at)
      ensures IsAt(id, r, if refusal.Some? then Answered(refusal.value) else Writing)
    {
      var current := row.status;
      Record(Advance(id, personMissing));
      NobodyActed(id, at);
      if current !in ValidOrigins(r) { return Some(Conflict); }
      if NeedsPerson(r) && personMissing { return Some(BadRequest); }
      return None;
    }

    /** The conditional update and its count. */
    method UpdateMany(id: RequestId, r: Request, origins: set<Status>, data: Patch) returns (count: nat)
      requires Valid() && IsAt(id, r, Writing) && !r.ConfirmPublic?
      requires origins == ValidOrigins(r) && data == PatchOf(r)
      modifies this
      ensures Valid() && old(done) <= done && OthersActed(id, Next(old(at), Advance(id, false)), at)
      ensures IsAt(id, r, if count == 0 then Answered(Conflict) else ReadingBack)
    {
      count := 0;
      if row.status in origins { row, count := Patched(row, data), 1; }
      Record(Advance(id, false));
      NobodyActed(id, at);
    }

    method FindAgain(id: RequestId, r: Request) returns (updated: Appointment)
      requires Valid() && IsAt(id, r, ReadingBack)
      modifies this
      ensures Valid() && old(done) <= done && OthersActed(id, Next(old(at), Advance(id, false)), at)
      ensures IsAt(id, r, Answered(Accepted(updated)))
    {
      updated := row;
      Record(Advance(id, false));
      NobodyActed(id, at);
    }

    method UpdateOrConflict(id: RequestId, r: Request, origins: set<Status>, data: Patch) returns (response: Response)
      requires Valid() && IsAt(id, r, Writing) && !r.ConfirmPublic?
      requires origins == ValidOrigins(r) && data == PatchOf(r)
      modifies this
      ensures Valid() && old(done) <= done && IsAt(id, r, Answered(response))
    {
      var count := UpdateMany(id, r, origins, data);
      if count == 0 { return Conflict; }
      var updated := FindAgain(id, r);
      response := Accepted(updated);
    }

    method ConfirmVisit(id: RequestId, when: Time, assignee: Option<PersonId>, notes: Option<string>, personMissing: bool)
      returns (response: Response)
      requires Valid() && id !in at.jobs
      modifies this
      ensures Valid() && old(done) <= done && IsAt(id, Confirm(when, assignee, notes), Answered(response))
    {
      var r := Confirm(when, assignee, notes);
      Record(Begin(id, r));
      var refusal := FindAndAssert(id, r, personMissing);
      if refusal.Some? { return refusal.value; }
      var data := NO_CHANGE.(status := Some(CONFIRMED), scheduledAt := Some(when));
      if assignee.Some? { data := data.(assignee := assignee); }
      if notes.Some? { data := data.(notes := notes); }
      response := UpdateOrConflict(id, r, {PROPOSED}, data);
    }

    method RescheduleVisit(id: RequestId, when: Time, notes: Option<string>) returns (response: Response)
      requires Valid() && id !in at.jobs
      modifies this
      ensures Valid() && old(done) <= done && IsAt(id, Reschedule(when, notes), Answered(response))
    {
      var r := Reschedule(when, notes);
      Record(Begin(id, r));
      var refusal := FindAndAssert(id, r, false);
      if refusal.Some? { return refusal.value; }
      var data := NO_CHANGE.(scheduledAt := Some(when));
      if notes.Some? { data := data.(notes := notes); }
      response := UpdateOrConflict(id, r, {CONFIRMED}, data);
    }

    method CancelVisit(id: RequestId, notes: Option<string>) returns (response: Response)
      requires Valid() && id !in at.jobs
      modifies this
      ensures Valid() && old(done) <= done && IsAt(id, Cancel(notes), Answered(response))
    {
      var r := Cancel(notes);
      Record(Begin(id, r));
      var refusal := FindAndAssert(id, r, false);
      if refusal.Some? { return refusal.value; }
      var data := NO_CHANGE.(status := Some(CANCELLED));
      if notes.Some? { data := data.(notes := notes); }
      response := UpdateOrConflict(id, r, {PROPOSED, CONFIRMED}, data);
    }

    method Close(id: RequestId, outcome: Option<string>, notes: Option<string>, target: Status) returns (response: Response)
      requires Valid() && id !in at.jobs && (target == DONE || target == NO_SHOW)
      modifies this
      ensures Valid() && old(done) <= done
      ensures IsAt(id, if target == DONE then Done(outcome, notes) else NoShow(outcome, notes), Answered(response))
    {
      var r := if target == DONE then Done(outcome, notes) else NoShow(outcome, notes);
      Record(Begin(id, r));
      var refusal := FindAndAssert(id, r, false);
      if refusal.Some? { return refusal.value; }
      var data := NO_CHANGE.(status := Some(target));
      if outcome.Some? { data := data.(outcome := outcome); }
      if notes.Some? { data := data.(notes := notes); }
      response := UpdateOrConflict(id, r, {CONFIRMED}, data);
    }
  }
}
