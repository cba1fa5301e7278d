/** The scheduler's code, with its calls to Redis, the job queue and the database one by
    one. Each call is one step of the turn protocol, after which other parties may take
    any number of steps of their own: a caller relies on the call's contract alone, which
    leaves all of them open. */
module DebounceBuffer {
  import opened Common
  import opened TurnProtocol
  import opened TurnScheduling

  datatype JobStatus = NoJob | Waiting | Active | Completed

  function StatusOf(job: Job): JobStatus {
    match job case Absent => NoJob case Pending => Waiting case Running(_) => Active case Finished => Completed
  }

  /** Where one party stands. */
  datatype Place =
    | Pushing(m: MsgId, push: PushPc) | Pushed(m: MsgId)
    | Working(job: JobId, work: WorkerPc)
    | Sending(n: SendId, send: SendPc) | SendOver(n: SendId)

  ghost predicate IsAt(s: State, p: Place) {
    match p
    case Pushing(m, pc) => m in s.mail.pushed && m in s.queue.pushes && s.queue.pushes[m] == pc
    case Pushed(m) => m in s.mail.pushed && m !in s.queue.pushes
    case Working(j, pc) => Slot(s.queue, j) == Running(pc)
    case Sending(n, pc) => n in s.desk.sends && s.desk.sends[n] == pc
    case SendOver(n) => n !in s.desk.sends
  }

  predicate ByOthers(p: Place, a: Action) {
    match p
    case Pushing(m, _) => a != PushStep(m) && a != BeginPush(m)
    case Pushed(m) => a != PushStep(m) && a != BeginPush(m)
    case Working(j, _) => !(a.Work? && a.job == j)
    case Sending(n, _) => !(a.SendStep? && a.n == n) && a != BeginSend(n)
    case SendOver(n) => !(a.SendStep? && a.n == n) && a != BeginSend(n)
  }

  /** Others may have acted between `s` and `t`. */
  ghost predicate OthersActed(p: Place, s: State, t: State) {
    exists run :: t == Exec(s, run) && forall k :: 0 <= k < |run| ==> ByOthers(p, run[k])
  }

  lemma OthersWork(p: Place, s: State, j: JobId, c: Choice)
    requires IsAt(s, p) && ByOthers(p, Work(j, c)) && Slot(s.queue, j).Running?
    ensures IsAt(WorkNext(s, j, c), p)
  {
    WorkFrame(s.queue, s.locked, s.desk.row, j, c);
    if p.Working? { assert p.job == Other(j); }
  }

  lemma OthersSend(p: Place, s: State, n: SendId, fails: bool)
    requires IsAt(s, p) && ByOthers(p, SendStep(n, fails)) && n in s.desk.sends
    ensures IsAt(SendNext(s, n, fails), p)
    ensures p.Sending? || p.SendOver? ==>
      var t := SendNext(s, n, fails).desk;
      (p.n in t.outbox <==> p.n in s.desk.outbox) && (p.n in t.messages <==> p.n in s.desk.messages)
  {
    SendFrame(s.desk, s.locked, n, fails);
  }

  lemma OthersStep(p: Place, s: State, a: Action)
    requires IsAt(s, p) && ByOthers(p, a)
    ensures IsAt(Next(s, a), p)
    ensures p.Sending? || p.SendOver? ==>
      (p.n in Next(s, a).desk.outbox <==> p.n in s.desk.outbox) && (p.n in Next(s, a).desk.messages <==> p.n in s.desk.messages)
  {
    match a
    case Work(j, c) => if Slot(s.queue, j).Running? { OthersWork(p, s, j, c); }
    case PushStep(m) => if m in s.queue.pushes { PushFrame(s.queue, m); }
    case SendStep(n, fails) => if n in s.desk.sends { OthersSend(p, s, n, fails); }
    case Deliver(_) => case BeginPush(_) => case Take(_) => case BeginSend(_) =>
    case AdminRelease(_) => case AdminOptOut => case Expire =>
  }

  /** Whatever the others do, a party stays where it is, and so does the message of a
      send: what the contracts below leave standing holds under any interference. */
  lemma {:induction false} MyPlaceStays(p: Place, s: State, run: seq<Action>)
    requires IsAt(s, p) && forall k :: 0 <= k < |run| ==> ByOthers(p, run[k])
    ensures IsAt(Exec(s, run), p)
    ensures p.Sending? || p.SendOver? ==>
      (p.n in Exec(s, run).desk.outbox <==> p.n in s.desk.outbox)
      && (p.n in Exec(s, run).desk.messages <==> p.n in s.desk.messages)
    decreases |run|
  {
    if run != [] {
      MyPlaceStays(p, s, run[..|run| - 1]);
      OthersStep(p, Exec(s, run[..|run| - 1]), run[|run| - 1]);
    }
  }

  lemma NobodyActed(p: Place, s: State)
    ensures OthersActed(p, s, s)
  {
    assert Exec(s, []) == s;
  }

  // ----- which call each place makes -----

  predicate Looks(p: Place, j: JobId) {
    || (p.Pushing? && ((p.push == PushCancelLook && j == RETRY) || (p.push == PushTurnLook && j == TURN)))
    || (p.Working? && (p.work == RetryLook || p.work == CancelLook) && j == RETRY)
  }

  function AfterLook(p: Place, found: bool): Place
    requires Looks(p, TURN) || Looks(p, RETRY)
  {
    if p.Pushing? then
      if p.push == PushCancelLook then p.(push := if found then PushCancelDrop else PushTurnLook)
      else p.(push := if found then PushTurnDrop else PushAdd)
    else if p.work == RetryLook then p.(work := if found then RetryDrop else RetryAdd)
    else p.(work := if found then CancelDrop else ReadBuffer)
  }

  predicate Drops(p: Place, j: JobId) {
    || (p.Pushing? && ((p.push == PushCancelDrop && j == RETRY) || (p.push == PushTurnDrop && j == TURN)))
    || (p.Working? && (p.work == RetryDrop || p.work == CancelDrop) && j == RETRY)
  }

  function AfterDrop(p: Place): Place
    requires Drops(p, TURN) || Drops(p, RETRY)
  {
    if p.Pushing? then p.(push := if p.push == PushCancelDrop then PushTurnLook else PushAdd)
    else p.(work := if p.work == RetryDrop then RetryAdd else ReadBuffer)
  }

  const NO_CHOICE := Choice(0, false, false, false, false)

  function StepOf(p: Place): Action
    requires !p.Pushed? && !p.SendOver?
  {
    match p
    case Pushing(m, _) => PushStep(m)
    case Working(j, _) => Work(j, NO_CHOICE)
    case Sending(n, _) => SendStep(n, false)
  }

  lemma LookIsAStep(s: State, p: Place, j: JobId)
    requires IsAt(s, p) && Looks(p, j)
    ensures IsAt(Next(s, StepOf(p)), AfterLook(p, !Slot(s.queue, j).Absent?))
    ensures Next(s, StepOf(p)).queue.buffer == s.queue.buffer
    ensures StatusOf(Next(s, StepOf(p)).queue.turn) == StatusOf(s.queue.turn)
    ensures StatusOf(Next(s, StepOf(p)).queue.retry) == StatusOf(s.queue.retry)
    ensures Next(s, StepOf(p)).locked == s.locked && Next(s, StepOf(p)).desk == s.desk
  {
  }

  predicate GoneOrActive(q: Scheduler, j: JobId) { Slot(q, j).Absent? || Slot(q, j).Running? }

  lemma DropIsAStep(s: State, p: Place, j: JobId)
    requires IsAt(s, p) && Drops(p, j)
    ensures var t := Next(s, StepOf(p));
      && IsAt(t, AfterDrop(p)) && t.queue.buffer == s.queue.buffer && t.locked == s.locked && t.desk == s.desk
      && StatusOf(t.queue.turn)
         == (if j == TURN && StatusOf(s.queue.turn) != Active then NoJob else StatusOf(s.queue.turn))
      && StatusOf(t.queue.retry)
         == (if j == RETRY && StatusOf(s.queue.retry) != Active then NoJob else StatusOf(s.queue.retry))
      && GoneOrActive(t.queue, j)
  {
  }

  predicate Acquires(p: Place) { (p.Working? && p.work == AcquireLock) || (p.Sending? && p.send == SendLock) }

  function AfterAcquire(p: Place, ok: bool): Place
    requires Acquires(p)
  {
    if p.Working? then p.(work := if ok then CancelLook else RetryLook)
    else if ok then Sending(p.n, SendCommit) else SendOver(p.n)
  }

  function AfterDelete(j: JobId, raw: seq<MsgId>): Place {
    Working(j, if raw == [] then ReleaseLock else ReadLead)
  }

  function AfterRead(j: JobId, seen: Row, c: Choice): Place {
    Working(j, if c.skips then ReleaseLock else WriteLead(seen, c))
  }

  lemma LockIsAStep(s: State, p: Place)
    requires IsAt(s, p) && Acquires(p)
    ensures var t := Next(s, StepOf(p));
      && t.locked && IsAt(t, AfterAcquire(p, !s.locked)) && t.queue.buffer == s.queue.buffer
      && StatusOf(t.queue.turn) == StatusOf(s.queue.turn) && StatusOf(t.queue.retry) == StatusOf(s.queue.retry)
      && t.desk.row == s.desk.row && t.desk.messages == s.desk.messages && t.desk.outbox == s.desk.outbox
  {
    if p.Working? {
      assert Slot(Next(s, StepOf(p)).queue, Other(p.job)) == Slot(s.queue, Other(p.job));
    }
  }

  lemma RetryIsAStep(s: State, j: JobId)
    requires IsAt(s, Working(j, RetryAdd))
    ensures var t := Next(s, Work(j, NO_CHOICE));
      && t.locked == s.locked && t.desk == s.desk && t.queue.buffer == s.queue.buffer
      && StatusOf(t.queue.turn) == (if j == TURN then Completed else StatusOf(s.queue.turn))
      && StatusOf(t.queue.retry)
         == (if j == RETRY then Completed
             else if StatusOf(s.queue.retry) == NoJob then Waiting else StatusOf(s.queue.retry))
  {
  }

  lemma ReadIsAStep(s: State, j: JobId, c: Choice)
    requires IsAt(s, Working(j, ReadLead))
    ensures var t := Next(s, Work(j, c));
      && IsAt(t, AfterRead(j, s.desk.row, c)) && t.desk == s.desk && t.locked == s.locked && t.queue.buffer == s.queue.buffer
      && StatusOf(t.queue.turn) == StatusOf(s.queue.turn) && StatusOf(t.queue.retry) == StatusOf(s.queue.retry)
  {
  }

  lemma DeleteIsAStep(s: State, j: JobId, raw: seq<MsgId>)
    requires IsAt(s, Working(j, DeleteBuffer(raw)))
    ensures var t := Next(s, Work(j, NO_CHOICE));
      && IsAt(t, AfterDelete(j, raw)) && t.queue.buffer == [] && t.desk == s.desk && t.locked == s.locked
      && StatusOf(t.queue.turn) == StatusOf(s.queue.turn) && StatusOf(t.queue.retry) == StatusOf(s.queue.retry)
  {
  }

  lemma WriteIsAStep(s: State, j: JobId, seen: Row, c: Choice)
    requires IsAt(s, Working(j, WriteLead(seen, c)))
    ensures var t := Next(s, Work(j, NO_CHOICE));
      && IsAt(t, Working(j, ReleaseLock)) && t.queue.buffer == s.queue.buffer && t.locked == s.locked
      && t.desk == s.desk.(row := if Decide(seen, c).Some? then Decide(seen, c).value else s.desk.row)
      && StatusOf(t.queue.turn) == StatusOf(s.queue.turn) && StatusOf(t.queue.retry) == StatusOf(s.queue.retry)
  {
  }

  predicate Sends(pc: SendPc) { pc == SendCommit || pc == SendEnqueue || pc == SendCompensate }

  lemma SendIsAStep(s: State, n: SendId, pc: SendPc, fails: bool)
    requires IsAt(s, Sending(n, pc)) && Sends(pc)
    ensures Next(s, SendStep(n, fails)) == s.(desk := SendDesk(s.desk, s.locked, n, fails))
  {
  }

  lemma EndIsAStep(s: State, j: JobId)
    requires IsAt(s, Working(j, ReleaseLock))
    ensures var t := Next(s, Work(j, NO_CHOICE));
      && !t.locked && t.desk == s.desk && t.queue.buffer == s.queue.buffer
      && StatusOf(t.queue.turn) == (if j == TURN then Completed else StatusOf(s.queue.turn))
      && StatusOf(t.queue.retry) == (if j == RETRY then Completed else StatusOf(s.queue.retry))
  {
  }

  // ----- the service of one lead -----

  // ----- what a run shows of a call -----

  /** The step `k` of a run, taken at place `p`. */
  ghost predicate TookAt(run: seq<Action>, k: nat, p: Place, a: Action) {
    k < |run| && run[k] == a && IsAt(Exec(START, run[..k]), p)
  }

  /** The last step of a turn job: adding the retry, or giving back the lock. */
  ghost predicate EndsAt(run: seq<Action>, k: nat, j: JobId, pc: WorkerPc) {
    && k < |run| && TookAt(run, k, Working(j, pc), run[k]) && run[k].Work? && run[k].job == j
    && Slot(Exec(START, run[..k + 1]).queue, j) == Finished
    && (pc == ReleaseLock ==> !Exec(START, run[..k + 1]).locked)
  }

  /** Since `before` the job has come to its end, no longer holding the lock. */
  ghost predicate Ended(before: seq<Action>, run: seq<Action>, j: JobId, pc: WorkerPc) {
    && before <= run
    && exists k :: |before| <= k < |run| && EndsAt(run, k, j, pc)
  }

  /** Step by step: at `p` the step `a` came first, others may have followed. */
  lemma EndedAtOnce(before: seq<Action>, run: seq<Action>, j: JobId, pc: WorkerPc, a: Action)
    requires before + [a] <= run && a.Work? && a.job == j && (pc == RetryAdd || pc == ReleaseLock)
    requires IsAt(Exec(START, before), Working(j, pc))
    ensures Ended(before, run, j, pc)
  {
    var k := |before|;
    assert run[..k] == before && run[..k + 1] == before + [a];
    assert (before + [a])[..k] == before;
    assert EndsAt(run, k, j, pc);
  }

  /** Since `before` job `j` has deleted the buffer, having read `raw`. */
  ghost predicate Popped(before: seq<Action>, run: seq<Action>, j: JobId, raw: seq<MsgId>) {
    && before <= run
    && exists k :: |before| <= k < |run| && DeletesAt(run, k, j, raw)
  }

  ghost predicate DeletesAt(run: seq<Action>, k: nat, j: JobId, raw: seq<MsgId>) {
    && k < |run| && TookAt(run, k, Working(j, DeleteBuffer(raw)), run[k]) && run[k].Work? && run[k].job == j
    && Exec(START, run[..k + 1]).queue.buffer == []
  }

  lemma PoppedAtOnce(before: seq<Action>, run: seq<Action>, j: JobId, raw: seq<MsgId>, a: Action)
    requires before + [a] <= run && a.Work? && a.job == j
    requires IsAt(Exec(START, before), Working(j, DeleteBuffer(raw)))
    ensures Popped(before, run, j, raw)
  {
    var k := |before|;
    assert run[..k] == before && run[..k + 1] == before + [a];
    assert (before + [a])[..k] == before;
    assert DeletesAt(run, k, j, raw);
  }

  lemma EndedLater(before: seq<Action>, mid: seq<Action>, run: seq<Action>, j: JobId, pc: WorkerPc)
    requires before <= mid && Ended(mid, run, j, pc)
    ensures Ended(before, run, j, pc)
  {
  }

  /** Since `before` job `j` has been seen gone, or at work and so not to be removed. */
  ghost predicate Cleared(before: seq<Action>, run: seq<Action>, j: JobId) {
    && before <= run
    && exists k :: |before| <= k <= |run| && GoneOrActive(Exec(START, run[..k]).queue, j)
  }

  lemma ClearedAt(before: seq<Action>, mid: seq<Action>, run: seq<Action>, j: JobId)
    requires before <= mid <= run && GoneOrActive(Exec(START, mid).queue, j)
    ensures Cleared(before, run, j)
  {
    assert run[..|mid|] == mid;
  }

  lemma ClearedStill(before: seq<Action>, mid: seq<Action>, run: seq<Action>, later: seq<Action>, j: JobId)
    requires before <= mid && Cleared(mid, run, j) && run <= later
    ensures Cleared(before, later, j)
  {
    var k :| |mid| <= k <= |run| && GoneOrActive(Exec(START, run[..k]).queue, j);
    ClearedAt(before, run[..k], later, j);
  }

  /** Since `before` the push of `m` has added the turn job, which then waits for its worker
      unless it was at work in between. */
  ghost predicate TurnAdded(before: seq<Action>, run: seq<Action>, m: MsgId) {
    before <= run && exists k :: AddsTurn(run, |before|, k, m)
  }

  lemma AddedSince(before: seq<Action>, mid: seq<Action>, run: seq<Action>, m: MsgId)
    requires before <= mid <= run
    requires IsAt(Exec(START, mid), Pushing(m, PushCancelLook)) && IsAt(Exec(START, run), Pushed(m))
    ensures TurnAdded(before, run, m)
  {
    assert run[..|mid|] == mid;
    var k := PushAddsTurn(run, |mid|, m);
    assert AddsTurn(run, |before|, k, m);
  }

  /** The same of the retry that a turn job adds when it meets a busy lock. */
  ghost predicate RetryAdded(before: seq<Action>, run: seq<Action>) {
    before <= run && exists k :: AddsRetry(run, |before|, k)
  }

  lemma RetryAddedSince(before: seq<Action>, mid: seq<Action>, ending: seq<Action>, run: seq<Action>)
    requires before <= mid <= ending <= run && IsAt(Exec(START, mid), Working(TURN, RetryLook))
    requires Ended(mid, run, TURN, RetryAdd)
    ensures RetryAdded(before, run)
  {
    var k :| |mid| <= k < |run| && EndsAt(run, k, TURN, RetryAdd);
    var part := run[..k + 1];
    assert part[..|mid|] == mid;
    var l := BusyTurnAddsRetry(part, |mid|);
    AddsRetryStill(part, run, |before|, |mid|, l);
  }

  lemma AddsRetryStill(part: seq<Action>, run: seq<Action>, from: nat, later: nat, l: nat)
    requires part <= run && from <= later && AddsRetry(part, later, l)
    ensures AddsRetry(run, from, l)
  {
    assert part[..l] == run[..l] && part[..l + 1] == run[..l + 1];
  }

  lemma RetryAddedStill(before: seq<Action>, mid: seq<Action>, run: seq<Action>)
    requires before <= mid && RetryAdded(mid, run)
    ensures RetryAdded(before, run)
  {
    var k :| AddsRetry(run, |mid|, k);
    assert AddsRetry(run, |before|, k);
  }

  /** Since `before` the step `a` was taken at place `p` in state `s`. */
  ghost predicate StepTaken(before: seq<Action>, run: seq<Action>, p: Place, a: Action, s: State) {
    && before <= run
    && exists k :: |before| <= k < |run| && TookAt(run, k, p, a) && s == Exec(START, run[..k])
  }

  lemma StepJustTaken(before: seq<Action>, run: seq<Action>, p: Place, a: Action)
    requires before + [a] <= run && IsAt(Exec(START, before), p)
    ensures StepTaken(before, run, p, a, Exec(START, before))
  {
    var k := |before|;
    assert run[..k] == before && run[k] == (before + [a])[k];
    assert TookAt(run, k, p, a);
  }

  lemma StepStillTaken(before: seq<Action>, mid: seq<Action>, run: seq<Action>, later: seq<Action>,
                       p: Place, a: Action, s: State)
    requires before <= mid && StepTaken(mid, run, p, a, s) && run <= later
    ensures StepTaken(before, later, p, a, s)
  {
    var k :| |mid| <= k < |run| && TookAt(run, k, p, a) && s == Exec(START, run[..k]);
    assert later[..k] == run[..k];
    assert TookAt(later, k, p, a);
  }

  /** The turn has read the lead's row `seen`. */
  ghost predicate LeadRead(before: seq<Action>, run: seq<Action>, j: JobId, c: Choice, seen: Row) {
    exists s :: StepTaken(before, run, Working(j, ReadLead), Work(j, c), s) && s.desk.row == seen
  }

  /** What a turn that saw the row `seen` makes of the row: it opts out whoever asks and has
      not yet; it leaves an opted-out lead alone, and one handed off unless that timed out;
      else the lead goes where the turn decides. */
  predicate Writes(seen: Row, c: Choice, row: Row, after: Row) {
    && (seen == OptedOut ==> after == row)
    && (seen != OptedOut && c.optsOut ==> after == OptedOut)
    && (seen.Handoff? && !c.optsOut && !c.timedOut ==> after == row)
    && (seen != OptedOut && !c.optsOut && (seen.Handoff? ==> c.timedOut) ==>
          after == if c.handsOff then Handoff(None) else Bot(c.state))
  }

  ghost predicate LeadWritten(before: seq<Action>, run: seq<Action>, j: JobId, c: Choice, seen: Row) {
    exists s :: StepTaken(before, run, Working(j, WriteLead(seen, c)), Work(j, NO_CHOICE), s)
      && Writes(seen, c, s.desk.row, Next(s, Work(j, NO_CHOICE)).desk.row)
  }

  /** A turn read the row and, unless it was skipped, has written what it makes of it. */
  ghost predicate Handled(before: seq<Action>, run: seq<Action>, j: JobId, c: Choice) {
    && before <= run
    && exists seen :: LeadRead(before, run, j, c, seen) && (!c.skips ==> LeadWritten(before, run, j, c, seen))
  }

  lemma ReadStill(before: seq<Action>, mid: seq<Action>, run: seq<Action>, later: seq<Action>,
                  j: JobId, c: Choice, seen: Row)
    requires before <= mid && LeadRead(mid, run, j, c, seen) && run <= later
    ensures LeadRead(before, later, j, c, seen)
  {
    var s :| StepTaken(mid, run, Working(j, ReadLead), Work(j, c), s) && s.desk.row == seen;
    StepStillTaken(before, mid, run, later, Working(j, ReadLead), Work(j, c), s);
  }

  lemma WrittenStill(before: seq<Action>, mid: seq<Action>, run: seq<Action>, later: seq<Action>,
                     j: JobId, c: Choice, seen: Row)
    requires before <= mid && LeadWritten(mid, run, j, c, seen) && run <= later
    ensures LeadWritten(before, later, j, c, seen)
  {
    var s :| StepTaken(mid, run, Working(j, WriteLead(seen, c)), Work(j, NO_CHOICE), s)
      && Writes(seen, c, s.desk.row, Next(s, Work(j, NO_CHOICE)).desk.row);
    StepStillTaken(before, mid, run, later, Working(j, WriteLead(seen, c)), Work(j, NO_CHOICE), s);
  }

  lemma HandledStill(before: seq<Action>, mid: seq<Action>, run: seq<Action>, later: seq<Action>, j: JobId, c: Choice)
    requires before <= mid && Handled(mid, run, j, c) && run <= later
    ensures Handled(before, later, j, c)
  {
    var seen :| LeadRead(mid, run, j, c, seen) && (!c.skips ==> LeadWritten(mid, run, j, c, seen));
    ReadStill(before, mid, run, later, j, c, seen);
    if !c.skips { WrittenStill(before, mid, run, later, j, c, seen); }
  }

  /** A pop has happened, and a turn over what it took if that was anything. */
  ghost predicate Answered(before: seq<Action>, run: seq<Action>, j: JobId, c: Choice) {
    exists raw :: Popped(before, run, j, raw) && (raw != [] ==> Handled(before, run, j, c))
  }

  lemma PoppedStill(before: seq<Action>, mid: seq<Action>, run: seq<Action>, later: seq<Action>,
                    j: JobId, raw: seq<MsgId>)
    requires before <= mid && Popped(mid, run, j, raw) && run <= later
    ensures Popped(before, later, j, raw)
  {
    var k :| |mid| <= k < |run| && DeletesAt(run, k, j, raw);
    assert later[..k] == run[..k] && later[..k + 1] == run[..k + 1];
    assert DeletesAt(later, k, j, raw);
  }

  lemma AnsweredStill(before: seq<Action>, mid: seq<Action>, run: seq<Action>, j: JobId, c: Choice)
    requires before <= mid && Answered(mid, run, j, c)
    ensures Answered(before, run, j, c)
  {
    var raw :| Popped(mid, run, j, raw) && (raw != [] ==> Handled(mid, run, j, c));
    PoppedStill(before, mid, run, run, j, raw);
    if raw != [] { HandledStill(before, mid, run, run, j, c); }
  }

  lemma FlushSoFar(before: seq<Action>, cancelled: seq<Action>, popped: seq<Action>, mid: seq<Action>,
                   run: seq<Action>, j: JobId, c: Choice, raw: seq<MsgId>)
    requires Cleared(before, cancelled, RETRY) && Popped(cancelled, popped, j, raw) && popped <= mid
    requires raw != [] ==> Handled(popped, mid, j, c)
    requires Ended(mid, run, j, ReleaseLock)
    ensures Ended(before, run, j, ReleaseLock) && Cleared(before, run, RETRY) && Answered(before, run, j, c)
  {
    EndedLater(before, mid, run, j, ReleaseLock);
    ClearedStill(before, before, cancelled, run, RETRY);
    PoppedStill(before, cancelled, popped, run, j, raw);
    if raw != [] { HandledStill(before, popped, mid, run, j, c); }
  }

  /** What a manual send came to. */
  datatype SendResult = LeadOptedOut | LeadLocked | NotQueued | Queued

  /** A step of the send, taken at `pc` with the row and lock such that it came to `result`. */
  ghost predicate Explains(run: seq<Action>, k: nat, n: SendId, result: SendResult) {
    && k < |run| && run[k].SendStep? && run[k].n == n
    && var s, t := Exec(START, run[..k]), Exec(START, run[..k + 1]);
      match result
      case LeadOptedOut => (IsAt(s, Sending(n, SendCheck)) || IsAt(s, Sending(n, SendCommit))) && s.desk.row == OptedOut
      case LeadLocked => IsAt(s, Sending(n, SendLock)) && s.locked
      case NotQueued => IsAt(s, Sending(n, SendEnqueue)) && IsAt(t, Sending(n, SendCompensate))
      case Queued => IsAt(s, Sending(n, SendCommit)) && t.desk.row == Handoff(Some(n))
  }

  /** Since `before` such a step was taken. */
  ghost predicate Explained(before: seq<Action>, run: seq<Action>, n: SendId, result: SendResult) {
    && before <= run
    && exists k :: |before| <= k < |run| && Explains(run, k, n, result)
  }

  lemma StepsApart(before: seq<Action>, a: Action)
    ensures var all := before + [a];
      all[..|before|] == before && all[..|before| + 1] == all && Exec(START, all) == Next(Exec(START, before), a)
  {
  }

  lemma ExplainedByStep(before: seq<Action>, mid: seq<Action>, run: seq<Action>, a: Action, n: SendId, result: SendResult)
    requires before <= mid && mid + [a] <= run && Explains(mid + [a], |mid|, n, result)
    ensures Explained(before, run, n, result)
  {
    var all, k := mid + [a], |mid|;
    assert run[..k] == all[..k] && run[..k + 1] == all[..k + 1];
    assert Explains(run, k, n, result);
  }

  lemma ExplainedStill(before: seq<Action>, mid: seq<Action>, run: seq<Action>, later: seq<Action>,
                       n: SendId, result: SendResult)
    requires before <= mid && Explained(mid, run, n, result) && run <= later
    ensures Explained(before, later, n, result)
  {
    var k :| |mid| <= k < |run| && Explains(run, k, n, result);
    assert later[..k] == run[..k] && later[..k + 1] == run[..k + 1];
    assert Explains(later, k, n, result);
  }

  class DebounceBufferService {
    var buffer: seq<MsgId>
    var turn: JobStatus
    var retry: JobStatus
    var locked: bool
    var row: Row
    var stored: set<SendId>
    var queued: set<SendId>
    // The protocol's state and the run that led to it.
    ghost var at: State
    ghost var done: seq<Action>

    ghost predicate Valid()
      reads this
    {
      && at == Exec(START, done)
      && buffer == at.queue.buffer && turn == StatusOf(at.queue.turn) && retry == StatusOf(at.queue.retry)
      && locked == at.locked && row == at.desk.row && stored == at.desk.messages && queued == at.desk.outbox
    }

    constructor ()
      ensures Valid() && done == [] && at == START
    {
      buffer, turn, retry, locked := [], NoJob, NoJob, false;
      row, stored, queued := Bot(0), {}, {};
      at, done := START, [];
    }

    /** So whatever calls are made on it, and whoever interferes, all that holds of the
        protocol's runs holds here. */
    lemma KeepsProtocol()
      requires Valid()
      ensures Invariant(at)
    {
      Reachable(done);
    }

    /** The ghost step that goes with a call. */
    ghost method Record(a: Action)
      requires at == Exec(START, done)
      modifies `at, `done
      ensures at == Next(old(at), a) && done == old(done) + [a] && at == Exec(START, done)
    {
      assert (done + [a])[..|done|] == done;
      at, done := Next(at, a), done + [a];
    }

    // -- one call each --

    method RPush(m: MsgId)
      requires Valid() && m in at.mail.inbox
      modifies this
      ensures Valid() && old(done) <= done && IsAt(at, Pushing(m, PushCancelLook))
      ensures OthersActed(Pushing(m, PushCancelLook), Next(old(at), BeginPush(m)), at)
    {
      buffer := buffer + [m];
      Record(BeginPush(m));
      NobodyActed(Pushing(m, PushCancelLook), at);
    }

    method GetJob(j: JobId, ghost p: Place) returns (found: bool)
      requires Valid() && IsAt(at, p) && Looks(p, j)
      modifies this
      ensures Valid() && old(done) <= done && IsAt(at, AfterLook(p, found))
      ensures found == !Slot(old(at).queue, j).Absent?
      ensures OthersActed(p, Next(old(at), StepOf(p)), at)
    {
      found := (if j == TURN then turn else retry) != NoJob;
      LookIsAStep(at, p, j);
      Record(StepOf(p));
      NobodyActed(p, at);
    }

    method Remove(j: JobId, ghost p: Place)
      requires Valid() && IsAt(at, p) && Drops(p, j)
      modifies this
      ensures Valid() && IsAt(at, AfterDrop(p)) && Cleared(old(done), done, j)
      ensures OthersActed(p, Next(old(at), StepOf(p)), at)
    {
      if j == TURN && turn != Active { turn := NoJob; }
      if j == RETRY && retry != Active { retry := NoJob; }
      DropIsAStep(at, p, j);
      ghost var before := done;
      Record(StepOf(p));
      ClearedAt(before, done, done, j);
      NobodyActed(p, at);
    }

    method AddTurn(m: MsgId)
      requires Valid() && IsAt(at, Pushing(m, PushAdd))
      modifies this
      ensures Valid() && old(done) <= done && IsAt(at, Pushed(m))
      ensures OthersActed(Pushed(m), Next(old(at), PushStep(m)), at)
    {
      if turn == NoJob { turn := Waiting; }
      Record(PushStep(m));
      NobodyActed(Pushed(m), at);
    }

    method AddRetry(j: JobId)
      requires Valid() && IsAt(at, Working(j, RetryAdd))
      modifies this
      ensures Valid() && Ended(old(done), done, j, RetryAdd)
      ensures OthersActed(Working(j, RetryAdd), Next(old(at), Work(j, NO_CHOICE)), at)
    {
      if retry == NoJob { retry := Waiting; }
      if j == TURN { turn := Completed; } else { retry := Completed; }
      RetryIsAStep(at, j);
      ghost var before := done;
      Record(Work(j, NO_CHOICE));
      EndedAtOnce(before, done, j, RetryAdd, Work(j, NO_CHOICE));
      NobodyActed(Working(j, RetryAdd), at);
    }

    // -- push --

    method RemoveJobIfExists(j: JobId, ghost p: Place)
      requires Valid() && IsAt(at, p) && Looks(p, j)
      modifies this
      ensures Valid() && IsAt(at, AfterLook(p, false)) && Cleared(old(done), done, j)
    {
      ghost var before := done;
      var existing := GetJob(j, p);
      if !existing {
        ClearedAt(before, before, done, j);
        return;
      }
      ghost var mid := done;
      Remove(j, AfterLook(p, true));
      ClearedStill(before, mid, done, done, j);
    }

    method ScheduleTurn(m: MsgId)
      requires Valid() && IsAt(at, Pushing(m, PushCancelLook))
      modifies this
      ensures Valid() && IsAt(at, Pushed(m))
      ensures Cleared(old(done), done, RETRY) && TurnAdded(old(done), done, m)
    {
      ghost var before := done;
      RemoveJobIfExists(RETRY, Pushing(m, PushCancelLook));
      ghost var cancelled := done;
      RemoveJobIfExists(TURN, Pushing(m, PushTurnLook));
      AddTurn(m);
      ClearedStill(before, before, cancelled, done, RETRY);
      AddedSince(before, before, done, m);
    }

    /** Ends with the retry cancelled and the turn job waiting for its worker, unless these
        were at work. */
    method Push(m: MsgId)
      requires Valid() && m in at.mail.inbox
      modifies this
      ensures Valid() && IsAt(at, Pushed(m))
      ensures Cleared(old(done), done, RETRY) && TurnAdded(old(done), done, m)
    {
      ghost var before := done;
      RPush(m);
      ghost var pushed := done;
      ScheduleTurn(m);
      ClearedStill(before, pushed, done, done, RETRY);
      AddedSince(before, pushed, done, m);
    }

    // -- tryFlush --

    /** SET NX: taken exactly if it was free. */
    method TryLock(ghost p: Place) returns (ok: bool)
      requires Valid() && IsAt(at, p) && Acquires(p)
      modifies this
      ensures Valid() && old(done) <= done && IsAt(at, AfterAcquire(p, ok)) && ok == !old(locked)
      ensures p.Sending? && !ok ==> Explained(old(done), done, p.n, LeadLocked)
      ensures p.Sending? ==> (p.n in stored <==> p.n in old(stored)) && (p.n in queued <==> p.n in old(queued))
      ensures OthersActed(AfterAcquire(p, ok), Next(old(at), StepOf(p)), at)
    {
      ok := !locked;
      locked := true;
      LockIsAStep(at, p);
      ghost var before, s := done, at;
      Record(StepOf(p));
      if p.Sending? && !ok {
        StepsApart(before, StepOf(p));
        ExplainedByStep(before, before, done, StepOf(p), p.n, LeadLocked);
      }
      NobodyActed(AfterAcquire(p, ok), at);
    }

    method LRange(j: JobId) returns (raw: seq<MsgId>)
      requires Valid() && IsAt(at, Working(j, ReadBuffer))
      modifies this
      ensures Valid() && old(done) <= done && IsAt(at, Working(j, DeleteBuffer(raw))) && raw == old(buffer)
      ensures OthersActed(Working(j, DeleteBuffer(raw)), Next(old(at), Work(j, NO_CHOICE)), at)
    {
      raw := buffer;
      Record(Work(j, NO_CHOICE));
      NobodyActed(Working(j, DeleteBuffer(raw)), at);
    }

    method Del(j: JobId, ghost raw: seq<MsgId>)
      requires Valid() && IsAt(at, Working(j, DeleteBuffer(raw)))
      modifies this
      ensures Valid() && Popped(old(done), done, j, raw) && IsAt(at, AfterDelete(j, raw))
      ensures OthersActed(AfterDelete(j, raw), Next(old(at), Work(j, NO_CHOICE)), at)
    {
      buffer := [];
      DeleteIsAStep(at, j, raw);
      ghost var before := done;
      Record(Work(j, NO_CHOICE));
      PoppedAtOnce(before, done, j, raw, Work(j, NO_CHOICE));
      NobodyActed(AfterDelete(j, raw), at);
    }

    /** Returns the entries as the buffer held them on entry, and has since emptied it,
        whatever came in between. */
    method PopAll(j: JobId) returns (raw: seq<MsgId>)
      requires Valid() && IsAt(at, Working(j, ReadBuffer))
      modifies this
      ensures Valid() && IsAt(at, AfterDelete(j, raw))
      ensures raw == old(buffer) && Popped(old(done), done, j, raw)
    {
      raw := LRange(j);
      Del(j, raw);
    }

    method FindLead(j: JobId, c: Choice) returns (seen: Row)
      requires Valid() && IsAt(at, Working(j, ReadLead))
      modifies this
      ensures Valid() && old(done) <= done && seen == old(row) && IsAt(at, AfterRead(j, seen, c))
      ensures LeadRead(old(done), done, j, c, seen)
      ensures OthersActed(AfterRead(j, seen, c), Next(old(at), Work(j, c)), at)
    {
      seen := row;
      ReadIsAStep(at, j, c);
      ghost var before := done;
      Record(Work(j, c));
      StepJustTaken(before, done, Working(j, ReadLead), Work(j, c));
      NobodyActed(AfterRead(j, seen, c), at);
    }

    /** The unconditional write a turn ends with, from the row it read at its start. */
    method UpdateLead(j: JobId, seen: Row, c: Choice)
      requires Valid() && IsAt(at, Working(j, WriteLead(seen, c)))
      modifies this
      ensures Valid() && old(done) <= done && IsAt(at, Working(j, ReleaseLock))
      ensures LeadWritten(old(done), done, j, c, seen)
      ensures OthersActed(Working(j, ReleaseLock), Next(old(at), Work(j, NO_CHOICE)), at)
    {
      var decided := Decide(seen, c);
      if decided.Some? { row := decided.value; }
      WriteIsAStep(at, j, seen, c);
      ghost var before := done;
      Record(Work(j, NO_CHOICE));
      StepJustTaken(before, done, Working(j, WriteLead(seen, c)), Work(j, NO_CHOICE));
      NobodyActed(Working(j, ReleaseLock), at);
    }

    /** DEL of the lock, whoever set it; the job ends with it. */
    method ReleaseAfterTurn(j: JobId)
      requires Valid() && IsAt(at, Working(j, ReleaseLock))
      modifies this
      ensures Valid() && Ended(old(done), done, j, ReleaseLock)
      ensures OthersActed(Working(j, ReleaseLock), Next(old(at), Work(j, NO_CHOICE)), at)
    {
      locked := false;
      if j == TURN { turn := Completed; } else { retry := Completed; }
      EndIsAStep(at, j);
      ghost var before := done;
      Record(Work(j, NO_CHOICE));
      EndedAtOnce(before, done, j, ReleaseLock, Work(j, NO_CHOICE));
      NobodyActed(Working(j, ReleaseLock), at);
    }

    method HandleTurn(j: JobId, c: Choice)
      requires Valid() && IsAt(at, Working(j, ReadLead))
      modifies this
      ensures Valid() && IsAt(at, Working(j, ReleaseLock)) && Handled(old(done), done, j, c)
    {
      ghost var before := done;
      var seen := FindLead(j, c);
      ghost var mid := done;
      if !c.skips {
        UpdateLead(j, seen, c);
        ReadStill(before, before, mid, done, j, c, seen);
        WrittenStill(before, mid, done, done, j, c, seen);
      }
    }

    /** Ends the job by the step that adds the retry, which then waits for its worker unless
        it is the job at work or was at work meanwhile. */
    method ScheduleRetry(j: JobId)
      requires Valid() && IsAt(at, Working(j, RetryLook))
      modifies this
      ensures Valid() && Ended(old(done), done, j, RetryAdd) && Cleared(old(done), done, RETRY)
      ensures j == TURN ==> RetryAdded(old(done), done)
    {
      ghost var before := done;
      RemoveJobIfExists(RETRY, Working(j, RetryLook));
      ghost var mid := done;
      AddRetry(j);
      EndedLater(before, mid, done, j, RetryAdd);
      ClearedStill(before, before, mid, done, RETRY);
      if j == TURN { RetryAddedSince(before, before, mid, done); }
    }

    /** What a turn job does once it holds the lock: the retry is cancelled, the buffer
        popped, and what that took is answered; the lock is given back in the end. */
    method FlushLocked(j: JobId, c: Choice)
      requires Valid() && IsAt(at, Working(j, CancelLook))
      modifies this
      ensures Valid() && Ended(old(done), done, j, ReleaseLock)
      ensures Cleared(old(done), done, RETRY) && Answered(old(done), done, j, c)
    {
      ghost var before := done;
      RemoveJobIfExists(RETRY, Working(j, CancelLook));
      ghost var cancelled := done;
      var entries := PopAll(j);
      ghost var popped := done;
      if |entries| != 0 { HandleTurn(j, c); }
      ghost var mid := done;
      ReleaseAfterTurn(j);
      FlushSoFar(before, cancelled, popped, mid, done, j, c, entries);
    }

    /** A turn job at work, from its first call to the step that ends it: with the lock
        busy, the one that adds the retry; with the lock taken, the one that gives it back,
        once what was in the buffer is answered. */
    method TryFlush(j: JobId, c: Choice)
      requires Valid() && IsAt(at, Working(j, AcquireLock))
      modifies this
      ensures Valid() && Ended(old(done), done, j, if old(locked) then RetryAdd else ReleaseLock)
      ensures old(locked) && j == TURN ==> RetryAdded(old(done), done)
      ensures !old(locked) ==> Answered(old(done), done, j, c)
    {
      ghost var before := done;
      var ok := TryLock(Working(j, AcquireLock));
      ghost var mid := done;
      if !ok {
        ScheduleRetry(j);
        EndedLater(before, mid, done, j, RetryAdd);
        if j == TURN { RetryAddedStill(before, mid, done); }
      } else {
        FlushLocked(j, c);
        EndedLater(before, mid, done, j, ReleaseLock);
        AnsweredStill(before, mid, done, j, c);
      }
    }

    // -- manual sends --

    method CheckLead(n: SendId) returns (optedOut: bool)
      requires Valid() && UnusedSend(at.desk, n)
      modifies this
      ensures Valid() && old(done) <= done && n !in stored && n !in queued
      ensures IsAt(at, if optedOut then SendOver(n) else Sending(n, SendLock))
      ensures optedOut == (old(row) == OptedOut)
      ensures optedOut ==> Explained(old(done), done, n, LeadOptedOut)
      ensures OthersActed(SendOver(n), Next(Next(old(at), BeginSend(n)), SendStep(n, false)), at)
    {
      Record(BeginSend(n));
      ghost var before := done;
      optedOut := row == OptedOut;
      Record(SendStep(n, false));
      if optedOut {
        StepsApart(before, SendStep(n, false));
        ExplainedByStep(old(done), before, done, SendStep(n, false), n, LeadOptedOut);
      }
      NobodyActed(SendOver(n), at);
    }

    /** The conditional write and the message, in one transaction. */
    method CommitSend(n: SendId) returns (ok: bool)
      requires Valid() && IsAt(at, Sending(n, SendCommit)) && n !in stored && n !in queued
      modifies this
      ensures Valid() && old(done) <= done && n !in queued
      ensures IsAt(at, Sending(n, if ok then SendEnqueue else SendUnlock)) && (n in stored <==> ok)
      ensures ok == (old(row) != OptedOut) && Explained(old(done), done, n, if ok then Queued else LeadOptedOut)
      ensures OthersActed(Sending(n, SendCommit), Next(old(at), SendStep(n, false)), at)
    {
      ok := row != OptedOut;
      if ok { row, stored := Handoff(Some(n)), stored + {n}; }
      SendIsAStep(at, n, SendCommit, false);
      ghost var before := done;
      Record(SendStep(n, false));
      StepsApart(before, SendStep(n, false));
      ExplainedByStep(before, before, done, SendStep(n, false), n, if ok then Queued else LeadOptedOut);
      NobodyActed(Sending(n, SendCommit), at);
    }

    method Enqueue(n: SendId, fails: bool)
      requires Valid() && IsAt(at, Sending(n, SendEnqueue)) && n in stored && n !in queued
      modifies this
      ensures Valid() && old(done) <= done && n in stored && (n in queued <==> !fails)
      ensures IsAt(at, Sending(n, if fails then SendCompensate else SendUnlock))
      ensures fails ==> Explained(old(done), done, n, NotQueued)
      ensures OthersActed(Sending(n, SendEnqueue), Next(old(at), SendStep(n, fails)), at)
    {
      if !fails { queued := queued + {n}; }
      SendIsAStep(at, n, SendEnqueue, fails);
      ghost var before := done;
      Record(SendStep(n, fails));
      if fails {
        StepsApart(before, SendStep(n, fails));
        ExplainedByStep(before, before, done, SendStep(n, fails), n, NotQueued);
      }
      NobodyActed(Sending(n, SendEnqueue), at);
    }

    method DeleteMessage(n: SendId, fails: bool)
      requires Valid() && IsAt(at, Sending(n, SendCompensate)) && n in stored && n !in queued
      modifies this
      ensures Valid() && old(done) <= done && n !in queued && (n in stored <==> fails)
      ensures IsAt(at, Sending(n, SendUnlock))
      ensures OthersActed(Sending(n, SendUnlock), Next(old(at), SendStep(n, fails)), at)
    {
      if !fails { stored := stored - {n}; }
      SendIsAStep(at, n, SendCompensate, fails);
      Record(SendStep(n, fails));
      NobodyActed(Sending(n, SendUnlock), at);
    }

    method ReleaseAfterSend(n: SendId)
      requires Valid() && IsAt(at, Sending(n, SendUnlock))
      modifies this
      ensures Valid() && old(done) <= done && IsAt(at, SendOver(n))
      ensures (n in stored <==> n in old(stored)) && (n in queued <==> n in old(queued))
      ensures OthersActed(SendOver(n), Next(old(at), SendStep(n, false)), at)
    {
      locked := false;
      Record(SendStep(n, false));
      NobodyActed(SendOver(n), at);
    }

    /** What a manual send does under the lock. */
    method SendLocked(n: SendId, enqueueFails: bool, deleteFails: bool) returns (result: SendResult)
      requires Valid() && IsAt(at, Sending(n, SendCommit)) && n !in stored && n !in queued
      modifies this
      ensures Valid() && IsAt(at, Sending(n, SendUnlock)) && result != LeadLocked
      ensures n in queued <==> result == Queued
      ensures n in stored <==> result == Queued || (result == NotQueued && deleteFails)
      ensures result == NotQueued ==> enqueueFails
      ensures Explained(old(done), done, n, result)
    {
      var committed := CommitSend(n);
      ghost var mid := done;
      if !committed { return LeadOptedOut; }
      Enqueue(n, enqueueFails);
      ghost var enqueued := done;
      if !enqueueFails {
        ExplainedStill(old(done), old(done), mid, done, n, Queued);
        return Queued;
      }
      DeleteMessage(n, deleteFails);
      ExplainedStill(old(done), mid, enqueued, done, n, NotQueued);
      return NotQueued;
    }

    /** A manual send is stored and queued, or neither, unless both its enqueueing and the
        compensating delete fail; and each result is what the row and the lock said at the
        step that decided it. */
    method SendManual(n: SendId, enqueueFails: bool, deleteFails: bool) returns (result: SendResult)
      requires Valid() && UnusedSend(at.desk, n)
      modifies this
      ensures Valid() && IsAt(at, SendOver(n))
      ensures n in queued <==> result == Queued
      ensures n in stored <==> result == Queued || (result == NotQueued && deleteFails)
      ensures result == NotQueued ==> enqueueFails
      ensures Explained(old(done), done, n, result)
    {
      var optedOut := CheckLead(n);
      if optedOut { return LeadOptedOut; }
      ghost var checked := done;
      var ok := TryLock(Sending(n, SendLock));
      ghost var locking := done;
      if !ok {
        ExplainedStill(old(done), checked, done, done, n, LeadLocked);
        return LeadLocked;
      }
      result := SendLocked(n, enqueueFails, deleteFails);
      ghost var decided := done;
      ReleaseAfterSend(n);
      ExplainedStill(old(done), locking, decided, done, n, result);
    }
  }
}
