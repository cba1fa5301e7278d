/** The turn scheduler of one lead as a protocol: every Redis, queue or database call is
    one atomic step, and webhooks, pushes, the two turn jobs, manual sends and admin
    actions interleave freely.

    The queue: `add` does nothing when a job with that id is still known, finished ones
    included, and removing an active job fails silently. A worker takes a pending job
    once its delay is over. Nothing limits how many pushes and sends are in flight; the
    fixed job ids allow one worker per id. */
module TurnProtocol {
  import opened Common

  type MsgId = nat
  type SendId = nat

  /** What the lead row says, as far as the lock matters: any state the bot drives, a
      handoff and the manual send that committed it, or opted out. */
  datatype Row = Bot(state: nat) | Handoff(sender: Option<SendId>) | OptedOut

  /** The two job ids of a lead. */
  datatype JobId = TURN | RETRY

  datatype Job = Absent | Pending | Running(pc: WorkerPc) | Finished

  /** Where a turn job stands in `tryFlush`. */
  datatype WorkerPc =
    | AcquireLock
    | RetryLook | RetryDrop | RetryAdd
    | CancelLook | CancelDrop | ReadBuffer | DeleteBuffer(batch: seq<MsgId>)
    | ReadLead | WriteLead(seen: Row, choice: Choice) | ReleaseLock

  /** Where a message stands in `push`, its RPUSH done. */
  datatype PushPc = PushCancelLook | PushCancelDrop | PushTurnLook | PushTurnDrop | PushAdd

  /** Where a manual send stands in `sendManual`. */
  datatype SendPc = SendCheck | SendLock | SendCommit | SendEnqueue | SendCompensate | SendUnlock

  /** What a turn decides, as far as the row is concerned; anything goes. */
  datatype Choice = Choice(state: nat, handsOff: bool, optsOut: bool, timedOut: bool, skips: bool)

  /** One pop of the buffer: the entries read, and those pushed before the delete that
      went away unread. */
  datatype Round = Round(batch: seq<MsgId>, lost: seq<MsgId>)

  /** The webhook's side. `pushed` is history: every message pushed so far. */
  datatype Mailbox = Mailbox(events: set<MsgId>, inbox: set<MsgId>, pushed: seq<MsgId>)

  /** Buffer, jobs and pushes in flight. History: the pops so far, and whether an `add`
      did nothing while entries wait and none has worked since. */
  datatype Scheduler = Scheduler(
    buffer: seq<MsgId>, turn: Job, retry: Job, pushes: map<MsgId, PushPc>,
    rounds: seq<Round>, swallowed: bool)

  /** The lead row, the manual sends in flight, the outgoing messages stored and those
      queued. History: sends whose enqueueing and compensating delete both failed, and
      whether an admin action changed the row between a turn's read and its write. */
  datatype Desk = Desk(
    row: Row, sends: map<SendId, SendPc>, messages: set<SendId>, outbox: set<SendId>,
    orphans: set<SendId>, raced: bool)

  /** `expired` is history: the lock's time to live ran out under its holder. */
  datatype State = State(mail: Mailbox, queue: Scheduler, desk: Desk, locked: bool, expired: bool)

  const START := State(
    Mailbox({}, {}, []), Scheduler([], Absent, Absent, map[], [], false),
    Desk(Bot(0), map[], {}, {}, {}, false), false, false)

  datatype Action =
    | Deliver(m: MsgId)                    // the webhook, first time or again
    | BeginPush(m: MsgId) | PushStep(m: MsgId)
    | Take(job: JobId) | Work(job: JobId, choice: Choice)
    | BeginSend(n: SendId) | SendStep(n: SendId, fails: bool)
    | AdminRelease(state: nat) | AdminOptOut
    | Expire

  // ----- the job queue -----

  function Slot(q: Scheduler, j: JobId): Job { if j == TURN then q.turn else q.retry }

  function WithSlot(q: Scheduler, j: JobId, v: Job): Scheduler {
    if j == TURN then q.(turn := v) else q.(retry := v)
  }

  /** `queue.add` with the fixed id of `j`. */
  function AddJob(q: Scheduler, j: JobId): Scheduler {
    match Slot(q, j)
    case Absent => WithSlot(q, j, Pending).(swallowed := false)
    case Pending => q.(swallowed := false)
    case _ => q.(swallowed := q.swallowed || q.buffer != [])
  }

  /** `job.remove()`, whose error on an active job is ignored. */
  function RemoveJob(q: Scheduler, j: JobId): Scheduler {
    if Slot(q, j).Running? then q else WithSlot(q, j, Absent)
  }

  // ----- push -----

  function PushNext(q: Scheduler, m: MsgId): Scheduler
    requires m in q.pushes
  {
    match q.pushes[m]
    case PushCancelLook => q.(pushes := q.pushes[m := if q.retry.Absent? then PushTurnLook else PushCancelDrop])
    case PushCancelDrop => RemoveJob(q, RETRY).(pushes := q.pushes[m := PushTurnLook])
    case PushTurnLook => q.(pushes := q.pushes[m := if q.turn.Absent? then PushAdd else PushTurnDrop])
    case PushTurnDrop => RemoveJob(q, TURN).(pushes := q.pushes[m := PushAdd])
    case PushAdd => AddJob(q, TURN).(pushes := q.pushes - {m})
  }

  // ----- tryFlush: what a step does to the scheduler, the lock and the row -----

  function WorkQueue(q: Scheduler, locked: bool, row: Row, j: JobId, c: Choice): Scheduler
    requires Slot(q, j).Running?
  {
    match Slot(q, j).pc
    case AcquireLock => WithSlot(q, j, Running(if locked then RetryLook else CancelLook))
    case RetryLook => WithSlot(q, j, Running(if q.retry.Absent? then RetryAdd else RetryDrop))
    case RetryDrop => WithSlot(RemoveJob(q, RETRY), j, Running(RetryAdd))
    case RetryAdd => WithSlot(AddJob(q, RETRY), j, Finished)
    case CancelLook => WithSlot(q, j, Running(if q.retry.Absent? then ReadBuffer else CancelDrop))
    case CancelDrop => WithSlot(RemoveJob(q, RETRY), j, Running(ReadBuffer))
    case ReadBuffer => WithSlot(q, j, Running(DeleteBuffer(q.buffer)))
    case DeleteBuffer(batch) => PopBuffer(WithSlot(q, j, Running(if batch == [] then ReleaseLock else ReadLead)), batch)
    case ReadLead => WithSlot(q, j, Running(if c.skips then ReleaseLock else WriteLead(row, c)))
    case WriteLead(_, _) => WithSlot(q, j, Running(ReleaseLock))
    case ReleaseLock => WithSlot(q, j, Finished)
  }

  /** The DEL of a pop that read `batch`. */
  function PopBuffer(q: Scheduler, batch: seq<MsgId>): Scheduler {
    var lost := if |batch| <= |q.buffer| then q.buffer[|batch|..] else [];
    q.(buffer := [], rounds := q.rounds + [Round(batch, lost)], swallowed := false)
  }

  function WorkLock(pc: WorkerPc, locked: bool): bool {
    if pc == AcquireLock then true else if pc == ReleaseLock then false else locked
  }

  function WorkRow(pc: WorkerPc, row: Row): Row {
    if pc.WriteLead? && Decide(pc.seen, pc.choice).Some? then Decide(pc.seen, pc.choice).value else row
  }

  /** The write a turn makes on a row it saw: none on a silenced lead, unless it opts
      out or its handoff has timed out. */
  function Decide(row: Row, c: Choice): Option<Row> {
    if row == OptedOut || (row.Handoff? && !c.optsOut && !c.timedOut) then None
    else if c.optsOut then Some(OptedOut)
    else if c.handsOff then Some(Handoff(None))
    else Some(Bot(c.state))
  }

  // ----- sendManual -----

  function SendDesk(d: Desk, locked: bool, n: SendId, fails: bool): Desk
    requires n in d.sends
  {
    match d.sends[n]
    case SendCheck => if d.row == OptedOut then Gone(d, n) else At(d, n, SendLock)
    case SendLock => if locked then Gone(d, n) else At(d, n, SendCommit)
    case SendCommit =>
      if d.row == OptedOut then At(d, n, SendUnlock)
      else At(d, n, SendEnqueue).(row := Handoff(Some(n)), messages := d.messages + {n})
    case SendEnqueue =>
      if fails then At(d, n, SendCompensate) else At(d, n, SendUnlock).(outbox := d.outbox + {n})
    case SendCompensate =>
      if fails then At(d, n, SendUnlock).(orphans := d.orphans + {n})
      else At(d, n, SendUnlock).(messages := d.messages - {n})
    case SendUnlock => Gone(d, n)
  }

  function At(d: Desk, n: SendId, pc: SendPc): Desk { d.(sends := d.sends[n := pc]) }

  function Gone(d: Desk, n: SendId): Desk { d.(sends := d.sends - {n}) }

  function SendLocks(pc: SendPc, locked: bool): bool {
    if pc == SendLock then true else if pc == SendUnlock then false else locked
  }

  // ----- all steps -----

  predicate WorkerHolds(pc: WorkerPc) {
    pc != AcquireLock && pc != RetryLook && pc != RetryDrop && pc != RetryAdd
  }

  predicate SenderHolds(pc: SendPc) { pc != SendCheck && pc != SendLock }

  datatype Holder = Worker(job: JobId) | Sender(send: SendId)

  /** Who is between acquiring the lock and releasing it. */
  predicate Holds(q: Scheduler, sends: map<SendId, SendPc>, h: Holder) {
    match h
    case Worker(j) => Slot(q, j).Running? && WorkerHolds(Slot(q, j).pc)
    case Sender(n) => n in sends && SenderHolds(sends[n])
  }

  ghost predicate SomeoneHolds(q: Scheduler, sends: map<SendId, SendPc>) { exists h :: Holds(q, sends, h) }

  predicate MidTurn(job: Job) { job.Running? && job.pc.WriteLead? }

  /** An admin writes the row without the lock. */
  function AdminWrites(s: State, row: Row): State {
    s.(desk := s.desk.(row := row, raced := s.desk.raced || MidTurn(s.queue.turn) || MidTurn(s.queue.retry)))
  }

  function BeginPushing(s: State, m: MsgId): State {
    s.(mail := s.mail.(inbox := s.mail.inbox - {m}, pushed := s.mail.pushed + [m]),
       queue := s.queue.(buffer := s.queue.buffer + [m], pushes := s.queue.pushes[m := PushCancelLook]))
  }

  function WorkNext(s: State, j: JobId, c: Choice): State
    requires Slot(s.queue, j).Running?
  {
    var pc := Slot(s.queue, j).pc;
    s.(queue := WorkQueue(s.queue, s.locked, s.desk.row, j, c), locked := WorkLock(pc, s.locked),
       desk := s.desk.(row := WorkRow(pc, s.desk.row)))
  }

  function SendNext(s: State, n: SendId, fails: bool): State
    requires n in s.desk.sends
  {
    s.(desk := SendDesk(s.desk, s.locked, n, fails), locked := SendLocks(s.desk.sends[n], s.locked))
  }

  predicate UnusedSend(d: Desk, n: SendId) {
    n !in d.sends && n !in d.messages && n !in d.outbox && n !in d.orphans
  }

  /** A step that is not possible changes nothing. */
  ghost function Next(s: State, a: Action): State {
    match a
    case Deliver(m) =>
      if m in s.mail.events then s
      else s.(mail := s.mail.(events := s.mail.events + {m}, inbox := s.mail.inbox + {m}))
    case BeginPush(m) => if m in s.mail.inbox then BeginPushing(s, m) else s
    case PushStep(m) => if m in s.queue.pushes then s.(queue := PushNext(s.queue, m)) else s
    case Take(j) =>
      if Slot(s.queue, j).Pending? then s.(queue := WithSlot(s.queue, j, Running(AcquireLock))) else s
    case Work(j, c) => if Slot(s.queue, j).Running? then WorkNext(s, j, c) else s
    case BeginSend(n) => if UnusedSend(s.desk, n) then s.(desk := At(s.desk, n, SendCheck)) else s
    case SendStep(n, fails) => if n in s.desk.sends then SendNext(s, n, fails) else s
    case AdminRelease(state) => if s.desk.row.Handoff? then AdminWrites(s, Bot(state)) else s
    case AdminOptOut => if s.desk.row.OptedOut? then s else AdminWrites(s, OptedOut)
    case Expire => s.(locked := false, expired := s.expired || SomeoneHolds(s.queue, s.desk.sends))
  }

  ghost function Exec(s: State, run: seq<Action>): State
    decreases |run|
  {
    if run == [] then s else Next(Exec(s, run[..|run| - 1]), run[|run| - 1])
  }

  // ----- the lock -----

  /** One holder at most, and the lock is taken exactly while there is one. */
  ghost predicate Exclusive(q: Scheduler, sends: map<SendId, SendPc>, locked: bool) {
    && (forall g, h :: Holds(q, sends, g) && Holds(q, sends, h) ==> g == h)
    && (locked <==> SomeoneHolds(q, sends))
  }

  /** A step of one party that leaves the others' holding alone keeps the lock exclusive
      if it takes a free lock, gives up a held one, or touches neither. */
  lemma ExclusiveMove(q: Scheduler, sends: map<SendId, SendPc>, locked: bool,
                      q': Scheduler, sends': map<SendId, SendPc>, locked': bool, me: Holder)
    requires Exclusive(q, sends, locked)
    requires forall h :: h != me ==> (Holds(q', sends', h) <==> Holds(q, sends, h))
    requires
      || (!locked && locked' && Holds(q', sends', me))
      || (Holds(q, sends, me) && !Holds(q', sends', me) && !locked')
      || (locked == locked' && (Holds(q, sends, me) <==> Holds(q', sends', me)))
    ensures Exclusive(q', sends', locked')
  {
    if locked {
      var h :| Holds(q, sends, h);
      assert locked' ==> Holds(q', sends', h);
    }
  }

  function Other(j: JobId): JobId { if j == TURN then RETRY else TURN }

  /** A worker's step touches the other job only by removing or adding it, never while
      it runs. */
  lemma WorkFrame(q: Scheduler, locked: bool, row: Row, j: JobId, c: Choice)
    requires Slot(q, j).Running?
    ensures var t, k, pc := WorkQueue(q, locked, row, j, c), Other(j), Slot(q, j).pc;
      && (Slot(t, k) == Slot(q, k) || (!Slot(t, k).Running? && !Slot(q, k).Running?))
      && (Slot(t, j).Running? && WorkerHolds(Slot(t, j).pc)
          <==> if pc == AcquireLock then !locked else WorkerHolds(pc) && pc != ReleaseLock)
      && t.pushes == q.pushes
  {
    match Slot(q, j).pc
    case AcquireLock => case RetryLook => case RetryDrop => case RetryAdd =>
    case CancelLook => case CancelDrop => case ReadBuffer => case DeleteBuffer(_) =>
    case ReadLead => case WriteLead(_, _) => case ReleaseLock =>
  }

  lemma ExclusiveWork(s: State, j: JobId, c: Choice)
    requires Exclusive(s.queue, s.desk.sends, s.locked) && Slot(s.queue, j).Running?
    ensures var t := WorkNext(s, j, c); Exclusive(t.queue, t.desk.sends, t.locked)
  {
    var t := WorkNext(s, j, c);
    WorkFrame(s.queue, s.locked, s.desk.row, j, c);
    assert forall h :: h != Worker(j) ==> (Holds(t.queue, t.desk.sends, h) <==> Holds(s.queue, s.desk.sends, h)) by {
      forall h | h != Worker(j) ensures Holds(t.queue, t.desk.sends, h) <==> Holds(s.queue, s.desk.sends, h) {
        if h.Worker? { assert h.job == Other(j); }
      }
    }
    ExclusiveMove(s.queue, s.desk.sends, s.locked, t.queue, t.desk.sends, t.locked, Worker(j));
  }

  lemma SendFrame(d: Desk, locked: bool, n: SendId, fails: bool)
    requires n in d.sends
    ensures var e, pc := SendDesk(d, locked, n, fails), d.sends[n];
      && (forall k :: k != n ==> (k in e.sends <==> k in d.sends) && (k in d.sends ==> e.sends[k] == d.sends[k]))
      && (n in e.sends && SenderHolds(e.sends[n]) <==> if pc == SendLock then !locked else SenderHolds(pc) && pc != SendUnlock)
  {
  }

  lemma ExclusiveSend(s: State, n: SendId, fails: bool)
    requires Exclusive(s.queue, s.desk.sends, s.locked) && n in s.desk.sends
    ensures var t := SendNext(s, n, fails); Exclusive(t.queue, t.desk.sends, t.locked)
  {
    var t := SendNext(s, n, fails);
    SendFrame(s.desk, s.locked, n, fails);
    ExclusiveMove(s.queue, s.desk.sends, s.locked, t.queue, t.desk.sends, t.locked, Sender(n));
  }

  lemma PushFrame(q: Scheduler, m: MsgId)
    requires m in q.pushes
    ensures var t := PushNext(q, m);
      && t.buffer == q.buffer && t.rounds == q.rounds
      && forall j :: Slot(t, j).Running? || Slot(q, j).Running? ==> Slot(t, j) == Slot(q, j)
  {
  }

  lemma ExclusivePush(s: State, m: MsgId)
    requires Exclusive(s.queue, s.desk.sends, s.locked) && m in s.queue.pushes
    ensures Exclusive(PushNext(s.queue, m), s.desk.sends, s.locked)
  {
    PushFrame(s.queue, m);
    ExclusiveMove(s.queue, s.desk.sends, s.locked, PushNext(s.queue, m), s.desk.sends, s.locked, Worker(TURN));
  }

  ghost predicate LockKept(s: State) { !s.expired ==> Exclusive(s.queue, s.desk.sends, s.locked) }

  lemma LockKeptStep(s: State, a: Action)
    requires LockKept(s)
    ensures LockKept(Next(s, a))
  {
    var t := Next(s, a);
    if !t.expired {
      match a
      case Work(j, c) => if Slot(s.queue, j).Running? { ExclusiveWork(s, j, c); }
      case SendStep(n, fails) => if n in s.desk.sends { ExclusiveSend(s, n, fails); }
      case PushStep(m) => if m in s.queue.pushes { ExclusivePush(s, m); }
      case BeginSend(n) =>
        ExclusiveMove(s.queue, s.desk.sends, s.locked, t.queue, t.desk.sends, t.locked, Sender(n));
      case _ =>
        ExclusiveMove(s.queue, s.desk.sends, s.locked, t.queue, t.desk.sends, t.locked, Worker(TURN));
    }
  }

  // ----- no message is lost, but for those pushed inside a pop -----

  function Flat(rounds: seq<Round>): seq<MsgId> {
    if rounds == [] then []
    else Flat(rounds[..|rounds| - 1]) + (rounds[|rounds| - 1].batch + rounds[|rounds| - 1].lost)
  }

  predicate ReadPrefix(job: Job, buffer: seq<MsgId>) {
    job.Running? && job.pc.DeleteBuffer? ==> job.pc.batch <= buffer
  }

  /** Everything pushed so far, in order: round by round what was read and what the
      delete took unread, then the buffer. */
  predicate Conserved(pushed: seq<MsgId>, q: Scheduler) {
    && pushed == Flat(q.rounds) + q.buffer
    && ReadPrefix(q.turn, q.buffer) && ReadPrefix(q.retry, q.buffer)
  }

  lemma OneWorker(q: Scheduler, sends: map<SendId, SendPc>, locked: bool)
    requires Exclusive(q, sends, locked)
    ensures Deleting(q.turn) ==> !Deleting(q.retry)
    ensures MidTurn(q.turn) ==> !MidTurn(q.retry)
  {
    assert Holds(q, sends, Worker(TURN)) && Holds(q, sends, Worker(RETRY)) ==> Worker(TURN) == Worker(RETRY);
  }

  predicate Deleting(job: Job) { job.Running? && job.pc.DeleteBuffer? }

  lemma ConservedPop(pushed: seq<MsgId>, q: Scheduler, batch: seq<MsgId>)
    requires pushed == Flat(q.rounds) + q.buffer && batch <= q.buffer
    ensures var t := PopBuffer(q, batch); pushed == Flat(t.rounds) + t.buffer
  {
    var t := PopBuffer(q, batch);
    assert t.rounds[..|q.rounds|] == q.rounds;
    assert q.buffer == batch + q.buffer[|batch|..];
    assert Flat(t.rounds) == Flat(q.rounds) + q.buffer;
    assert Flat(t.rounds) + [] == Flat(t.rounds);
  }

  /** Only the pop changes the buffer; only the read starts one. */
  lemma WorkKeepsBuffer(q: Scheduler, locked: bool, row: Row, j: JobId, c: Choice)
    requires Slot(q, j).Running? && !Slot(q, j).pc.DeleteBuffer?
    requires ReadPrefix(q.turn, q.buffer) && ReadPrefix(q.retry, q.buffer)
    ensures var t := WorkQueue(q, locked, row, j, c);
      t.buffer == q.buffer && t.rounds == q.rounds && ReadPrefix(t.turn, t.buffer) && ReadPrefix(t.retry, t.buffer)
  {
    match Slot(q, j).pc
    case AcquireLock => case RetryLook => case RetryDrop => case RetryAdd => case CancelLook => case CancelDrop =>
    case ReadBuffer => case ReadLead => case WriteLead(_, _) => case ReleaseLock =>
  }

  lemma ConservedWork(pushed: seq<MsgId>, q: Scheduler, locked: bool, row: Row, j: JobId, c: Choice)
    requires Conserved(pushed, q) && Slot(q, j).Running?
    requires Deleting(q.turn) ==> !Deleting(q.retry)
    ensures Conserved(pushed, WorkQueue(q, locked, row, j, c))
  {
    if Slot(q, j).pc.DeleteBuffer? {
      var batch := Slot(q, j).pc.batch;
      ConservedPop(pushed, WithSlot(q, j, Running(if batch == [] then ReleaseLock else ReadLead)), batch);
    } else {
      WorkKeepsBuffer(q, locked, row, j, c);
    }
  }

  ghost predicate NothingLost(s: State) { !s.expired ==> Conserved(s.mail.pushed, s.queue) }

  lemma NothingLostStep(s: State, a: Action)
    requires LockKept(s) && NothingLost(s)
    ensures NothingLost(Next(s, a))
  {
    match a
    case Work(j, c) =>
      if Slot(s.queue, j).Running? && !s.expired {
        OneWorker(s.queue, s.desk.sends, s.locked);
        ConservedWork(s.mail.pushed, s.queue, s.locked, s.desk.row, j, c);
      }
    case PushStep(m) => if m in s.queue.pushes { PushFrame(s.queue, m); }
    case BeginPush(m) => if m in s.mail.inbox { ConservedPush(s.mail.pushed, s.queue, m); }
    case Deliver(_) => case Take(_) => case BeginSend(_) => case SendStep(_, _) =>
    case AdminRelease(_) => case AdminOptOut => case Expire =>
  }

  lemma ConservedPush(pushed: seq<MsgId>, q: Scheduler, m: MsgId)
    ensures Conserved(pushed, q) ==>
      Conserved(pushed + [m], q.(buffer := q.buffer + [m], pushes := q.pushes[m := PushCancelLook]))
  {
    assert Flat(q.rounds) + (q.buffer + [m]) == (Flat(q.rounds) + q.buffer) + [m];
  }

  /** A webhook id is accepted once, so it is pushed at most once. */
  predicate Deduplicated(b: Mailbox) {
    && Distinct(b.pushed) && b.inbox <= b.events
    && (forall m :: m in b.pushed ==> m in b.events && m !in b.inbox)
  }

  lemma DeduplicatedStep(s: State, a: Action)
    requires Deduplicated(s.mail)
    ensures Deduplicated(Next(s, a).mail)
  {
  }

  // ----- waking up -----

  /** A worker that has yet to empty the buffer or to schedule a retry. */
  predicate WillServe(job: Job) {
    job.Running? && !job.pc.ReadLead? && !job.pc.WriteLead? && !job.pc.ReleaseLock?
  }

  /** Something is under way that will look at the buffer. */
  predicate Awake(q: Scheduler) {
    q.turn.Pending? || q.retry.Pending? || q.pushes != map[] || WillServe(q.turn) || WillServe(q.retry)
  }

  predicate Marked(q: Scheduler) {
    && (q.buffer != [] ==> Awake(q) || q.swallowed)
    && (q.swallowed ==> q.buffer != [])
  }

  lemma MarkedWork(q: Scheduler, locked: bool, row: Row, j: JobId, c: Choice)
    requires Marked(q) && Slot(q, j).Running?
    ensures Marked(WorkQueue(q, locked, row, j, c))
  {
    match Slot(q, j).pc
    case AcquireLock => case RetryLook => case RetryDrop => case RetryAdd =>
    case CancelLook => case CancelDrop => case ReadBuffer => case DeleteBuffer(_) =>
    case ReadLead => case WriteLead(_, _) => case ReleaseLock =>
  }

  lemma MarkedPush(q: Scheduler, m: MsgId)
    requires Marked(q) && m in q.pushes
    ensures Marked(PushNext(q, m))
  {
    var t := PushNext(q, m);
    match q.pushes[m]
    case PushCancelLook => assert m in t.pushes;
    case PushCancelDrop => assert m in t.pushes;
    case PushTurnLook => assert m in t.pushes;
    case PushTurnDrop => assert m in t.pushes;
    case PushAdd =>
  }

  lemma MarkedStep(s: State, a: Action)
    requires Marked(s.queue)
    ensures Marked(Next(s, a).queue)
  {
    match a
    case Work(j, c) => if Slot(s.queue, j).Running? { MarkedWork(s.queue, s.locked, s.desk.row, j, c); }
    case PushStep(m) => if m in s.queue.pushes { MarkedPush(s.queue, m); }
    case BeginPush(m) => assert m in s.mail.inbox ==> m in Next(s, a).queue.pushes;
    case _ =>
  }

  // ----- the lead row -----

  predicate SawRow(job: Job, row: Row) { MidTurn(job) ==> job.pc.seen == row }

  /** Between its read and its write a turn's picture of the row stays true, unless the
      lock expired under a holder or an admin wrote without it. */
  predicate Faithful(s: State) {
    !s.expired && !s.desk.raced ==> SawRow(s.queue.turn, s.desk.row) && SawRow(s.queue.retry, s.desk.row)
  }

  lemma FaithfulWork(q: Scheduler, locked: bool, row: Row, j: JobId, c: Choice)
    requires Slot(q, j).Running? && SawRow(q.turn, row) && SawRow(q.retry, row)
    requires MidTurn(q.turn) ==> !MidTurn(q.retry)
    ensures var t, r := WorkQueue(q, locked, row, j, c), WorkRow(Slot(q, j).pc, row);
      SawRow(t.turn, r) && SawRow(t.retry, r)
  {
    match Slot(q, j).pc
    case AcquireLock => case RetryLook => case RetryDrop => case RetryAdd =>
    case CancelLook => case CancelDrop => case ReadBuffer => case DeleteBuffer(_) =>
    case ReadLead => case WriteLead(_, _) => case ReleaseLock =>
  }

  lemma FaithfulStep(s: State, a: Action)
    requires LockKept(s) && Faithful(s)
    ensures Faithful(Next(s, a))
  {
    if !s.expired && !s.desk.raced {
      assert forall g, h :: Holds(s.queue, s.desk.sends, g) && Holds(s.queue, s.desk.sends, h) ==> g == h;
      match a
      case Work(j, c) =>
        if Slot(s.queue, j).Running? {
          OneWorker(s.queue, s.desk.sends, s.locked);
          FaithfulWork(s.queue, s.locked, s.desk.row, j, c);
        }
      case SendStep(n, fails) =>
        assert Holds(s.queue, s.desk.sends, Sender(n)) ==>
          !Holds(s.queue, s.desk.sends, Worker(TURN)) && !Holds(s.queue, s.desk.sends, Worker(RETRY));
      case PushStep(m) => if m in s.queue.pushes { PushFrame(s.queue, m); }
      case _ =>
    }
  }

  /** A handoff committed by a manual send. */
  predicate BySend(row: Row) { row.Handoff? && row.sender.Some? }

  predicate SawHandoff(job: Job, row: Row) { BySend(row) ==> SawRow(job, row) }

  /** Such a handoff is seen by any turn past its read, whatever the admins did: only a
      send makes one, and no send commits while a turn holds the lock. */
  predicate HandoffSeen(s: State) {
    !s.expired ==> SawHandoff(s.queue.turn, s.desk.row) && SawHandoff(s.queue.retry, s.desk.row)
  }

  lemma HandoffSeenWork(q: Scheduler, locked: bool, row: Row, j: JobId, c: Choice)
    requires Slot(q, j).Running? && SawHandoff(q.turn, row) && SawHandoff(q.retry, row)
    ensures var t, r := WorkQueue(q, locked, row, j, c), WorkRow(Slot(q, j).pc, row);
      SawHandoff(t.turn, r) && SawHandoff(t.retry, r)
  {
    match Slot(q, j).pc
    case AcquireLock => case RetryLook => case RetryDrop => case RetryAdd =>
    case CancelLook => case CancelDrop => case ReadBuffer => case DeleteBuffer(_) =>
    case ReadLead => case WriteLead(_, _) => case ReleaseLock =>
  }

  lemma HandoffSeenStep(s: State, a: Action)
    requires LockKept(s) && HandoffSeen(s)
    ensures HandoffSeen(Next(s, a))
  {
    if !s.expired {
      match a
      case Work(j, c) =>
        if Slot(s.queue, j).Running? { HandoffSeenWork(s.queue, s.locked, s.desk.row, j, c); }
      case SendStep(n, fails) =>
        assert forall j :: Holds(s.queue, s.desk.sends, Sender(n)) ==> !Holds(s.queue, s.desk.sends, Worker(j));
        assert MidTurn(s.queue.turn) ==> Holds(s.queue, s.desk.sends, Worker(TURN));
        assert MidTurn(s.queue.retry) ==> Holds(s.queue, s.desk.sends, Worker(RETRY));
      case PushStep(m) => if m in s.queue.pushes { PushFrame(s.queue, m); }
      case Deliver(_) => case BeginPush(_) => case Take(_) => case BeginSend(_) =>
      case AdminRelease(_) => case AdminOptOut => case Expire =>
    }
  }

  // ----- stored and queued messages -----

  /** A stored outgoing message that is not queued belongs to a send still at it, or to
      one whose enqueueing and compensating delete both failed. */
  ghost predicate Accounted(d: Desk) { forall n :: AccountedFor(d, n) }

  predicate Unfinished(d: Desk, n: SendId) {
    n in d.sends && (d.sends[n] == SendEnqueue || d.sends[n] == SendCompensate)
  }

  predicate AccountedFor(d: Desk, n: SendId) {
    && (n in d.outbox || n in d.orphans ==> n in d.messages)
    && (n in d.messages && n !in d.outbox ==> n in d.orphans || Unfinished(d, n))
    && (n in d.sends && n in d.messages ==> Unfinished(d, n) || d.sends[n] == SendUnlock)
    && (Unfinished(d, n) ==> n in d.messages && n !in d.outbox && n !in d.orphans)
    && (n in d.orphans ==> n !in d.outbox)
  }

  lemma AccountedStep(s: State, a: Action)
    requires Accounted(s.desk)
    ensures Accounted(Next(s, a).desk)
  {
    match a
    case SendStep(n, fails) => if n in s.desk.sends { AccountedSend(s.desk, s.locked, n, fails); }
    case _ =>
      forall n ensures AccountedFor(Next(s, a).desk, n) {
        assert AccountedFor(s.desk, n);
      }
  }

  lemma AccountedSend(d: Desk, locked: bool, n: SendId, fails: bool)
    requires Accounted(d) && n in d.sends
    ensures Accounted(SendDesk(d, locked, n, fails))
  {
    var e := SendDesk(d, locked, n, fails);
    forall k ensures AccountedFor(e, k) {
      assert AccountedFor(d, k);
    }
  }

  // ----- every reachable state -----

  ghost predicate Invariant(s: State) {
    && LockKept(s) && NothingLost(s) && Deduplicated(s.mail) && Marked(s.queue) && Faithful(s)
    && HandoffSeen(s) && Accounted(s.desk)
  }

  lemma InvariantStep(s: State, a: Action)
    requires Invariant(s)
    ensures Invariant(Next(s, a))
  {
    LockKeptStep(s, a);
    NothingLostStep(s, a);
    DeduplicatedStep(s, a);
    MarkedStep(s, a);
    FaithfulStep(s, a);
    HandoffSeenStep(s, a);
    AccountedStep(s, a);
  }

  lemma {:induction false} Reachable(run: seq<Action>)
    ensures Invariant(Exec(START, run))
    decreases |run|
  {
    if run == [] {
      assert !SomeoneHolds(START.queue, START.desk.sends);
    } else {
      Reachable(run[..|run| - 1]);
      InvariantStep(Exec(START, run[..|run| - 1]), run[|run| - 1]);
    }
  }
}
