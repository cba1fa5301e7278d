/** What scheduling a turn achieves, over every run: the `add` of a push or of a retry
    finds its id free, unless the job with that id was at work meanwhile. Finished jobs
    are no excuse, they are taken away first. */
module TurnScheduling {
  import opened Common
  import opened TurnProtocol

  predicate PushAt(q: Scheduler, m: MsgId, pc: PushPc) { m in q.pushes && q.pushes[m] == pc }

  /** The turn job is at work while the push is past its look at it. */
  predicate TurnInTheWay(q: Scheduler, m: MsgId) {
    (PushAt(q, m, PushTurnDrop) || PushAt(q, m, PushAdd)) && q.turn.Running?
  }

  /** So it was at some moment since step `from` of the run. */
  ghost predicate TurnWasInTheWay(run: seq<Action>, from: nat, m: MsgId) {
    exists l :: from <= l <= |run| && TurnInTheWay(Exec(START, run[..l]).queue, m)
  }

  /** Step `k` is the push's `add`, after which the turn job waits for its worker, unless
      it was in the way. */
  ghost predicate AddsTurn(run: seq<Action>, from: nat, k: nat, m: MsgId) {
    && from <= k < |run| && run[k] == PushStep(m) && PushAt(Exec(START, run[..k]).queue, m, PushAdd)
    && (Exec(START, run[..k + 1]).queue.turn.Pending? || TurnWasInTheWay(run[..k], from, m))
  }

  predicate Free(job: Job) { job.Absent? || job.Pending? }

  ghost predicate OnItsWay(run: seq<Action>, from: nat, m: MsgId) {
    var s := Exec(START, run);
    && m in s.mail.pushed && m in s.queue.pushes
    && (PushAt(s.queue, m, PushAdd) ==> Free(s.queue.turn) || TurnWasInTheWay(run, from, m))
  }

  lemma PrefixExec(front: seq<Action>, a: Action)
    ensures Exec(START, front + [a]) == Next(Exec(START, front), a) && (front + [a])[..|front|] == front
  {
    assert (front + [a])[..|front|] == front;
  }

  lemma InTheWayStays(front: seq<Action>, a: Action, from: nat, m: MsgId)
    requires TurnWasInTheWay(front, from, m)
    ensures TurnWasInTheWay(front + [a], from, m)
  {
    var l :| from <= l <= |front| && TurnInTheWay(Exec(START, front[..l]).queue, m);
    assert (front + [a])[..l] == front[..l];
  }

  lemma InTheWayNow(run: seq<Action>, from: nat, m: MsgId)
    requires from <= |run| && TurnInTheWay(Exec(START, run).queue, m)
    ensures TurnWasInTheWay(run, from, m)
  {
    assert run[..|run|] == run;
  }

  lemma WorkLeavesFree(q: Scheduler, locked: bool, row: Row, j: JobId, c: Choice)
    requires Slot(q, j).Running?
    ensures var t := WorkQueue(q, locked, row, j, c);
      && t.pushes == q.pushes
      && (Free(q.turn) ==> t.turn == q.turn)
      && (Slot(q, j).pc != RetryAdd && Free(q.retry) ==> Free(t.retry))
  {
    match Slot(q, j).pc
    case AcquireLock => case RetryLook => case RetryDrop => case RetryAdd =>
    case CancelLook => case CancelDrop => case ReadBuffer => case DeleteBuffer(_) =>
    case ReadLead => case WriteLead(_, _) => case ReleaseLock =>
  }

  /** Any step but its own leaves the push where it is, and a free turn job free unless a
      worker takes it. */
  lemma OthersLeavePush(s: State, a: Action, m: MsgId)
    requires m in s.mail.pushed && m !in s.mail.inbox && m in s.queue.pushes && a != PushStep(m)
    ensures var t := Next(s, a);
      && m in t.mail.pushed && m in t.queue.pushes && t.queue.pushes[m] == s.queue.pushes[m]
      && (Free(s.queue.turn) ==> Free(t.queue.turn) || t.queue.turn.Running?)
  {
    match a
    case Work(j, c) => if Slot(s.queue, j).Running? { WorkLeavesFree(s.queue, s.locked, s.desk.row, j, c); }
    case Deliver(_) => case BeginPush(_) => case PushStep(_) => case Take(_) => case BeginSend(_) =>
    case SendStep(_, _) => case AdminRelease(_) => case AdminOptOut => case Expire =>
  }

  lemma OthersStep(front: seq<Action>, a: Action, from: nat, m: MsgId)
    requires from <= |front| && OnItsWay(front, from, m) && a != PushStep(m)
    ensures OnItsWay(front + [a], from, m)
  {
    var s, run := Exec(START, front), front + [a];
    PrefixExec(front, a);
    Reachable(front);
    OthersLeavePush(s, a, m);
    if TurnWasInTheWay(front, from, m) {
      InTheWayStays(front, a, from, m);
    } else if TurnInTheWay(Exec(START, run).queue, m) {
      InTheWayNow(run, from, m);
    }
  }

  lemma OwnStep(front: seq<Action>, from: nat, m: MsgId)
    requires from <= |front| && OnItsWay(front, from, m) && !PushAt(Exec(START, front).queue, m, PushAdd)
    ensures OnItsWay(front + [PushStep(m)], from, m)
  {
    var q := Exec(START, front).queue;
    PrefixExec(front, PushStep(m));
    if TurnInTheWay(q, m) {
      InTheWayNow(front, from, m);
      InTheWayStays(front, PushStep(m), from, m);
    }
    assert q.pushes[m] == PushTurnDrop && !q.turn.Running? ==> PushNext(q, m).turn.Absent?;
  }

  lemma AddStep(front: seq<Action>, from: nat, m: MsgId)
    requires from <= |front| && OnItsWay(front, from, m) && PushAt(Exec(START, front).queue, m, PushAdd)
    ensures AddsTurn(front + [PushStep(m)], from, |front|, m)
  {
    var run := front + [PushStep(m)];
    PrefixExec(front, PushStep(m));
    assert run[..|front| + 1] == run;
  }

  lemma AddedBefore(front: seq<Action>, a: Action, from: nat, k: nat, m: MsgId)
    requires AddsTurn(front, from, k, m)
    ensures AddsTurn(front + [a], from, k, m)
  {
    var run := front + [a];
    assert run[..k] == front[..k] && run[..k + 1] == front[..k + 1];
  }

  lemma {:induction false} PushGoesOn(run: seq<Action>, from: nat, m: MsgId)
    requires from <= |run|
    requires var s := Exec(START, run[..from]); m in s.mail.pushed && PushAt(s.queue, m, PushCancelLook)
    ensures OnItsWay(run, from, m) || exists k :: from <= k < |run| && AddsTurn(run, from, k, m)
    decreases |run|
  {
    if from == |run| {
      assert run[..from] == run;
    } else {
      var front, a := run[..|run| - 1], run[|run| - 1];
      assert run == front + [a] && front[..from] == run[..from];
      PushGoesOn(front, from, m);
      if !OnItsWay(front, from, m) {
        var k :| from <= k < |front| && AddsTurn(front, from, k, m);
        AddedBefore(front, a, from, k, m);
      } else if a != PushStep(m) {
        OthersStep(front, a, from, m);
      } else if PushAt(Exec(START, front).queue, m, PushAdd) {
        AddStep(front, from, m);
      } else {
        OwnStep(front, from, m);
      }
    }
  }

  /** Whatever everyone else does, a push that has come to its end has added the turn job:
      right after its `add` the job waits for its worker, unless it was at work at some
      moment between the push's look at it and the `add`. */
  lemma PushAddsTurn(run: seq<Action>, from: nat, m: MsgId) returns (k: nat)
    requires from <= |run|
    requires var s := Exec(START, run[..from]); m in s.mail.pushed && PushAt(s.queue, m, PushCancelLook)
    requires m !in Exec(START, run).queue.pushes
    ensures from <= k < |run| && AddsTurn(run, from, k, m)
  {
    PushGoesOn(run, from, m);
    k :| from <= k < |run| && AddsTurn(run, from, k, m);
  }

  /** So with no turn at work meanwhile, the job is waiting for its worker when the push is
      over, or has been since: a turn that has come to its end is no obstacle. */
  lemma QuietPushAddsTurn(run: seq<Action>, from: nat, m: MsgId) returns (k: nat)
    requires from <= |run|
    requires var s := Exec(START, run[..from]); m in s.mail.pushed && PushAt(s.queue, m, PushCancelLook)
    requires m !in Exec(START, run).queue.pushes
    requires forall l :: from <= l <= |run| ==> !Exec(START, run[..l]).queue.turn.Running?
    ensures from <= k < |run| && run[k] == PushStep(m) && Exec(START, run[..k + 1]).queue.turn.Pending?
  {
    k := PushAddsTurn(run, from, m);
    forall l | from <= l <= k ensures !TurnInTheWay(Exec(START, run[..k][..l]).queue, m) {
      assert run[..k][..l] == run[..l];
    }
  }

  // ----- the retry of a turn that met a busy lock -----

  predicate TurnAt(q: Scheduler, pc: WorkerPc) { q.turn == Running(pc) }

  /** The retry job is at work while the turn job is past its look at it. */
  predicate RetryInTheWay(q: Scheduler) { (TurnAt(q, RetryDrop) || TurnAt(q, RetryAdd)) && q.retry.Running? }

  ghost predicate RetryWasInTheWay(run: seq<Action>, from: nat) {
    exists l :: from <= l <= |run| && RetryInTheWay(Exec(START, run[..l]).queue)
  }

  ghost predicate AddsRetry(run: seq<Action>, from: nat, k: nat) {
    && from <= k < |run| && run[k].Work? && run[k].job == TURN && TurnAt(Exec(START, run[..k]).queue, RetryAdd)
    && (Exec(START, run[..k + 1]).queue.retry.Pending? || RetryWasInTheWay(run[..k], from))
  }

  ghost predicate RetryOnItsWay(run: seq<Action>, from: nat) {
    var q := Exec(START, run).queue;
    && (TurnAt(q, RetryLook) || TurnAt(q, RetryDrop) || TurnAt(q, RetryAdd))
    && (TurnAt(q, RetryAdd) ==> Free(q.retry) || RetryWasInTheWay(run, from))
  }

  lemma RetryInTheWayStays(front: seq<Action>, a: Action, from: nat)
    requires RetryWasInTheWay(front, from)
    ensures RetryWasInTheWay(front + [a], from)
  {
    var l :| from <= l <= |front| && RetryInTheWay(Exec(START, front[..l]).queue);
    assert (front + [a])[..l] == front[..l];
  }

  lemma RetryInTheWayNow(run: seq<Action>, from: nat)
    requires from <= |run| && RetryInTheWay(Exec(START, run).queue)
    ensures RetryWasInTheWay(run, from)
  {
    assert run[..|run|] == run;
  }

  lemma OthersLeaveRetry(s: State, a: Action)
    requires s.queue.turn.Running? && !(a.Work? && a.job == TURN)
    ensures var t := Next(s, a);
      t.queue.turn == s.queue.turn && (Free(s.queue.retry) ==> Free(t.queue.retry) || t.queue.retry.Running?)
  {
    match a
    case Work(j, c) => if Slot(s.queue, j).Running? { WorkFrame(s.queue, s.locked, s.desk.row, j, c); }
    case PushStep(m) => if m in s.queue.pushes { PushFrame(s.queue, m); }
    case Deliver(_) => case BeginPush(_) => case Take(_) => case BeginSend(_) =>
    case SendStep(_, _) => case AdminRelease(_) => case AdminOptOut => case Expire =>
  }

  lemma OthersWhileRetrying(front: seq<Action>, a: Action, from: nat)
    requires from <= |front| && RetryOnItsWay(front, from) && !(a.Work? && a.job == TURN)
    ensures RetryOnItsWay(front + [a], from)
  {
    PrefixExec(front, a);
    OthersLeaveRetry(Exec(START, front), a);
    if RetryWasInTheWay(front, from) {
      RetryInTheWayStays(front, a, from);
    } else if RetryInTheWay(Exec(START, front + [a]).queue) {
      RetryInTheWayNow(front + [a], from);
    }
  }

  lemma OwnRetryStep(front: seq<Action>, c: Choice, from: nat)
    requires from <= |front| && RetryOnItsWay(front, from) && !TurnAt(Exec(START, front).queue, RetryAdd)
    ensures RetryOnItsWay(front + [Work(TURN, c)], from)
  {
    PrefixExec(front, Work(TURN, c));
    if RetryInTheWay(Exec(START, front).queue) {
      RetryInTheWayNow(front, from);
      RetryInTheWayStays(front, Work(TURN, c), from);
    }
  }

  lemma RetryAddStep(front: seq<Action>, c: Choice, from: nat)
    requires from <= |front| && RetryOnItsWay(front, from) && TurnAt(Exec(START, front).queue, RetryAdd)
    ensures AddsRetry(front + [Work(TURN, c)], from, |front|)
  {
    var run := front + [Work(TURN, c)];
    PrefixExec(front, Work(TURN, c));
    assert run[..|front| + 1] == run;
  }

  lemma RetryAddedBefore(front: seq<Action>, a: Action, from: nat, k: nat)
    requires AddsRetry(front, from, k)
    ensures AddsRetry(front + [a], from, k)
  {
    var run := front + [a];
    assert run[..k] == front[..k] && run[..k + 1] == front[..k + 1];
  }

  lemma {:induction false} RetryGoesOn(run: seq<Action>, from: nat)
    requires from <= |run| && TurnAt(Exec(START, run[..from]).queue, RetryLook)
    ensures RetryOnItsWay(run, from) || exists k :: from <= k < |run| && AddsRetry(run, from, k)
    decreases |run|
  {
    if from == |run| {
      assert run[..from] == run;
    } else {
      var front, a := run[..|run| - 1], run[|run| - 1];
      assert run == front + [a] && front[..from] == run[..from];
      RetryGoesOn(front, from);
      if !RetryOnItsWay(front, from) {
        var k :| from <= k < |front| && AddsRetry(front, from, k);
        RetryAddedBefore(front, a, from, k);
      } else if !(a.Work? && a.job == TURN) {
        OthersWhileRetrying(front, a, from);
      } else if TurnAt(Exec(START, front).queue, RetryAdd) {
        RetryAddStep(front, a.choice, from);
      } else {
        OwnRetryStep(front, a.choice, from);
      }
    }
  }

  /** A turn job that met a busy lock and has gone on from there has added the retry: right
      after its `add` the retry waits for its worker, unless it was itself at work at some
      moment between the turn job's look at it and the `add`. */
  lemma BusyTurnAddsRetry(run: seq<Action>, from: nat) returns (k: nat)
    requires from <= |run| && TurnAt(Exec(START, run[..from]).queue, RetryLook)
    requires var q := Exec(START, run).queue; !TurnAt(q, RetryLook) && !TurnAt(q, RetryDrop) && !TurnAt(q, RetryAdd)
    ensures from <= k < |run| && AddsRetry(run, from, k)
  {
    RetryGoesOn(run, from);
    k :| from <= k < |run| && AddsRetry(run, from, k);
  }
}
