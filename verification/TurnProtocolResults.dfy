/** What holds of every run of the turn protocol, and runs that show why the conditions
    are there. */
module TurnProtocolResults {
  import opened Common
  import opened TurnProtocol

  lemma {:induction false} StaysInvariant(s: State, run: seq<Action>)
    requires Invariant(s)
    ensures Invariant(Exec(s, run))
    decreases |run|
  {
    if run != [] {
      StaysInvariant(s, run[..|run| - 1]);
      InvariantStep(Exec(s, run[..|run| - 1]), run[|run| - 1]);
    }
  }

  // ----- mutual exclusion -----

  /** While the lock outlives its holders, no two of all the turns and manual sends of a
      lead are between taking and releasing it, and a lock without a holder is free. */
  lemma OneAtATime(run: seq<Action>, g: Holder, h: Holder)
    ensures var s := Exec(START, run);
      !s.expired ==>
        && (Holds(s.queue, s.desk.sends, g) && Holds(s.queue, s.desk.sends, h) ==> g == h)
        && (s.locked <==> SomeoneHolds(s.queue, s.desk.sends))
  {
    Reachable(run);
  }

  /** A send that has taken the lock. */
  lemma SendHolding() returns (run: seq<Action>, s: State)
    ensures Exec(START, run) == s
    ensures s == START.(desk := START.desk.(sends := map[1 := SendCommit]), locked := true)
  {
    run, s := Extend([], START, BeginSend(1));
    assert s == START.(desk := START.desk.(sends := map[1 := SendCheck]));
    run, s := Extend(run, s, SendStep(1, false));
    assert s == START.(desk := START.desk.(sends := map[1 := SendLock]));
    run, s := Extend(run, s, SendStep(1, false));
  }

  /** A holder that outstays the time to live lets a second one in. */
  lemma ExpiryLetsTwoIn() returns (run: seq<Action>)
    ensures var s := Exec(START, run);
      Holds(s.queue, s.desk.sends, Sender(1)) && Holds(s.queue, s.desk.sends, Sender(2))
  {
    var s: State;
    run, s := SendHolding();
    run, s := Extend(run, s, Expire);
    var d := s.desk;
    assert d == START.desk.(sends := map[1 := SendCommit]) && !s.locked;
    run, s := Extend(run, s, BeginSend(2));
    assert s.desk == At(d, 2, SendCheck) && !s.locked;
    run, s := Extend(run, s, SendStep(2, false));
    assert s.desk == At(d, 2, SendLock) && !s.locked;
    run, s := Extend(run, s, SendStep(2, false));
    assert s.desk == At(d, 2, SendCommit);
  }

  lemma Extend(run: seq<Action>, s: State, a: Action) returns (longer: seq<Action>, t: State)
    requires Exec(START, run) == s
    ensures longer == run + [a] && t == Next(s, a) && Exec(START, longer) == t
  {
    longer, t := run + [a], Next(s, a);
    assert longer[..|run|] == run;
  }

  // ----- messages -----

  function Batches(rounds: seq<Round>): seq<MsgId> {
    if rounds == [] then [] else Batches(rounds[..|rounds| - 1]) + rounds[|rounds| - 1].batch
  }

  lemma {:induction false} FlatCoversBatches(rounds: seq<Round>)
    ensures |Batches(rounds)| <= |Flat(rounds)|
    ensures Batches(rounds) == Flat(rounds) <==> forall i :: 0 <= i < |rounds| ==> rounds[i].lost == []
    decreases |rounds|
  {
    if rounds != [] {
      var front, last := rounds[..|rounds| - 1], rounds[|rounds| - 1];
      FlatCoversBatches(front);
      assert forall i :: 0 <= i < |front| ==> rounds[i] == front[i];
      if Batches(rounds) == Flat(rounds) {
        assert |last.lost| == 0;
        assert Flat(front) == Flat(rounds)[..|Flat(front)|];
        assert Batches(front) == Batches(rounds)[..|Batches(front)|];
      }
    }
  }

  /** The batches handed to turns, in order, and then the buffer are everything pushed in
      the order it was pushed, exactly when no pop took an entry between its read and its
      delete. */
  lemma TurnsGetEverything(run: seq<Action>)
    ensures var s := Exec(START, run);
      !s.expired ==>
        (Batches(s.queue.rounds) + s.queue.buffer == s.mail.pushed
         <==> forall i :: 0 <= i < |s.queue.rounds| ==> s.queue.rounds[i].lost == [])
  {
    var s := Exec(START, run);
    Reachable(run);
    FlatCoversBatches(s.queue.rounds);
    if !s.expired && Batches(s.queue.rounds) + s.queue.buffer == s.mail.pushed {
      assert |Batches(s.queue.rounds)| == |Flat(s.queue.rounds)|;
      assert Flat(s.queue.rounds) == s.mail.pushed[..|Flat(s.queue.rounds)|];
      assert Batches(s.queue.rounds) == s.mail.pushed[..|Flat(s.queue.rounds)|];
    }
  }

  /** From `s` to `t` the buffer grew by what was pushed meanwhile and nothing else
      happened to it, nor to job `j`. */
  predicate OnlyPushed(s: State, t: State, j: JobId) {
    && Slot(t.queue, j) == Slot(s.queue, j) && t.queue.rounds == s.queue.rounds
    && s.mail.pushed <= t.mail.pushed
    && t.queue.buffer == s.queue.buffer + t.mail.pushed[|s.mail.pushed|..]
  }

  lemma OnlyPushedChain(s: State, m: State, t: State, j: JobId)
    requires OnlyPushed(s, m, j) && OnlyPushed(m, t, j)
    ensures OnlyPushed(s, t, j)
  {
    assert t.mail.pushed[|s.mail.pushed|..] == m.mail.pushed[|s.mail.pushed|..] + t.mail.pushed[|m.mail.pushed|..];
  }

  /** While worker `j` waits between its read and its delete, the buffer is its batch and
      then what was pushed meanwhile, whatever everyone else does. */
  lemma {:induction false} BufferGrowsMeanwhile(s: State, j: JobId, run: seq<Action>)
    requires Invariant(s) && Deleting(Slot(s.queue, j))
    requires forall i :: 0 <= i < |run| ==> !(run[i].Work? && run[i].job == j)
    requires !Exec(s, run).expired
    ensures OnlyPushed(s, Exec(s, run), j)
    decreases |run|
  {
    if run != [] {
      var front, a := run[..|run| - 1], run[|run| - 1];
      ExpiredStays(Exec(s, front), a);
      BufferGrowsMeanwhile(s, j, front);
      StaysInvariant(s, front);
      WaitingStep(Exec(s, front), j, a);
      OnlyPushedChain(s, Exec(s, front), Exec(s, run), j);
    }
  }

  /** What a pop takes is what it read, and what it loses is what was pushed after its
      read and before its delete, to the last entry. */
  lemma LostIsPushedInBetween(s: State, j: JobId, run: seq<Action>, c: Choice)
    requires Invariant(s) && Deleting(Slot(s.queue, j))
    requires Slot(s.queue, j).pc.batch == s.queue.buffer
    requires forall i :: 0 <= i < |run| ==> !(run[i].Work? && run[i].job == j)
    requires !Exec(s, run).expired
    ensures var t := Exec(s, run);
      var u := Next(t, Work(j, c));
      && s.mail.pushed <= t.mail.pushed && u.queue.buffer == []
      && u.queue.rounds == s.queue.rounds + [Round(s.queue.buffer, t.mail.pushed[|s.mail.pushed|..])]
  {
    BufferGrowsMeanwhile(s, j, run);
    var t := Exec(s, run);
    var batch, meanwhile := s.queue.buffer, t.mail.pushed[|s.mail.pushed|..];
    assert t.queue.buffer[|batch|..] == meanwhile;
  }

  lemma ExpiredStays(s: State, a: Action)
    ensures s.expired ==> Next(s, a).expired
  {
  }

  lemma WaitingStep(s: State, j: JobId, a: Action)
    requires Invariant(s) && !s.expired && Deleting(Slot(s.queue, j))
    requires !(a.Work? && a.job == j)
    ensures OnlyPushed(s, Next(s, a), j)
  {
    match a
    case Work(k, c) => if Slot(s.queue, k).Running? { OthersKeepWaiting(s, j, c); }
    case PushStep(m) => if m in s.queue.pushes { PushFrame(s.queue, m); }
    case _ =>
  }

  lemma OthersKeepWaiting(s: State, j: JobId, c: Choice)
    requires Invariant(s) && !s.expired && Slot(s.queue, j).Running? && Slot(s.queue, j).pc.DeleteBuffer?
    requires Slot(s.queue, Other(j)).Running?
    ensures var t := WorkQueue(s.queue, s.locked, s.desk.row, Other(j), c);
      Slot(t, j) == Slot(s.queue, j) && t.rounds == s.queue.rounds && t.buffer == s.queue.buffer
  {
    OneWorker(s.queue, s.desk.sends, s.locked);
    WorkFrame(s.queue, s.locked, s.desk.row, Other(j), c);
    WorkKeepsBuffer(s.queue, s.locked, s.desk.row, Other(j), c);
  }

  lemma {:induction false} InFlat(rounds: seq<Round>, i: nat, m: MsgId) returns (at: nat)
    requires i < |rounds| && m in rounds[i].batch
    ensures |Flat(rounds[..i])| <= at < |Flat(rounds[..i + 1])| <= |Flat(rounds)|
    ensures Flat(rounds)[at] == m
    decreases |rounds|
  {
    var front, last := rounds[..|rounds| - 1], rounds[|rounds| - 1];
    if i == |front| {
      var k :| 0 <= k < |last.batch| && last.batch[k] == m;
      at := |Flat(front)| + k;
      assert rounds[..i] == front && rounds[..i + 1] == rounds;
    } else {
      at := InFlat(front, i, m);
      assert rounds[..i] == front[..i] && rounds[..i + 1] == front[..i + 1];
    }
  }

  lemma {:induction false} FlatGrows(rounds: seq<Round>, i: nat, j: nat)
    requires i <= j <= |rounds|
    ensures |Flat(rounds[..i])| <= |Flat(rounds[..j])|
    decreases j - i
  {
    if i < j {
      assert rounds[..i + 1][..i] == rounds[..i];
      FlatGrows(rounds, i + 1, j);
    }
  }

  /** However often the webhook delivers a message, it enters one turn at most, and never
      a turn and the buffer. */
  lemma AtMostOneTurn(run: seq<Action>, i: nat, j: nat, m: MsgId)
    requires var s := Exec(START, run); !s.expired && i <= j < |s.queue.rounds|
    requires var r := Exec(START, run).queue.rounds; m in r[i].batch && m in r[j].batch
    ensures i == j && m !in Exec(START, run).queue.buffer
  {
    var s := Exec(START, run);
    var r := s.queue.rounds;
    Reachable(run);
    var x := InFlat(r, i, m);
    var y := InFlat(r, j, m);
    assert s.mail.pushed[x] == m && s.mail.pushed[y] == m;
    if i < j { FlatGrows(r, i + 1, j); }
    NotInRest(s.mail.pushed, Flat(r), s.queue.buffer, x);
  }

  lemma NotInRest(all: seq<MsgId>, front: seq<MsgId>, rest: seq<MsgId>, x: nat)
    requires Distinct(all) && all == front + rest && x < |front|
    ensures front[x] !in rest
  {
    assert all[x] == front[x];
    forall k | 0 <= k < |rest| ensures rest[k] == all[|front| + k] != front[x] {
    }
  }

  // ----- waking up -----

  /** With nothing under way that looks at the buffer, entries are waiting exactly when
      an `add` did nothing since the last one that worked. */
  lemma StrandedMeansSwallowed(run: seq<Action>)
    ensures var q := Exec(START, run).queue; !Awake(q) ==> (q.buffer != [] <==> q.swallowed)
  {
    Reachable(run);
  }

  /** An `add` is swallowed only by the job of its own id, active or finished: a push
      while a turn runs, or a busy lock met by a worker while a retry runs. */
  lemma SwallowedByItsOwnId(s: State, a: Action)
    requires !s.queue.swallowed && Next(s, a).queue.swallowed
    ensures s.queue.buffer != []
    ensures
      || (a.PushStep? && a.m in s.queue.pushes && s.queue.pushes[a.m] == PushAdd
          && (s.queue.turn.Running? || s.queue.turn.Finished?))
      || (a.Work? && Slot(s.queue, a.job) == Running(RetryAdd)
          && (s.queue.retry.Running? || s.queue.retry.Finished?))
  {
    match a
    case Work(j, c) =>
      if Slot(s.queue, j).Running? {
        match Slot(s.queue, j).pc
        case AcquireLock => case RetryLook => case RetryDrop => case RetryAdd => case CancelLook => case CancelDrop =>
        case ReadBuffer => case DeleteBuffer(_) => case ReadLead => case WriteLead(_, _) => case ReleaseLock =>
      }
    case PushStep(m) =>
    case _ =>
  }

  lemma AsleepStep(s: State, a: Action)
    requires !Awake(s.queue) && !a.BeginPush?
    ensures !Awake(Next(s, a).queue) && Next(s, a).queue.buffer == s.queue.buffer
  {
    match a
    case Work(j, c) =>
      if Slot(s.queue, j).Running? { assert !WillServe(Slot(s.queue, j)); }
    case Deliver(_) => case BeginPush(_) => case PushStep(_) => case Take(_) => case BeginSend(_) =>
    case SendStep(_, _) => case AdminRelease(_) => case AdminOptOut => case Expire =>
  }

  /** With nothing under way that looks at the buffer, nothing but another message ever
      will: what is stranded stays, however long the run. */
  lemma {:induction false} AsleepUntilNextPush(s: State, run: seq<Action>)
    requires !Awake(s.queue) && forall i :: 0 <= i < |run| ==> !run[i].BeginPush?
    ensures !Awake(Exec(s, run).queue) && Exec(s, run).queue.buffer == s.queue.buffer
    decreases |run|
  {
    if run != [] {
      AsleepUntilNextPush(s, run[..|run| - 1]);
      AsleepStep(Exec(s, run[..|run| - 1]), run[|run| - 1]);
    }
  }

  /** A retry that meets a busy lock is not repeated, its own id being in the way: after
      any run, unless the turn job or a push is still to look, the entries wait until the
      next message, whatever else happens. */
  lemma RetryIsNotRepeated(run: seq<Action>, c: Choice, more: seq<Action>)
    requires var q := Exec(START, run).queue;
      && q.retry == Running(RetryAdd) && q.buffer != []
      && !q.turn.Pending? && !WillServe(q.turn) && q.pushes == map[]
    requires forall i :: 0 <= i < |more| ==> !more[i].BeginPush?
    ensures var t := Exec(Next(Exec(START, run), Work(RETRY, c)), more);
      t.queue.buffer == Exec(START, run).queue.buffer && !Awake(t.queue)
  {
    AsleepUntilNextPush(Next(Exec(START, run), Work(RETRY, c)), more);
  }

  const REPLY := Choice(1, false, false, false, false)

  /** Two messages delivered, the first one pushed. */
  lemma FirstPush() returns (run: seq<Action>, s: State)
    ensures Exec(START, run) == s
    ensures s == START.(mail := Mailbox({1, 2}, {2}, [1]), queue := START.queue.(buffer := [1], turn := Pending))
  {
    run, s := Extend([], START, Deliver(1));
    run, s := Extend(run, s, Deliver(2));
    assert s == START.(mail := Mailbox({1, 2}, {1, 2}, []));
    run, s := Extend(run, s, BeginPush(1));
    assert s == START.(mail := Mailbox({1, 2}, {2}, [1]),
                       queue := START.queue.(buffer := [1], pushes := map[1 := PushCancelLook]));
    run, s := Extend(run, s, PushStep(1));
    assert s.queue == START.queue.(buffer := [1], pushes := map[1 := PushTurnLook]);
    run, s := Extend(run, s, PushStep(1));
    assert s.queue == START.queue.(buffer := [1], pushes := map[1 := PushAdd]);
    run, s := Extend(run, s, PushStep(1));
    assert s.queue == START.queue.(buffer := [1], turn := Pending);
  }

  /** Its turn has taken the lock and read the buffer. */
  lemma FirstRead() returns (run: seq<Action>, s: State)
    ensures Exec(START, run) == s
    ensures s == START.(mail := Mailbox({1, 2}, {2}, [1]), locked := true,
                        queue := START.queue.(buffer := [1], turn := Running(DeleteBuffer([1]))))
  {
    run, s := FirstPush();
    var t := s.(locked := true);
    run, s := Extend(run, s, Take(TURN));
    assert s.queue == t.queue.(turn := Running(AcquireLock));
    run, s := Extend(run, s, Work(TURN, REPLY));
    assert s == t.(queue := t.queue.(turn := Running(CancelLook)));
    run, s := Extend(run, s, Work(TURN, REPLY));
    assert s == t.(queue := t.queue.(turn := Running(ReadBuffer)));
    run, s := Extend(run, s, Work(TURN, REPLY));
  }

  /** It has emptied the buffer and is about to read the lead. */
  lemma FirstTurn() returns (run: seq<Action>, s: State)
    ensures Exec(START, run) == s
    ensures s == START.(mail := Mailbox({1, 2}, {2}, [1]), locked := true,
                        queue := START.queue.(turn := Running(ReadLead), rounds := [Round([1], [])]))
  {
    run, s := FirstRead();
    var q := s.queue;
    run, s := Extend(run, s, Work(TURN, REPLY));
    assert q.buffer == [1] && q.buffer[|[1]|..] == [];
    assert q.rounds + [Round([1], [])] == [Round([1], [])];
    assert s.queue == PopBuffer(q.(turn := Running(ReadLead)), [1]);
    assert s.queue == q.(turn := Running(ReadLead), buffer := [], rounds := [Round([1], [])]);
  }

  /** The second message is pushed meanwhile; its `add` does nothing. */
  lemma SecondPush() returns (run: seq<Action>, s: State)
    ensures Exec(START, run) == s
    ensures s.queue == START.queue.(buffer := [2], turn := Running(ReadLead), rounds := [Round([1], [])], swallowed := true)
  {
    run, s := FirstTurn();
    var q := s.queue;
    run, s := Extend(run, s, BeginPush(2));
    assert s.queue == q.(buffer := [2], pushes := map[2 := PushCancelLook]);
    run, s := Extend(run, s, PushStep(2));
    assert s.queue == q.(buffer := [2], pushes := map[2 := PushTurnLook]);
    run, s := Extend(run, s, PushStep(2));
    assert s.queue == q.(buffer := [2], pushes := map[2 := PushTurnDrop]);
    run, s := Extend(run, s, PushStep(2));
    assert s.queue == q.(buffer := [2], pushes := map[2 := PushAdd]);
    run, s := Extend(run, s, PushStep(2));
    assert s.queue == q.(buffer := [2], swallowed := true);
  }

  /** A message that arrives while the turn before it is being answered waits in the
      buffer with nothing left to look at it. */
  lemma MessageDuringTurnIsStranded() returns (run: seq<Action>)
    ensures var q := Exec(START, run).queue; q.buffer == [2] && !Awake(q) && q.turn == Finished && q.retry == Absent
  {
    var s: State;
    run, s := SecondPush();
    var q := s.queue;
    run, s := Extend(run, s, Work(TURN, REPLY));
    assert s.queue == q.(turn := Running(WriteLead(s.desk.row, REPLY)));
    run, s := Extend(run, s, Work(TURN, REPLY));
    assert s.queue == q.(turn := Running(ReleaseLock));
    run, s := Extend(run, s, Work(TURN, REPLY));
    assert s.queue == q.(turn := Finished);
  }

  /** A message pushed between the read and the delete of a pop is gone. */
  lemma MessageInsidePopIsLost() returns (run: seq<Action>)
    ensures var s := Exec(START, run);
      s.mail.pushed == [1, 2] && s.queue.rounds == [Round([1], [2])] && s.queue.buffer == [] && !s.expired
  {
    var s: State;
    run, s := FirstRead();
    var q := s.queue;
    run, s := Extend(run, s, BeginPush(2));
    assert s.mail.pushed == [1, 2];
    assert s.queue == q.(buffer := [1, 2], pushes := map[2 := PushCancelLook]);
    run, s := Extend(run, s, Work(TURN, REPLY));
    assert [1, 2][|[1]|..] == [2];
    assert s.queue.rounds == [] + [Round([1], [2])];
  }

  /** A manual send holds the lock and a message is scheduled. */
  lemma BusyLock() returns (run: seq<Action>, s: State)
    ensures Exec(START, run) == s
    ensures s.queue == START.queue.(buffer := [1], turn := Pending) && s.locked && !s.expired
  {
    run, s := SendHolding();
    run, s := Extend(run, s, Deliver(1));
    assert s.mail == Mailbox({1}, {1}, []) && s.queue == START.queue;
    run, s := Extend(run, s, BeginPush(1));
    assert s.queue == START.queue.(buffer := [1], pushes := map[1 := PushCancelLook]);
    run, s := Extend(run, s, PushStep(1));
    assert s.queue == START.queue.(buffer := [1], pushes := map[1 := PushTurnLook]);
    run, s := Extend(run, s, PushStep(1));
    assert s.queue == START.queue.(buffer := [1], pushes := map[1 := PushAdd]);
    run, s := Extend(run, s, PushStep(1));
  }

  /** The turn has met the busy lock and left a retry. */
  lemma RetryScheduled() returns (run: seq<Action>, s: State)
    ensures Exec(START, run) == s
    ensures s.queue == START.queue.(buffer := [1], turn := Finished, retry := Pending) && s.locked && !s.expired
  {
    run, s := BusyLock();
    var q := s.queue;
    run, s := Extend(run, s, Take(TURN));
    assert s.queue == q.(turn := Running(AcquireLock)) && s.locked;
    run, s := Extend(run, s, Work(TURN, REPLY));
    assert s.queue == q.(turn := Running(RetryLook)) && s.locked;
    run, s := Extend(run, s, Work(TURN, REPLY));
    assert s.queue == q.(turn := Running(RetryAdd)) && s.locked;
    run, s := Extend(run, s, Work(TURN, REPLY));
  }

  /** The retry meets the lock still busy; the message stays with nothing to look at it. */
  lemma RetryMeetsBusyLock() returns (run: seq<Action>)
    ensures var s := Exec(START, run);
      && s.queue.buffer == [1] && !Awake(s.queue) && !s.expired
      && s.queue.turn == Finished && s.queue.retry == Finished
  {
    var s: State;
    run, s := RetryScheduled();
    var q := s.queue;
    run, s := Extend(run, s, Take(RETRY));
    assert s.queue == q.(retry := Running(AcquireLock)) && s.locked;
    run, s := Extend(run, s, Work(RETRY, REPLY));
    assert s.queue == q.(retry := Running(RetryLook)) && s.locked;
    run, s := Extend(run, s, Work(RETRY, REPLY));
    assert s.queue == q.(retry := Running(RetryDrop)) && s.locked;
    run, s := Extend(run, s, Work(RETRY, REPLY));
    assert s.queue == q.(retry := Running(RetryAdd)) && s.locked;
    run, s := Extend(run, s, Work(RETRY, REPLY));
    assert s.queue == q.(retry := Finished, swallowed := true);
  }

  // ----- the lead row -----

  /** Over every run in which no holder outlives the lock, whatever the admins do, the
      handoff a manual send committed goes away only by an admin's release or opt-out, by
      a later send, or by a turn that saw that very handoff and found it timed out or was
      asked to opt out. */
  lemma ManualHandoffStands(run: seq<Action>, a: Action, n: SendId)
    requires var s := Exec(START, run);
      !s.expired && s.desk.row == Handoff(Some(n)) && Next(s, a).desk.row != s.desk.row
    ensures var s := Exec(START, run);
      || a.AdminRelease? || a.AdminOptOut?
      || (a.SendStep? && a.n in s.desk.sends && s.desk.sends[a.n] == SendCommit)
      || (a.Work? && MidTurn(Slot(s.queue, a.job))
          && var pc := Slot(s.queue, a.job).pc;
            pc.seen == Handoff(Some(n)) && (pc.choice.timedOut || pc.choice.optsOut))
  {
    Reachable(run);
  }

  ghost predicate LeavesHandoffFrom(run: seq<Action>, from: nat) {
    forall k :: from <= k < |run| ==> LeavesHandoff(Exec(START, run[..k]), run[k])
  }

  lemma LeavesHandoffBefore(front: seq<Action>, a: Action, from: nat)
    requires from <= |front| && LeavesHandoffFrom(front + [a], from)
    ensures LeavesHandoffFrom(front, from) && LeavesHandoff(Exec(START, front), a)
  {
    var run := front + [a];
    assert run[..|front|] == front && run[|front|] == a;
    forall k | from <= k < |front| ensures LeavesHandoff(Exec(START, front[..k]), front[k]) {
      assert run[..k] == front[..k] && run[k] == front[k];
    }
  }

  lemma LastStep(front: seq<Action>, a: Action)
    ensures Exec(START, front + [a]) == Next(Exec(START, front), a)
    ensures Exec(START, front).expired ==> Exec(START, front + [a]).expired
  {
    assert (front + [a])[..|front|] == front;
  }

  /** So, once committed, it stands to the end of every run that takes none of these
      steps from then on. */
  lemma {:induction false} ManualHandoffStays(run: seq<Action>, from: nat, n: SendId)
    requires from <= |run| && Exec(START, run[..from]).desk.row == Handoff(Some(n)) && !Exec(START, run).expired
    requires LeavesHandoffFrom(run, from)
    ensures Exec(START, run).desk.row == Handoff(Some(n))
    decreases |run|
  {
    if from == |run| {
      assert run[..from] == run;
    } else {
      var front, a := run[..|run| - 1], run[|run| - 1];
      assert run == front + [a] && front[..from] == run[..from];
      LeavesHandoffBefore(front, a, from);
      LastStep(front, a);
      ManualHandoffStays(front, from, n);
      HandoffStaysOneStep(front, a, n);
    }
  }

  lemma HandoffStaysOneStep(run: seq<Action>, a: Action, n: SendId)
    requires var s := Exec(START, run);
      s.desk.row == Handoff(Some(n)) && !s.expired && LeavesHandoff(s, a)
    ensures Next(Exec(START, run), a).desk.row == Handoff(Some(n))
  {
    if Next(Exec(START, run), a).desk.row != Handoff(Some(n)) { ManualHandoffStands(run, a, n); }
  }

  /** The step is none of those that may take a handoff away. */
  ghost predicate LeavesHandoff(s: State, a: Action) {
    && !a.AdminRelease? && !a.AdminOptOut?
    && (a.SendStep? && a.n in s.desk.sends ==> s.desk.sends[a.n] != SendCommit)
    && (a.Work? && MidTurn(Slot(s.queue, a.job)) ==>
          var c := Slot(s.queue, a.job).pc.choice; !c.timedOut && !c.optsOut)
  }

  /** More generally no turn sees another row than the one it writes over, in any run in
      which the lock outlives its holders and no admin acts inside a turn. */
  lemma TurnsSeeTheRow(run: seq<Action>, j: JobId)
    requires var s := Exec(START, run); !s.expired && !s.desk.raced && MidTurn(Slot(s.queue, j))
    ensures var s := Exec(START, run); Slot(s.queue, j).pc.seen == s.desk.row
  {
    Reachable(run);
  }

  /** A turn past its read, whose write will put another state over an opt-out. */
  predicate WillOverwrite(job: Job) {
    MidTurn(job) && Decide(job.pc.seen, job.pc.choice).Some? && Decide(job.pc.seen, job.pc.choice).value != OptedOut
  }

  predicate OptedOutForGood(s: State) {
    s.desk.row == OptedOut && !WillOverwrite(s.queue.turn) && !WillOverwrite(s.queue.retry)
  }

  lemma OptedOutForGoodStep(s: State, a: Action)
    requires OptedOutForGood(s)
    ensures OptedOutForGood(Next(s, a)) && Next(s, a).desk.messages <= s.desk.messages
  {
    match a
    case Work(j, c) => if Slot(s.queue, j).Running? { OptedOutForGoodWork(s, j, c); }
    case PushStep(m) => if m in s.queue.pushes { PushFrame(s.queue, m); }
    case Deliver(_) => case BeginPush(_) => case Take(_) => case BeginSend(_) => case SendStep(_, _) =>
    case AdminRelease(_) => case AdminOptOut => case Expire =>
  }

  lemma OptedOutForGoodWork(s: State, j: JobId, c: Choice)
    requires OptedOutForGood(s) && Slot(s.queue, j).Running?
    ensures OptedOutForGood(WorkNext(s, j, c))
  {
    match Slot(s.queue, j).pc
    case AcquireLock => case RetryLook => case RetryDrop => case RetryAdd => case CancelLook => case CancelDrop =>
    case ReadBuffer => case DeleteBuffer(_) => case ReadLead => case WriteLead(_, _) => case ReleaseLock =>
  }

  lemma {:induction false} OptedOutForGoodRun(s: State, run: seq<Action>)
    requires OptedOutForGood(s)
    ensures OptedOutForGood(Exec(s, run)) && Exec(s, run).desk.messages <= s.desk.messages
    decreases |run|
  {
    if run != [] {
      OptedOutForGoodRun(s, run[..|run| - 1]);
      OptedOutForGoodStep(Exec(s, run[..|run| - 1]), run[|run| - 1]);
    }
  }

  /** From any state, reachable or not, an opt-out stands through every run exactly when
      no turn is past its read with another state to write. Then no manual message is
      stored for the lead any more either. */
  lemma OptOutStands(s: State)
    requires s.desk.row == OptedOut
    ensures (forall run :: Exec(s, run).desk.row == OptedOut)
            <==> !WillOverwrite(s.queue.turn) && !WillOverwrite(s.queue.retry)
    ensures !WillOverwrite(s.queue.turn) && !WillOverwrite(s.queue.retry) ==>
      forall run :: Exec(s, run).desk.messages <= s.desk.messages
  {
    if OptedOutForGood(s) {
      forall run ensures Exec(s, run).desk.row == OptedOut && Exec(s, run).desk.messages <= s.desk.messages {
        OptedOutForGoodRun(s, run);
      }
    } else {
      var j := if WillOverwrite(s.queue.turn) then TURN else RETRY;
      OneStep(s, Work(j, REPLY));
      assert Exec(s, [Work(j, REPLY)]).desk.row != OptedOut;
    }
  }

  lemma OneStep(s: State, a: Action)
    ensures Exec(s, [a]) == Next(s, a)
  {
    assert [a][..0] == [];
  }

  /** Without the lock an admin's opt-out can land inside a turn, whose write then
      takes it back. */
  lemma OptOutDuringTurnIsOverwritten() returns (run: seq<Action>)
    ensures |run| > 0
    ensures var s, t := Exec(START, run[..|run| - 1]), Exec(START, run);
      s.desk.row == OptedOut && t.desk.row == Bot(1) && !t.expired
  {
    var s: State;
    run, s := FirstTurn();
    run, s := Extend(run, s, Work(TURN, REPLY));
    assert s.queue.turn == Running(WriteLead(Bot(0), REPLY)) && s.desk == START.desk && !s.expired;
    run, s := Extend(run, s, AdminOptOut);
    assert s.desk.row == OptedOut;
    var before := run;
    run, s := Extend(run, s, Work(TURN, REPLY));
    assert run[..|run| - 1] == before;
  }

  /** Once no manual send is in flight, the stored messages are the queued ones and those
      whose enqueueing and compensating delete both failed. */
  lemma StoredMeansQueued(run: seq<Action>)
    ensures var d := Exec(START, run).desk;
      d.sends == map[] ==> d.messages == d.outbox + d.orphans && d.outbox !! d.orphans
  {
    Reachable(run);
    var d := Exec(START, run).desk;
    assert forall n :: AccountedFor(d, n);
    forall n
      ensures d.sends == map[] ==> (n in d.messages <==> n in d.outbox || n in d.orphans)
      ensures !(n in d.outbox && n in d.orphans)
    {
      assert AccountedFor(d, n);
    }
  }
}
