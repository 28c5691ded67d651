/**
 One execution of the build task: the statuses it writes, how long it polls, and what
 its session leaves behind.
 */
module Executor {
  import opened Common
  import opened Lifecycle

  const CHAIN: seq<Status> := [PROVISIONING, BUILDING, TESTING, REVIEW]

  /** The one status from which a transition is valid. */
  function ExpectedFrom(to: Status): Option<Status> {
    match to
    case PROVISIONING => Some(QUEUED)
    case BUILDING => Some(PROVISIONING)
    case TESTING => Some(BUILDING)
    case REVIEW => Some(TESTING)
    case _ => None
  }

  // ---------------------------------------------------------------- polling

  const POLL_INTERVAL := 10.0
  const POLL_TIMEOUT := 1380.0
  const MAX_POLLS := 139

  datatype Answer = Success | Failure | Working | Raises

  datatype Polled = Reported(success: bool) | TimedOut | PollRaised

  function Shorter(x: real, y: real): real {
    if x < y then x else y
  }

  /** The readings of the clock: `clock(0)` when polling starts, `clock(i + 1)` after poll
      `i`. Time does not go back and a sleep lasts at least its argument. */
  ghost predicate Patient(clock: nat -> real) {
    forall i: nat :: SleepLasts(clock, i)
  }

  predicate SleepLasts(clock: nat -> real, i: nat) {
    && clock(i) <= clock(i + 1)
    && (clock(i + 1) < clock(0) + POLL_TIMEOUT ==>
          clock(i + 2) >= clock(i + 1) + Shorter(POLL_INTERVAL, clock(0) + POLL_TIMEOUT - clock(i + 1)))
  }

  /** What ends the polling at poll `i`, if anything does. */
  function EndsAt(answers: nat -> Answer, clock: nat -> real, i: nat): Option<Polled> {
    match answers(i)
    case Success => Some(Reported(true))
    case Failure => Some(Reported(false))
    case Raises => Some(PollRaised)
    case Working => if clock(0) + POLL_TIMEOUT - clock(i + 1) <= 0.0 then Some(TimedOut) else None
  }

  lemma {:induction false} TimePasses(clock: nat -> real, i: nat)
    requires Patient(clock)
    ensures clock(i + 1) >= clock(0) + Shorter(POLL_INTERVAL * i as real, POLL_TIMEOUT)
  {
    assert SleepLasts(clock, i);
    if i == 0 {
    } else {
      TimePasses(clock, i - 1);
      assert SleepLasts(clock, i - 1);
    }
  }

  /** Poll `i` is answered with work in hand, and its answer is read before the 23 minutes are over. */
  predicate StillWorking(answers: nat -> Answer, clock: nat -> real, i: nat) {
    answers(i) == Working && clock(i + 1) < clock(0) + 1380.0
  }

  /** Polls until the job is terminal or the deadline has passed, 23 minutes after the start. */
  method PollUntilDone(answers: nat -> Answer, clock: nat -> real) returns (result: Polled, polls: nat)
    requires Patient(clock)
    ensures 1 <= polls <= MAX_POLLS
    ensures result == Reported(true) <==> answers(polls - 1) == Success
    ensures result == Reported(false) <==> answers(polls - 1) == Failure
    ensures result == PollRaised <==> answers(polls - 1) == Raises
    ensures result == TimedOut ==> answers(polls - 1) == Working && clock(polls) >= clock(0) + 1380.0
    ensures forall i: nat | i < polls - 1 :: StillWorking(answers, clock, i)
    ensures PollsTo(answers, clock, result, polls)
  {
    var deadline := clock(0) + POLL_TIMEOUT;
    polls := 0;
    while true
      invariant polls < MAX_POLLS
      invariant forall i: nat | i < polls :: StillWorking(answers, clock, i)
      invariant forall i: nat | i < polls :: EndsAt(answers, clock, i) == None
      decreases MAX_POLLS - polls
    {
      var answer := answers(polls);
      polls := polls + 1;
      if answer == Raises {
        return PollRaised, polls;
      }
      if answer != Working {
        return Reported(answer == Success), polls;
      }
      var remaining := deadline - clock(polls);
      if remaining <= 0.0 {
        return TimedOut, polls;
      }
      TimePasses(clock, polls - 1);
    }
  }

  ghost predicate PollsTo(answers: nat -> Answer, clock: nat -> real, result: Polled, polls: nat) {
    && polls >= 1 && EndsAt(answers, clock, polls - 1) == Some(result)
    && forall i: nat | i < polls - 1 :: EndsAt(answers, clock, i) == None
  }

  /** Some poll is answered with success, and all before it with work in hand before the
      deadline. */
  ghost predicate SeesSuccess(answers: nat -> Answer, clock: nat -> real) {
    exists i: nat :: SuccessAt(answers, clock, i)
  }

  ghost predicate SuccessAt(answers: nat -> Answer, clock: nat -> real, i: nat) {
    answers(i) == Success && forall j: nat | j < i :: StillWorking(answers, clock, j)
  }

  lemma ReportedIffSeen(answers: nat -> Answer, clock: nat -> real, result: Polled, polls: nat)
    requires PollsTo(answers, clock, result, polls)
    ensures result == Reported(true) <==> SeesSuccess(answers, clock)
  {
    if result == Reported(true) {
      forall j: nat | j < polls - 1 ensures StillWorking(answers, clock, j) {
        assert EndsAt(answers, clock, j) == None;
      }
      assert SuccessAt(answers, clock, polls - 1);
    }
    if i: nat :| SuccessAt(answers, clock, i) {
      assert EndsAt(answers, clock, i) == Some(Reported(true));
      forall j: nat | j < i ensures EndsAt(answers, clock, j) == None {
        assert StillWorking(answers, clock, j);
      }
    }
  }

  /** What the agent says of a job that is terminal from `terminalAt` on, when the answer to a
      poll may be up to `latency` old by the time the clock is read. */
  ghost predicate Reports(answers: nat -> Answer, clock: nat -> real, terminalAt: real, latency: real) {
    forall i: nat :: clock(i + 1) - latency >= terminalAt ==> answers(i) != Working
  }

  /** A job that is terminal a poll's latency before the deadline is never reported as timed
      out: the last poll is made at or after the deadline. */
  lemma TerminalByDeadlineIsSeen(answers: nat -> Answer, clock: nat -> real, terminalAt: real, latency: real,
                                 result: Polled, polls: nat)
    requires PollsTo(answers, clock, result, polls) && Reports(answers, clock, terminalAt, latency)
    requires terminalAt <= clock(0) + POLL_TIMEOUT - latency
    ensures result != TimedOut
  {
    var last: nat := polls - 1;
    assert clock(last + 1) - latency >= terminalAt ==> answers(last) != Working;
  }

  /** And no later time will do: a job that is terminal any later than that may be
      reported as timed out. */
  lemma TerminalLaterMayTimeOut(terminalAt: real, latency: real) returns (answers: nat -> Answer, clock: nat -> real)
    requires terminalAt > POLL_TIMEOUT - latency
    ensures Patient(clock) && clock(0) == 0.0 && Reports(answers, clock, terminalAt, latency)
    ensures PollsTo(answers, clock, TimedOut, MAX_POLLS)
  {
    clock := EveryTenSeconds();
    EveryTenSecondsIsPatient();
    answers := (i: nat) => if clock(i + 1) - latency >= terminalAt then Success else Working;
    assert clock(MAX_POLLS) == POLL_TIMEOUT;
    forall j: nat | j < MAX_POLLS ensures answers(j) == Working && (j < MAX_POLLS - 1 ==> clock(j + 1) < POLL_TIMEOUT) {
      assert clock(j + 1) == 10.0 * j as real;
    }
  }

  /** Polls that take no time, with the longest sleeps. */
  function EveryTenSeconds(): nat -> real {
    (i: nat) => if i == 0 then 0.0 else POLL_INTERVAL * (i - 1) as real
  }

  lemma EveryTenSecondsIsPatient()
    ensures Patient(EveryTenSeconds())
  {
    var clock := EveryTenSeconds();
    forall i: nat ensures SleepLasts(clock, i) {
      assert clock(i + 1) == 10.0 * i as real && clock(i + 2) == 10.0 * (i + 1) as real;
    }
  }

  /** The bound on the polls is reached by a job that never ends. */
  lemma BoundIsReached() returns (answers: nat -> Answer, clock: nat -> real)
    ensures Patient(clock)
    ensures PollsTo(answers, clock, TimedOut, MAX_POLLS)
  {
    answers, clock := TerminalLaterMayTimeOut(POLL_TIMEOUT + 1.0, 0.0);
  }

  // -------------------------------------------------------------- execution

  /** The awaited calls of an execution, each of which may raise. */
  datatype Point =
    | ToProvisioning | TenantRead | BackendRead | GithubContext | StartBuild | ToBuilding
    | ToTesting | ToReview | AuditRecord | ToFailed

  datatype Outcome = Completed | Raised | NotQueued

  predicate PreparationRaises(raises: set<Point>) {
    TenantRead in raises || BackendRead in raises || GithubContext in raises || StartBuild in raises
  }

  /** How many statuses of the chain are written before something raises. */
  function Written(raises: set<Point>, polled: Polled): nat {
    if ToProvisioning in raises then 0
    else if PreparationRaises(raises) || ToBuilding in raises then 1
    else if polled != Reported(true) || ToTesting in raises then 2
    else if ToReview in raises then 3
    else 4
  }

  lemma ChainPrefix(n: nat)
    requires n <= 4
    ensures PROVISIONING in CHAIN[..n] <==> n >= 1
    ensures BUILDING in CHAIN[..n] <==> n >= 2
    ensures TESTING in CHAIN[..n] <==> n >= 3
    ensures REVIEW in CHAIN[..n] <==> n >= 4
    ensures FAILED !in CHAIN[..n]
  {
    var part := CHAIN[..n];
    assert n >= 1 ==> part[0] == PROVISIONING;
    assert n >= 2 ==> part[1] == BUILDING;
    assert n >= 3 ==> part[2] == TESTING;
    assert n >= 4 ==> part[3] == REVIEW;
  }

  lemma CompletesIff(raises: set<Point>, polled: Polled)
    ensures Written(raises, polled) == 4 && AuditRecord !in raises
      <==> raises <= {ToFailed} && polled == Reported(true)
  {
    if Written(raises, polled) == 4 && AuditRecord !in raises {
      forall p | p in raises ensures p in {ToFailed} {
        assert p.ToProvisioning? || p.TenantRead? || p.BackendRead? || p.GithubContext? || p.StartBuild?
            || p.ToBuilding? || p.ToTesting? || p.ToReview? || p.AuditRecord? || p.ToFailed?;
      }
    }
  }

  class BuildTaskExecutor {
    var row: Option<Status>     // the build row as the session sees it
    var written: seq<Status>    // the statuses flushed in this execution

    constructor (row: Option<Status>)
      ensures this.row == row && written == []
    {
      this.row := row;
      written := [];
    }

    method Transition(to: Status, flushRaises: bool) returns (ok: bool)
      requires row.Some?
      modifies this
      ensures ok <==> ExpectedFrom(to) == old(row) && !flushRaises
      ensures ok ==> row == Some(to) && written == old(written) + [to]
      ensures !ok ==> written == old(written) && row.Some?
    {
      if row != ExpectedFrom(to) {
        return false;
      }
      row := Some(to);
      if flushRaises {
        return false;
      }
      written := written + [to];
      ok := true;
    }

    /** Best effort: writes FAILED unless that raises too. */
    method Fail(flushRaises: bool)
      requires row.Some?
      modifies this
      ensures row == Some(FAILED)
      ensures written == old(written) + if flushRaises then [] else [FAILED]
    {
      row := Some(FAILED);
      if !flushRaises {
        written := written + [FAILED];
      }
    }

    /** The body of the `try`: false as soon as something raises. */
    method Pipeline(raises: set<Point>, answers: nat -> Answer, clock: nat -> real)
      returns (ok: bool, ghost polled: Polled, ghost polls: nat)
      requires Patient(clock) && row == Some(QUEUED) && written == []
      modifies this
      ensures row.Some?
      ensures PollsTo(answers, clock, polled, polls)
      ensures written == CHAIN[..Written(raises, polled)]
      ensures ok <==> Written(raises, polled) == 4 && AuditRecord !in raises
      ensures ok ==> row == Some(REVIEW)
    {
      polled, polls := FirstEnd(answers, clock, 0);
      ok := Transition(PROVISIONING, ToProvisioning in raises);
      if !ok {
        return;
      }
      if PreparationRaises(raises) {
        ok := false;
        return;
      }
      ok := Transition(BUILDING, ToBuilding in raises);
      if !ok {
        return;
      }
      var result, n := PollUntilDone(answers, clock);
      if result != Reported(true) {
        ok := false;
        return;
      }
      ok := Transition(TESTING, ToTesting in raises);
      if !ok {
        return;
      }
      ok := Transition(REVIEW, ToReview in raises);
      if !ok {
        return;
      }
      ok := AuditRecord !in raises;
    }

    /** Whatever raises, and whatever the agent answers: the statuses written are a prefix
        of the chain, then FAILED if something raised and FAILED could be written;
        REVIEW is written only after a poll that reported success. */
    method Execute(raises: set<Point>, answers: nat -> Answer, clock: nat -> real)
      returns (outcome: Outcome, ghost polled: Polled, ghost polls: nat)
      requires Patient(clock) && written == []
      modifies this
      ensures old(row) != Some(QUEUED) ==> outcome == NotQueued && written == [] && row == old(row)
      ensures old(row) == Some(QUEUED) ==>
        && PollsTo(answers, clock, polled, polls)
        && written == CHAIN[..Written(raises, polled)]
             + (if outcome == Raised && ToFailed !in raises then [FAILED] else [])
        && (outcome == Completed <==> Written(raises, polled) == 4 && AuditRecord !in raises)
        && outcome != NotQueued
        && (outcome == Completed ==> row == Some(REVIEW))
        && (outcome == Completed <==> raises <= {ToFailed} && SeesSuccess(answers, clock))
        && (PROVISIONING in written <==> ToProvisioning !in raises)
        && (BUILDING in written <==>
              raises !! {ToProvisioning, TenantRead, BackendRead, GithubContext, StartBuild, ToBuilding})
        && (TESTING in written <==> BUILDING in written && SeesSuccess(answers, clock) && ToTesting !in raises)
        && (REVIEW in written <==> TESTING in written && ToReview !in raises)
        && (FAILED in written <==> outcome == Raised && ToFailed !in raises)
    {
      if row != Some(QUEUED) {
        polled, polls := TimedOut, 0;
        return NotQueued, polled, polls;
      }
      var ok;
      ok, polled, polls := Pipeline(raises, answers, clock);
      ReportedIffSeen(answers, clock, polled, polls);
      ghost var n := Written(raises, polled);
      ChainPrefix(n);
      CompletesIff(raises, polled);
      if ok {
        outcome := Completed;
      } else {
        Fail(ToFailed in raises);
        outcome := Raised;
      }
    }
  }

  /** The worker's session around an execution: it commits what a completed execution wrote
      and rolls everything back when the execution raises, FAILED included. In the
      world of builds this is one `Attempt`. */
  method ExecuteInSession(ghost w: World, ghost b: string, status: Option<Status>,
                          raises: set<Point>, answers: nat -> Answer, clock: nat -> real)
    returns (committed: Option<Status>, outcome: Outcome)
    requires Patient(clock)
    requires if Visible(w, b) then status == Some(w.builds[b].status) else status == None
    ensures outcome != Completed ==> committed == status
    ensures outcome == Completed ==> status == Some(QUEUED) && committed == Some(REVIEW)
    ensures var w' := Next(w, Attempt(b, outcome == Completed));
      committed == if Visible(w, b) then Some(w'.builds[b].status) else None
  {
    var executor := new BuildTaskExecutor(status);
    ghost var polled, polls;
    outcome, polled, polls := executor.Execute(raises, answers, clock);
    committed := if outcome == Completed then executor.row else status;
  }

  /** The first poll, from poll `i` on, that ends the polling. */
  lemma FirstEnd(answers: nat -> Answer, clock: nat -> real, i: nat) returns (result: Polled, polls: nat)
    requires Patient(clock) && i < MAX_POLLS
    requires forall j: nat | j < i :: EndsAt(answers, clock, j) == None
    ensures PollsTo(answers, clock, result, polls)
    decreases MAX_POLLS - i
  {
    TimePasses(clock, i);
    if EndsAt(answers, clock, i).Some? {
      result, polls := EndsAt(answers, clock, i).value, i + 1;
    } else {
      result, polls := FirstEnd(answers, clock, i + 1);
    }
  }
}
