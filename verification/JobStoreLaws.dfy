/** Capacity, slots and cache of the job store, over every interleaving. */
module JobStoreLaws {
  import opened Common
  import opened JobStore

  predicate HoldsSlot(p: Phase) {
    p.Starting? || p.Created? || p.Abandoned? || p.Executing? || p.SavingFailure?
  }

  function Holders(s: State): set<JobId> {
    set j | j in s.jobs && HoldsSlot(s.jobs[j])
  }

  // ---------------------------------------------------------------- capacity

  ghost predicate Slots(s: State) {
    && s.max >= 1
    && s.active == |Holders(s)|
    && s.active <= s.max
    && (forall j :: s.released[j] == if j in s.jobs && !HoldsSlot(s.jobs[j]) then 1 else 0)
  }

  lemma PhaseKeepsSlot(s: State, s': State, j: JobId, p: Phase)
    requires Slots(s) && s'.max == s.max && s'.jobs == s.jobs[j := p] && HoldsSlot(p) && s'.released == s.released
    requires if j in s.jobs then HoldsSlot(s.jobs[j]) && s'.active == s.active
             else s.active < s.max && s'.active == s.active + 1
    ensures Slots(s')
  {
    assert Holders(s') == Holders(s) + {j};
  }

  lemma PhaseReleasesSlot(s: State, s': State, j: JobId, p: Phase)
    requires Slots(s) && s'.max == s.max && s'.jobs == s.jobs[j := p] && !HoldsSlot(p)
    requires j in s.jobs && HoldsSlot(s.jobs[j])
    requires s'.active == s.active - 1 && s'.released == s.released + multiset{j}
    ensures Slots(s')
  {
    assert Holders(s') == Holders(s) - {j};
  }

  lemma SamePhases(s: State, s': State)
    requires Slots(s) && s'.max == s.max && s'.active == s.active && s'.released == s.released
    requires s'.jobs.Keys == s.jobs.Keys
    requires forall j | j in s.jobs :: HoldsSlot(s'.jobs[j]) == HoldsSlot(s.jobs[j])
    ensures Slots(s')
  {
    assert Holders(s') == Holders(s);
  }

  lemma StepSlotsQuiet(s: State, e: Event)
    requires Slots(s) && Enabled(s, e)
    requires e.StartSaved? || e.StartCancelled? || e.Begin? || e.CutBeforeBegin? || e.Raise?
    ensures Slots(Next(s, e))
  {
    PhaseKeepsSlot(s, Next(s, e), e.job, Next(s, e).jobs[e.job]);
  }

  lemma StepSlotsRelease(s: State, e: Event)
    requires Slots(s) && Enabled(s, e) && (e.Return? || e.Abort? || e.Saved?)
    ensures Slots(Next(s, e))
  {
    var s' := Next(s, e);
    if e.Saved? && s.jobs[e.job].SavingOutcome? {
      SamePhases(s, s');
    } else {
      PhaseReleasesSlot(s, s', e.job, s'.jobs[e.job]);
    }
  }

  lemma StepSlots(s: State, e: Event)
    requires Slots(s) && Enabled(s, e)
    ensures Slots(Next(s, e))
  {
    if e.Return? || e.Abort? || e.Saved? {
      StepSlotsRelease(s, e);
    } else if e.Start? {
      if s.active < s.max {
        PhaseKeepsSlot(s, Next(s, e), e.job, Starting);
      }
    } else if e.Restart? {
      assert Holders(Next(s, e)) == {};
    } else if e.StartSaved? || e.StartCancelled? || e.Begin? || e.CutBeforeBegin? || e.Raise? {
      StepSlotsQuiet(s, e);
    } else {
      SamePhases(s, Next(s, e));
    }
  }

  lemma {:induction false} RunSlots(s: State, es: seq<Event>)
    requires Slots(s) && Possible(s, es)
    ensures Slots(Run(s, es))
    decreases es
  {
    if es == [] {
    } else {
      StepSlots(s, es[0]);
      RunSlots(Next(s, es[0]), es[1..]);
    }
  }

  /** In every interleaving `_active` counts the accepted jobs that have not given their
      slot back, never exceeds the cap, and no slot is given back twice. */
  lemma CapacityHolds(maxConcurrent: int, es: seq<Event>)
    requires Possible(Boot(maxConcurrent), es)
    ensures var s := Run(Boot(maxConcurrent), es);
      && 0 <= s.active == |Holders(s)| <= Max(1, maxConcurrent)
      && (forall j | j in s.jobs :: s.released[j] == if HoldsSlot(s.jobs[j]) then 0 else 1)
      && (forall j | j !in s.jobs :: s.released[j] == 0)
  {
    RunSlots(Boot(maxConcurrent), es);
    RunKeepsMax(Boot(maxConcurrent), es);
  }

  lemma {:induction false} RunKeepsMax(s: State, es: seq<Event>)
    requires Possible(s, es)
    ensures Run(s, es).max == s.max
    decreases es
  {
    if es == [] {
    } else {
      RunKeepsMax(Next(s, es[0]), es[1..]);
    }
  }

  function AbandonedJobs(s: State): set<JobId> {
    set j | j in s.jobs && s.jobs[j] == Abandoned
  }

  /** The two ways to lose a slot: the cancellation of a `start` in its save, and of a run
      before its first step. */
  predicate Cuts(e: Event) {
    e.StartCancelled? || e.CutBeforeBegin?
  }

  /** What an event adds to, or clears from, the jobs that were cut off. */
  function CutStep(cut: set<JobId>, e: Event): set<JobId> {
    match e
    case StartCancelled(j, _) => cut + {j}
    case CutBeforeBegin(j) => cut + {j}
    case Restart => {}
    case _ => cut
  }

  lemma AbandonedStep(s: State, e: Event)
    requires Enabled(s, e)
    ensures AbandonedJobs(Next(s, e)) == CutStep(AbandonedJobs(s), e)
  {
  }

  /** The jobs that were cut off since the last restart. */
  function CutSinceRestart(es: seq<Event>, cut: set<JobId>): set<JobId>
    decreases es
  {
    if es == [] then cut else CutSinceRestart(es[1..], CutStep(cut, es[0]))
  }

  lemma {:induction false} RunAbandons(s: State, es: seq<Event>)
    requires Possible(s, es)
    ensures AbandonedJobs(Run(s, es)) == CutSinceRestart(es, AbandonedJobs(s))
    decreases es
  {
    if es == [] {
    } else {
      AbandonedStep(s, es[0]);
      RunAbandons(Next(s, es[0]), es[1..]);
    }
  }

  predicate RestartAfter(es: seq<Event>, i: nat) {
    exists k :: i < k < |es| && es[k].Restart?
  }

  /** Every cut is followed by a restart. */
  ghost predicate AllRestarted(es: seq<Event>) {
    forall i | 0 <= i < |es| && Cuts(es[i]) :: RestartAfter(es, i)
  }

  predicate HasRestart(es: seq<Event>) {
    exists k :: 0 <= k < |es| && es[k].Restart?
  }

  lemma {:induction false} NoneCutIff(es: seq<Event>, cut: set<JobId>)
    ensures CutSinceRestart(es, cut) == {} <==> AllRestarted(es) && (cut == {} || HasRestart(es))
    decreases es
  {
    if es == [] {
    } else {
      NoneCutIff(es[1..], CutStep(cut, es[0]));
      assert Cuts(es[0]) ==> es[0].job in CutStep(cut, es[0]);
    }
  }

  /** Every coroutine has ended, or was cut off before it began. */
  predicate Drained(s: State) {
    forall j | j in s.jobs :: s.jobs[j] in {Ended, Abandoned}
  }

  lemma DrainedCount(s: State, cut: set<JobId>)
    requires Slots(s) && Drained(s) && AbandonedJobs(s) == cut
    ensures s.active == |cut| && (s.active == 0 <==> cut == {})
  {
    assert Holders(s) == AbandonedJobs(s);
  }

  lemma BootLaws(maxConcurrent: int, es: seq<Event>)
    requires Possible(Boot(maxConcurrent), es)
    ensures Slots(Run(Boot(maxConcurrent), es))
    ensures AbandonedJobs(Run(Boot(maxConcurrent), es)) == CutSinceRestart(es, {})
  {
    RunSlots(Boot(maxConcurrent), es);
    RunAbandons(Boot(maxConcurrent), es);
    assert AbandonedJobs(Boot(maxConcurrent)) == {};
  }

  /** When every coroutine has ended, the counter is the number of jobs cut off since the
      last restart: zero if and only if there was none. */
  lemma DrainsToAbandoned(maxConcurrent: int, es: seq<Event>)
    requires Possible(Boot(maxConcurrent), es) && Drained(Run(Boot(maxConcurrent), es))
    ensures var s := Run(Boot(maxConcurrent), es);
      && s.active == |CutSinceRestart(es, {})|
      && AbandonedJobs(s) == CutSinceRestart(es, {})
    ensures Run(Boot(maxConcurrent), es).active == 0
      <==> forall i | 0 <= i < |es| && Cuts(es[i]) :: RestartAfter(es, i)
  {
    BootLaws(maxConcurrent, es);
    DrainedCount(Run(Boot(maxConcurrent), es), CutSinceRestart(es, {}));
    NoneCutIff(es, {});
  }

  predicate WithoutRestart(es: seq<Event>) {
    forall e | e in es :: !e.Restart?
  }

  /** A slot lost that way is not given back while the process lives. */
  lemma {:induction false} CutSlotsStay(s: State, es: seq<Event>, j: JobId)
    requires Slots(s) && Possible(s, es) && WithoutRestart(es) && j in AbandonedJobs(s)
    ensures j in AbandonedJobs(Run(s, es)) && Run(s, es).active >= 1
    decreases es
  {
    if es == [] {
      assert j in Holders(s);
    } else {
      StepSlots(s, es[0]);
      AbandonedStep(s, es[0]);
      CutSlotsStay(Next(s, es[0]), es[1..], j);
    }
  }

  lemma RunOne(s: State, e: Event, es: seq<Event>)
    requires Enabled(s, e) && Possible(Next(s, e), es)
    ensures Possible(s, [e] + es) && Run(s, [e] + es) == Run(Next(s, e), es)
  {
    assert ([e] + es)[1..] == es;
  }

  /** A run with each kind of cut, on a store with one slot: nothing is left to run and no
      job is accepted. */
  lemma CutFillsStore(j: JobId, k: JobId, written: bool, created: bool) returns (es: seq<Event>)
    requires j != k
    ensures es == if created then [Start(j), StartSaved(j, written), CutBeforeBegin(j)]
                  else [Start(j), StartCancelled(j, written)]
    ensures Possible(Boot(1), es)
    ensures var s := Run(Boot(1), es);
      && s.active == 1 && s.jobs == map[j := Abandoned]
      && Enabled(s, Start(k)) && Next(s, Start(k)) == s
  {
    var s1 := Next(Boot(1), Start(j));
    var first := if created then StartSaved(j, written) else StartCancelled(j, written);
    var s2 := Next(s1, first);
    var last := if created then [CutBeforeBegin(j)] else [];
    if created {
      RunOne(s2, CutBeforeBegin(j), []);
      assert [CutBeforeBegin(j)] + [] == last;
    }
    RunOne(s1, first, last);
    RunOne(Boot(1), Start(j), [first] + last);
    es := [Start(j)] + ([first] + last);
    assert Run(s2, last).jobs == map[j := Abandoned];
  }

  // ------------------------------------------------------------------- cache

  ghost predicate ReadersServed(s: State) {
    forall r | r in s.readers ::
      var (j, read) := s.readers[r];
      && j !in s.jobs
      && (read.Got? && read.report.Some? ==> j in s.base && s.base[j] == read.report.value)
  }

  /** The report that an accepted job's phase implies in memory. */
  predicate MemOf(p: Phase, report: Report) {
    match p
    case SavingFailure(r) => report == r && r.status != RUNNING
    case SavingOutcome(r) => report == r && r.status != RUNNING
    case Ended => true
    case _ => report == STARTED
  }

  predicate Had(s: State, j: JobId, report: Report) {
    j in s.past && report in s.past[j]
  }

  /** What holds of the copies of one job's status. */
  predicate Cached(s: State, j: JobId) {
    && (if j in s.jobs then
          && j in s.mem && MemOf(s.jobs[j], s.mem[j])
          && j !in s.base
          && (j in s.redis ==> s.redis[j] == STARTED || (s.redis[j] == s.mem[j] && s.jobs[j] == Ended))
          && (s.jobs[j] == Starting ==> j !in s.redis)
          && Had(s, j, STARTED)
        else
          && (j in s.mem ==> j in s.base && s.mem[j] == s.base[j])
          && (j in s.redis ==> j in s.base && s.redis[j] == s.base[j]))
    && (j in s.mem ==> Had(s, j, s.mem[j]))
    && (j in s.redis ==> Had(s, j, s.redis[j]))
    && (j in s.base ==> Had(s, j, s.base[j]))
  }

  ghost predicate Cache(s: State) {
    ReadersServed(s) && forall j :: Cached(s, j)
  }

  lemma OtherStepCached(s: State, e: Event, j: JobId)
    requires Cached(s, j) && ReadersServed(s) && Enabled(s, e)
    requires e.GetMiss? || e.GetRead? || e.GetReturn? || e.Expire? || e.Restart?
    ensures Cached(Next(s, e), j)
  {
  }

  lemma StepReaders(s: State, e: Event)
    requires Cache(s) && Enabled(s, e)
    ensures ReadersServed(Next(s, e))
  {
    if e.GetMiss? {
      assert Cached(s, e.job);
    } else if e.GetRead? {
      assert Cached(s, s.readers[e.reader].0);
    }
  }

  lemma StepCache(s: State, e: Event)
    requires Cache(s) && Enabled(s, e)
    ensures Cache(Next(s, e))
  {
    StepReaders(s, e);
    forall j ensures Cached(Next(s, e), j) {
      assert Cached(s, j);
      if e.GetMiss? || e.GetRead? || e.GetReturn? || e.Expire? || e.Restart? {
        OtherStepCached(s, e, j);
      }
    }
  }

  lemma {:induction false} RunCache(s: State, es: seq<Event>)
    requires Cache(s) && Possible(s, es)
    ensures Cache(Run(s, es))
    decreases es
  {
    if es == [] {
    } else {
      StepCache(s, es[0]);
      RunCache(Next(s, es[0]), es[1..]);
    }
  }

  lemma BootCache(maxConcurrent: int)
    ensures Cache(Boot(maxConcurrent))
  {
  }

  /** Whatever writes fail, are cut off by a restart or expire: a `get` that answers at
      all answers a report that the job once had. */
  lemma AnswersAreFromThePast(maxConcurrent: int, es: seq<Event>, j: JobId)
    requires Possible(Boot(maxConcurrent), es)
    ensures var s := Run(Boot(maxConcurrent), es);
      Answer(s, j).Some? ==> Had(s, j, Answer(s, j).value)
  {
    BootCache(maxConcurrent);
    RunCache(Boot(maxConcurrent), es);
    assert Cached(Run(Boot(maxConcurrent), es), j);
  }

  /** And the same holds of what a suspended `get` is about to return. */
  lemma ReadersAnswerFromThePast(maxConcurrent: int, es: seq<Event>, r: Reader)
    requires Possible(Boot(maxConcurrent), es) && r in Run(Boot(maxConcurrent), es).readers
    ensures var s := Run(Boot(maxConcurrent), es);
      var (j, read) := s.readers[r];
      read.Got? && read.report.Some? ==> Had(s, j, read.report.value)
  {
    BootCache(maxConcurrent);
    RunCache(Boot(maxConcurrent), es);
    var s := Run(Boot(maxConcurrent), es);
    assert Cached(s, s.readers[r].0);
  }

  predicate Terminal(report: Report) {
    report.status != RUNNING
  }

  /** Within a process a terminal status is final, in memory and, until it expires, in
      Redis: the save of RUNNING is over before the job runs. */
  lemma TerminalIsFinal(s: State, e: Event, j: JobId)
    requires Cache(s) && Enabled(s, e)
    ensures !e.Restart? && j in s.mem && Terminal(s.mem[j]) ==> j in Next(s, e).mem && Next(s, e).mem[j] == s.mem[j]
    ensures j in s.redis && Terminal(s.redis[j]) ==> j !in Next(s, e).redis || Next(s, e).redis[j] == s.redis[j]
  {
    assert Cached(s, j);
    if e.GetReturn? {
      assert Cached(s, s.readers[e.reader].0);
    }
  }

  lemma {:induction false} TerminalForRun(s: State, es: seq<Event>, j: JobId)
    requires Cache(s) && Possible(s, es) && WithoutRestart(es)
    requires j in s.mem && Terminal(s.mem[j])
    ensures j in Run(s, es).mem && Run(s, es).mem[j] == s.mem[j]
    decreases es
  {
    if es == [] {
    } else {
      TerminalIsFinal(s, es[0], j);
      StepCache(s, es[0]);
      TerminalForRun(Next(s, es[0]), es[1..], j);
    }
  }

  /** In every run a status that has become terminal stays what it is for as long as the
      process lives, whatever comes next. */
  lemma TerminalStays(maxConcurrent: int, before: seq<Event>, after: seq<Event>, j: JobId)
    requires Possible(Boot(maxConcurrent), before)
    requires var s := Run(Boot(maxConcurrent), before);
      Possible(s, after) && WithoutRestart(after) && j in s.mem && Terminal(s.mem[j])
    ensures var s := Run(Boot(maxConcurrent), before);
      Answer(Run(s, after), j) == Some(s.mem[j])
  {
    BootCache(maxConcurrent);
    RunCache(Boot(maxConcurrent), before);
    TerminalForRun(Run(Boot(maxConcurrent), before), after, j);
  }

  // -------------------------------------------------------------- durability

  /** A run in which Redis loses nothing, and no save is cut off by a restart. */
  predicate Lossless(s: State, es: seq<Event>)
    requires Possible(s, es)
    decreases es
  {
    es == [] || (LosesNothing(s, es[0]) && Lossless(Next(s, es[0]), es[1..]))
  }

  predicate LosesNothing(s: State, e: Event) {
    match e
    case StartSaved(_, written) => written
    case StartCancelled(_, written) => written
    case Saved(_, written) => written
    case Expire(_) => false
    case Restart => forall j | j in s.jobs :: !Saving(s.jobs[j])
    case _ => true
  }

  predicate Saving(p: Phase) {
    p.Starting? || p.SavingFailure? || p.SavingOutcome?
  }

  /** Redis has what memory has, but for the saves in flight. */
  predicate Durable(s: State, j: JobId) {
    && (j in s.mem && (j in s.jobs ==> !Saving(s.jobs[j])) ==> j in s.redis && s.redis[j] == s.mem[j])
    && (j !in s.jobs && j in s.base ==> j in s.redis)
  }

  lemma StepDurable(s: State, e: Event, j: JobId)
    requires Enabled(s, e) && LosesNothing(s, e) && Cache(s) && Durable(s, j)
    ensures Durable(Next(s, e), j)
  {
    assert Cached(s, j);
  }

  lemma {:induction false} RunDurable(s: State, es: seq<Event>, j: JobId)
    requires Possible(s, es) && Lossless(s, es) && Cache(s) && Durable(s, j)
    ensures Durable(Run(s, es), j)
    decreases es
  {
    if es == [] {
    } else {
      StepDurable(s, es[0], j);
      StepCache(s, es[0]);
      RunDurable(Next(s, es[0]), es[1..], j);
    }
  }

  /** When Redis loses nothing, a restart between saves changes no answer. */
  lemma RestartKeepsAnswers(maxConcurrent: int, es: seq<Event>, j: JobId)
    requires Possible(Boot(maxConcurrent), es) && Lossless(Boot(maxConcurrent), es)
    requires var s := Run(Boot(maxConcurrent), es); j in s.jobs ==> !Saving(s.jobs[j])
    ensures var s := Run(Boot(maxConcurrent), es);
      Answer(Next(s, Restart), j) == Answer(s, j)
  {
    BootCache(maxConcurrent);
    RunDurable(Boot(maxConcurrent), es, j);
  }

  // ---------------------------------------------------------------- outcomes

  /** Some event gave the job this report: the runner's return or failure, or the start. */
  predicate Told(es: seq<Event>, j: JobId, report: Report) {
    match report
    case Report(RUNNING, url, error) => Start(j) in es && url == None && error == None
    case Report(SUCCESS, url, error) => Return(j, true, url, error) in es
    case Report(FAILED, url, error) =>
      Return(j, false, url, error) in es || (url == None && error.Some? && Raise(j, error.value) in es)
  }

  lemma StepHad(s: State, e: Event, j: JobId, report: Report)
    requires Enabled(s, e) && Had(Next(s, e), j, report)
    ensures Had(s, j, report) || Told([e], j, report)
  {
  }

  lemma {:induction false} RunHad(s: State, es: seq<Event>, j: JobId, report: Report)
    requires Possible(s, es) && Had(Run(s, es), j, report)
    ensures Had(s, j, report) || Told(es, j, report)
    decreases es
  {
    if es == [] {
    } else {
      RunHad(Next(s, es[0]), es[1..], j, report);
      if Had(Next(s, es[0]), j, report) {
        StepHad(s, es[0], j, report);
      }
      assert es == [es[0]] + es[1..];
    }
  }

  /** Over every run: what a `get` answers was told to the store earlier in the run, a
      success by a runner that succeeded, with its URL and its error, and a failure by one
      that failed or raised. */
  lemma AnswersWereTold(maxConcurrent: int, es: seq<Event>, j: JobId)
    requires Possible(Boot(maxConcurrent), es)
    ensures var s := Run(Boot(maxConcurrent), es);
      Answer(s, j).Some? ==> Told(es, j, Answer(s, j).value)
  {
    AnswersAreFromThePast(maxConcurrent, es, j);
    var s := Run(Boot(maxConcurrent), es);
    if Answer(s, j).Some? {
      RunHad(Boot(maxConcurrent), es, j, Answer(s, j).value);
    }
  }

  /** The same holds of what a suspended `get` is about to answer. */
  lemma ReadersWereTold(maxConcurrent: int, es: seq<Event>, r: Reader)
    requires Possible(Boot(maxConcurrent), es) && r in Run(Boot(maxConcurrent), es).readers
    ensures var (j, read) := Run(Boot(maxConcurrent), es).readers[r];
      read.Got? && read.report.Some? ==> Told(es, j, read.report.value)
  {
    ReadersAnswerFromThePast(maxConcurrent, es, r);
    var (j, read) := Run(Boot(maxConcurrent), es).readers[r];
    if read.Got? && read.report.Some? {
      RunHad(Boot(maxConcurrent), es, j, read.report.value);
    }
  }

  /** Conversely, from the moment the runner returns its verdict, URL and error are the
      answer for as long as the process lives. */
  lemma ReturnIsAnswered(maxConcurrent: int, before: seq<Event>, after: seq<Event>,
                         j: JobId, success: bool, url: Option<string>, error: Option<string>)
    requires Possible(Boot(maxConcurrent), before)
    requires var s := Run(Boot(maxConcurrent), before);
      && Enabled(s, Return(j, success, url, error))
      && Possible(Next(s, Return(j, success, url, error)), after) && WithoutRestart(after)
    ensures var s := Run(Boot(maxConcurrent), before);
      var answer := Answer(Run(Next(s, Return(j, success, url, error)), after), j);
      && answer.Some? && answer.value.previewUrl == url && answer.value.error == error
      && (answer.value.status == SUCCESS <==> success) && (answer.value.status == FAILED <==> !success)
  {
    BootCache(maxConcurrent);
    RunCache(Boot(maxConcurrent), before);
    var s := Run(Boot(maxConcurrent), before);
    StepCache(s, Return(j, success, url, error));
    TerminalForRun(Next(s, Return(j, success, url, error)), after, j);
  }

  /** And from the moment it raises, the failure with its message. */
  lemma RaiseIsAnswered(maxConcurrent: int, before: seq<Event>, after: seq<Event>, j: JobId, message: string)
    requires Possible(Boot(maxConcurrent), before)
    requires var s := Run(Boot(maxConcurrent), before);
      && Enabled(s, Raise(j, message))
      && Possible(Next(s, Raise(j, message)), after) && WithoutRestart(after)
    ensures var s := Run(Boot(maxConcurrent), before);
      Answer(Run(Next(s, Raise(j, message)), after), j) == Some(Report(FAILED, None, Some(message)))
  {
    BootCache(maxConcurrent);
    RunCache(Boot(maxConcurrent), before);
    var s := Run(Boot(maxConcurrent), before);
    StepCache(s, Raise(j, message));
    TerminalForRun(Next(s, Raise(j, message)), after, j);
  }

  /** No other event changes what is answered for a job: only its own start, return and
      failure, an expiry, a restart, or a reader that warms the memory with it. */
  lemma OtherEventsKeepAnswers(s: State, e: Event, j: JobId)
    requires Cache(s) && Enabled(s, e) && !e.Restart? && e != Expire(j)
    requires e.Start? || e.Return? || e.Raise? ==> e.job != j
    requires e.GetReturn? ==> s.readers[e.reader].0 != j
    ensures Answer(Next(s, e), j) == Answer(s, j)
  {
    assert Cached(s, j);
  }

  predicate Saves(e: Event) {
    e.StartSaved? || e.StartCancelled? || e.Saved?
  }

  /** A save that reaches Redis writes what memory holds of the job; a lost one changes
      nothing. */
  lemma SavesWriteMemory(s: State, e: Event)
    requires Enabled(s, e) && Saves(e) && Cached(s, e.job)
    ensures e.job in s.mem
    ensures Next(s, e).redis == if e.written then s.redis[e.job := s.mem[e.job]] else s.redis
  {
    assert MemOf(s.jobs[e.job], s.mem[e.job]);
  }

  /** Nothing else changes Redis, but an expiry. */
  lemma OnlySavesWrite(s: State, e: Event)
    requires Enabled(s, e) && !Saves(e)
    ensures Next(s, e).redis == if e.Expire? then s.redis - {e.job} else s.redis
  {
  }

  /** In every run a start is refused, and then changes nothing, exactly when as many jobs
      hold a slot as the configuration allows, one at least; an accepted job holds a slot
      and is answered as running. */
  lemma StartsUpToTheCap(maxConcurrent: int, es: seq<Event>, j: JobId)
    requires Possible(Boot(maxConcurrent), es) && Enabled(Run(Boot(maxConcurrent), es), Start(j))
    ensures var s := Run(Boot(maxConcurrent), es);
      var s' := Next(s, Start(j));
      if |Holders(s)| >= maxConcurrent && |Holders(s)| >= 1 then s' == s
      else Holders(s') == Holders(s) + {j} && Answer(s', j) == Some(Report(RUNNING, None, None))
  {
    RunSlots(Boot(maxConcurrent), es);
    RunKeepsMax(Boot(maxConcurrent), es);
  }

  /** A slot is given back when the runner returns or is cancelled, and after its failure
      only once the failure is saved. */
  lemma SlotsAreReleased(s: State, e: Event)
    requires Enabled(s, e) && (e.Return? || e.Abort? || e.Saved?)
    ensures Holders(Next(s, e)) == Holders(s) - {e.job}
    ensures e.job in Holders(s) <==> !(e.Saved? && s.jobs[e.job].SavingOutcome?)
    ensures e.Saved? || e.Abort? ==> Next(s, e).jobs[e.job] == Ended
  {
    var s' := Next(s, e);
    var phase := s'.jobs[e.job];
    assert s'.jobs == s.jobs[e.job := phase] && !HoldsSlot(phase);
  }

  lemma FailureHoldsSlot(s: State, j: JobId, message: string)
    requires Enabled(s, Raise(j, message))
    ensures j in Holders(s) && Holders(Next(s, Raise(j, message))) == Holders(s)
  {
    assert HoldsSlot(Next(s, Raise(j, message)).jobs[j]);
  }

  /** A `get` past a memory miss, when nothing else runs in between, answers what Redis
      holds if it works, keeps it in memory, and is done. */
  lemma GetAnswers(s: State, r: Reader, j: JobId, works: bool)
    requires r !in s.readers && j !in s.mem
    ensures Possible(s, [GetMiss(r, j), GetRead(r, works), GetReturn(r)])
    ensures var read := Run(s, [GetMiss(r, j), GetRead(r, works)]);
      r in read.readers && read.readers[r] == (j, Got(if works && j in s.redis then Some(s.redis[j]) else None))
    ensures var s' := Run(s, [GetMiss(r, j), GetRead(r, works), GetReturn(r)]);
      s' == s.(mem := if works && j in s.redis then s.mem[j := s.redis[j]] else s.mem)
  {
    var s1 := Next(s, GetMiss(r, j));
    var s2 := Next(s1, GetRead(r, works));
    RunTwo(s, GetMiss(r, j), GetRead(r, works));
    RunThree(s, GetMiss(r, j), GetRead(r, works), GetReturn(r));
    assert s2.readers - {r} == s.readers;
  }

  lemma RunTwo(s: State, e: Event, f: Event)
    requires Enabled(s, e) && Enabled(Next(s, e), f)
    ensures Possible(s, [e, f]) && Run(s, [e, f]) == Next(Next(s, e), f)
  {
    RunOne(Next(s, e), f, []);
    RunOne(s, e, [f]);
    assert [f] + [] == [f] && [e] + [f] == [e, f];
  }

  lemma RunThree(s: State, e: Event, f: Event, g: Event)
    requires Enabled(s, e) && Enabled(Next(s, e), f) && Enabled(Next(Next(s, e), f), g)
    ensures Possible(s, [e, f, g]) && Run(s, [e, f, g]) == Next(Next(Next(s, e), f), g)
  {
    RunTwo(Next(s, e), f, g);
    RunOne(s, e, [f, g]);
    assert [e] + [f, g] == [e, f, g];
  }
}
