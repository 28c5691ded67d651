/**
 The agent's job store: a concurrency cap and a two-level cache, under every
 interleaving of its coroutines.

 Coroutines switch only where they await, so each stretch between two awaits is one
 `Event`. A Redis write may be lost, an entry may expire, and a restart
 wipes the process but not Redis.
 */
module JobStore {
  import opened Common

  type JobId = string
  type Reader = nat

  datatype JobStatus = RUNNING | SUCCESS | FAILED

  datatype Report = Report(status: JobStatus, previewUrl: Option<string>, error: Option<string>)

  const STARTED := Report(RUNNING, None, None)

  /** Where the coroutine of an accepted job is. */
  datatype Phase =
    | Starting                        // `start` awaits the save of RUNNING
    | Created                         // the run is made but has not begun
    | Abandoned                       // cut off before its `try`: its `finally` will not run
    | Executing                       // the job awaits the runner
    | SavingFailure(report: Report)   // the runner raised; the slot is still held
    | SavingOutcome(report: Report)   // the runner returned; the slot is released
    | Ended

  datatype Read = Waiting | Got(report: Option<Report>)

  datatype State = State(
    max: nat,
    active: int,
    mem: map<JobId, Report>,
    redis: map<JobId, Report>,
    jobs: map<JobId, Phase>,                 // the jobs accepted by this process
    readers: map<Reader, (JobId, Read)>,     // `get` calls past their memory miss
    released: multiset<JobId>,               // one entry for each `_active -= 1`
    base: map<JobId, Report>,                // what Redis held when the process began
    past: map<JobId, set<Report>>)           // every report a job ever had

  datatype Event =
    | Start(job: JobId)
    | StartSaved(job: JobId, written: bool)
    | StartCancelled(job: JobId, written: bool)  // `start` is cancelled in its save
    | Begin(job: JobId)
    | CutBeforeBegin(job: JobId)             // the run is cancelled before its first step
    | Return(job: JobId, success: bool, previewUrl: Option<string>, error: Option<string>)
    | Raise(job: JobId, message: string)
    | Abort(job: JobId)                      // cancelled while the runner works
    | Saved(job: JobId, written: bool)
    | GetMiss(reader: Reader, job: JobId)
    | GetRead(reader: Reader, works: bool)
    | GetReturn(reader: Reader)
    | Expire(job: JobId)
    | Restart

  /** A new job id is one that nobody has used or asked for. */
  predicate FreshId(s: State, j: JobId) {
    && j !in s.jobs && j !in s.mem && j !in s.redis && j !in s.base && j !in s.past
    && forall r | r in s.readers :: s.readers[r].0 != j
  }

  predicate Enabled(s: State, e: Event) {
    match e
    case Start(j) => FreshId(s, j)
    case StartSaved(j, _) => j in s.jobs && s.jobs[j] == Starting
    case StartCancelled(j, _) => j in s.jobs && s.jobs[j] == Starting
    case Begin(j) => j in s.jobs && s.jobs[j] == Created
    case CutBeforeBegin(j) => j in s.jobs && s.jobs[j] == Created
    case Return(j, _, _, _) => j in s.jobs && s.jobs[j] == Executing
    case Raise(j, _) => j in s.jobs && s.jobs[j] == Executing
    case Abort(j) => j in s.jobs && s.jobs[j] == Executing
    case Saved(j, _) => j in s.jobs && (s.jobs[j].SavingFailure? || s.jobs[j].SavingOutcome?)
    case GetMiss(r, j) => r !in s.readers && j !in s.mem
    case GetRead(r, _) => r in s.readers && s.readers[r].1 == Waiting
    case GetReturn(r) => r in s.readers && s.readers[r].1.Got?
    case Expire(_) => true
    case Restart => true
  }

  function Written(redis: map<JobId, Report>, j: JobId, report: Report, written: bool): map<JobId, Report> {
    if written then redis[j := report] else redis
  }

  function Noted(past: map<JobId, set<Report>>, j: JobId, report: Report): map<JobId, set<Report>> {
    past[j := (if j in past then past[j] else {}) + {report}]
  }

  function Next(s: State, e: Event): State
    requires Enabled(s, e)
  {
    match e
    case Start(j) =>
      if s.active >= s.max then s
      else s.(active := s.active + 1, mem := s.mem[j := STARTED], jobs := s.jobs[j := Starting],
              past := Noted(s.past, j, STARTED))
    case StartSaved(j, written) =>
      s.(jobs := s.jobs[j := Created], redis := Written(s.redis, j, STARTED, written))
    case StartCancelled(j, written) =>
      s.(jobs := s.jobs[j := Abandoned], redis := Written(s.redis, j, STARTED, written))
    case Begin(j) => s.(jobs := s.jobs[j := Executing])
    case CutBeforeBegin(j) => s.(jobs := s.jobs[j := Abandoned])
    case Return(j, success, url, error) =>
      var report := Report(if success then SUCCESS else FAILED, url, error);
      s.(active := s.active - 1, released := s.released + multiset{j},
         mem := s.mem[j := report], jobs := s.jobs[j := SavingOutcome(report)], past := Noted(s.past, j, report))
    case Raise(j, message) =>
      var report := Report(FAILED, None, Some(message));
      s.(mem := s.mem[j := report], jobs := s.jobs[j := SavingFailure(report)], past := Noted(s.past, j, report))
    case Abort(j) =>
      s.(active := s.active - 1, released := s.released + multiset{j}, jobs := s.jobs[j := Ended])
    case Saved(j, written) =>
      var s' := s.(jobs := s.jobs[j := Ended], redis := Written(s.redis, j, s.jobs[j].report, written));
      if s.jobs[j].SavingFailure?
      then s'.(active := s.active - 1, released := s.released + multiset{j}) else s'
    case GetMiss(r, j) => s.(readers := s.readers[r := (j, Waiting)])
    case GetRead(r, works) =>
      var j := s.readers[r].0;
      s.(readers := s.readers[r := (j, Got(if works && j in s.redis then Some(s.redis[j]) else None))])
    case GetReturn(r) =>
      var (j, read) := s.readers[r];
      var s' := s.(readers := s.readers - {r});
      if read.report.Some? then s'.(mem := s.mem[j := read.report.value]) else s'
    case Expire(j) => s.(redis := s.redis - {j})
    case Restart =>
      s.(active := 0, mem := map[], jobs := map[], readers := map[], released := multiset{}, base := s.redis)
  }

  predicate Possible(s: State, es: seq<Event>)
    decreases es
  {
    es == [] || (Enabled(s, es[0]) && Possible(Next(s, es[0]), es[1..]))
  }

  function Run(s: State, es: seq<Event>): State
    requires Possible(s, es)
    decreases es
  {
    if es == [] then s else Run(Next(s, es[0]), es[1..])
  }

  function Boot(maxConcurrent: int): State {
    State(Max(1, maxConcurrent), 0, map[], map[], map[], map[], multiset{}, map[], map[])
  }

  /** What a `get` that meets a working Redis answers. */
  function Answer(s: State, j: JobId): Option<Report> {
    if j in s.mem then Some(s.mem[j]) else if j in s.redis then Some(s.redis[j]) else None
  }

  /** The store itself; each method runs from one await to the next. */
  class Store {
    var max: nat
    var active: int
    var mem: map<JobId, Report>
    var redis: map<JobId, Report>
    var jobs: map<JobId, Phase>
    var readers: map<Reader, (JobId, Read)>
    ghost var released: multiset<JobId>
    ghost var base: map<JobId, Report>
    ghost var past: map<JobId, set<Report>>

    ghost function View(): State
      reads this
    {
      State(max, active, mem, redis, jobs, readers, released, base, past)
    }

    constructor (maxConcurrent: int)
      ensures View() == Boot(maxConcurrent)
    {
      max := Max(1, maxConcurrent);
      active := 0;
      mem, redis, jobs, readers := map[], map[], map[], map[];
      released, base, past := multiset{}, map[], map[];
    }

    /** The first, synchronous part of a save. */
    method SaveToMemory(j: JobId, report: Report)
      modifies this`mem, this`past
      ensures mem == old(mem)[j := report] && past == Noted(old(past), j, report)
    {
      mem := mem[j := report];
      past := Noted(past, j, report);
    }

    /** The awaited part of a save: the write reaches Redis or is lost. */
    method SaveToRedis(j: JobId, report: Report, written: bool)
      modifies this`redis
      ensures redis == Written(old(redis), j, report, written)
    {
      if written {
        redis := redis[j := report];
      }
    }

    /** The `finally` of a run. */
    method ReleaseSlot(j: JobId)
      modifies this`active, this`released
      ensures active == old(active) - 1 && released == old(released) + multiset{j}
    {
      active := active - 1;
      released := released + multiset{j};
    }

    method StartJob(j: JobId) returns (accepted: bool)
      requires Enabled(View(), Start(j))
      modifies this
      ensures View() == Next(old(View()), Start(j))
      ensures accepted <==> old(active) < max
    {
      if active >= max {
        return false;
      }
      active := active + 1;
      SaveToMemory(j, STARTED);
      jobs := jobs[j := Starting];
      accepted := true;
    }

    method CreateTask(j: JobId, written: bool)
      requires Enabled(View(), StartSaved(j, written))
      modifies this
      ensures View() == Next(old(View()), StartSaved(j, written))
    {
      SaveToRedis(j, STARTED, written);
      jobs := jobs[j := Created];
    }

    /** A run enters its `try` and awaits the runner. */
    method BeginRun(j: JobId)
      requires Enabled(View(), Begin(j))
      modifies this`jobs
      ensures View() == Next(old(View()), Begin(j))
    {
      jobs := jobs[j := Executing];
    }

    method RunnerReturned(j: JobId, success: bool, previewUrl: Option<string>, error: Option<string>)
      requires Enabled(View(), Return(j, success, previewUrl, error))
      modifies this
      ensures View() == Next(old(View()), Return(j, success, previewUrl, error))
      ensures mem == old(mem)[j := Report(if success then SUCCESS else FAILED, previewUrl, error)]
    {
      ReleaseSlot(j);
      var report := Report(if success then SUCCESS else FAILED, previewUrl, error);
      SaveToMemory(j, report);
      jobs := jobs[j := SavingOutcome(report)];
      assert View() == old(View()).(active := active, released := released, mem := mem, jobs := jobs, past := past);
    }

    method RunnerRaised(j: JobId, message: string)
      requires Enabled(View(), Raise(j, message))
      modifies this
      ensures View() == Next(old(View()), Raise(j, message))
    {
      var report := Report(FAILED, None, Some(message));
      SaveToMemory(j, report);
      jobs := jobs[j := SavingFailure(report)];
    }

    /** The end of `_run`: after a failure the slot is released only now. */
    method FinishSave(j: JobId, written: bool)
      requires Enabled(View(), Saved(j, written))
      modifies this
      ensures View() == Next(old(View()), Saved(j, written))
    {
      var phase := jobs[j];
      SaveToRedis(j, phase.report, written);
      jobs := jobs[j := Ended];
      if phase.SavingFailure? {
        ReleaseSlot(j);
      }
    }

    /** A `get` answers from memory at once, or goes on to Redis. */
    method Get(r: Reader, j: JobId) returns (answer: Option<Report>)
      requires r !in readers
      modifies this`readers
      ensures if j in mem then answer == Some(mem[j]) && View() == old(View())
              else answer == None && View() == Next(old(View()), GetMiss(r, j))
    {
      if j in mem {
        return Some(mem[j]);
      }
      readers := readers[r := (j, Waiting)];
      answer := None;
    }

    method GetFromRedis(r: Reader, works: bool)
      requires Enabled(View(), GetRead(r, works))
      modifies this`readers
      ensures View() == Next(old(View()), GetRead(r, works))
    {
      var j := readers[r].0;
      readers := readers[r := (j, Got(if works && j in redis then Some(redis[j]) else None))];
    }

    /** Warms the memory with what was read and answers it. */
    method GetEnd(r: Reader) returns (answer: Option<Report>)
      requires Enabled(View(), GetReturn(r))
      modifies this`readers, this`mem
      ensures View() == Next(old(View()), GetReturn(r))
      ensures answer == old(readers)[r].1.report
    {
      var (j, read) := readers[r];
      readers := readers - {r};
      answer := read.report;
      if answer.Some? {
        mem := mem[j := answer.value];
      }
    }
  }
}
