/**
 Two replicas of the agent on one Redis: what a replica answers about a job that the
 other one runs. Both are stores of their own, each with its memory and its readers.
 */
module JobReplicas {
  import opened Common
  import opened JobStore

  /** The replicas have one Redis. A clock counts the steps, to note when a terminal report
      was written, when a reader read, and when what warmed the memory was read. */
  datatype Replicas = Replicas(
    owner: State,
    peer: State,
    clock: nat,
    saved: map<JobId, (nat, Report)>,   // the owner's terminal reports that reached Redis
    readAt: map<Reader, nat>,           // the peer's reads
    warmedAt: map<JobId, nat>)          // the peer's reads that its memory was warmed with

  datatype Move = AtOwner(step: Event) | AtPeer(step: Event)

  function Launch(maxOwner: int, maxPeer: int): Replicas {
    Replicas(Boot(maxOwner), Boot(maxPeer), 0, map[], map[], map[])
  }

  /** A new job id is new to both. */
  predicate Allowed(w: Replicas, m: Move) {
    match m
    case AtOwner(step) => Enabled(w.owner, step) && (step.Start? ==> FreshId(w.peer, step.job))
    case AtPeer(step) => Enabled(w.peer, step) && (step.Start? ==> FreshId(w.owner, step.job))
  }

  function OwnerMove(w: Replicas, step: Event): Replicas
    requires Enabled(w.owner, step)
  {
    var owner := Next(w.owner, step);
    var saved := if step.Saved? && step.written then w.saved[step.job := (w.clock, w.owner.jobs[step.job].report)]
                 else w.saved;
    w.(owner := owner, peer := w.peer.(redis := owner.redis), clock := w.clock + 1, saved := saved)
  }

  function PeerMove(w: Replicas, step: Event): Replicas
    requires Enabled(w.peer, step)
  {
    var peer := Next(w.peer, step);
    var readAt := if step.GetRead? then w.readAt[step.reader := w.clock] else w.readAt;
    var warms := step.GetReturn? && w.peer.readers[step.reader].1.report.Some? && step.reader in w.readAt;
    var warmedAt := if warms then w.warmedAt[w.peer.readers[step.reader].0 := w.readAt[step.reader]] else w.warmedAt;
    w.(owner := w.owner.(redis := peer.redis), peer := peer, clock := w.clock + 1,
       readAt := readAt, warmedAt := warmedAt)
  }

  function Play(w: Replicas, m: Move): Replicas
    requires Allowed(w, m)
  {
    match m
    case AtOwner(step) => OwnerMove(w, step)
    case AtPeer(step) => PeerMove(w, step)
  }

  predicate CanPlay(w: Replicas, ms: seq<Move>)
    decreases ms
  {
    ms == [] || (Allowed(w, ms[0]) && CanPlay(Play(w, ms[0]), ms[1..]))
  }

  function PlayAll(w: Replicas, ms: seq<Move>): Replicas
    requires CanPlay(w, ms)
    decreases ms
  {
    if ms == [] then w else PlayAll(Play(w, ms[0]), ms[1..])
  }

  // -------------------------------------------------------------------- laws

  /** A report of the job that was read at time `t`. */
  predicate ReadThen(w: Replicas, j: JobId, report: Report, t: nat) {
    t < w.clock && report == if j in w.saved && t > w.saved[j].0 then w.saved[j].1 else STARTED
  }

  /** What holds of a job that the owner accepted. */
  predicate JobOk(w: Replicas, j: JobId) {
    j in w.owner.past ==>
      && j !in w.peer.jobs && j !in w.peer.past
      && (j in w.saved ==> w.saved[j].0 < w.clock && w.saved[j].1.status != RUNNING)
      && (j in w.peer.redis ==> w.peer.redis[j] == if j in w.saved then w.saved[j].1 else STARTED)
      && (j in w.peer.mem ==> j in w.warmedAt && ReadThen(w, j, w.peer.mem[j], w.warmedAt[j]))
      && (j in w.owner.jobs ==> PhaseOk(w.owner.jobs[j], j in w.saved))
  }

  predicate PhaseOk(p: Phase, saved: bool) {
    && (saved ==> p == Ended)
    && (p.SavingFailure? || p.SavingOutcome? ==> p.report.status != RUNNING)
  }

  predicate ReaderOk(w: Replicas, r: Reader) {
    r in w.peer.readers && w.peer.readers[r].1.Got? ==>
      r in w.readAt && ReportOk(w, w.peer.readers[r].0, w.peer.readers[r].1.report, w.readAt[r])
  }

  predicate ReportOk(w: Replicas, j: JobId, report: Option<Report>, t: nat) {
    j in w.owner.past && report.Some? ==> ReadThen(w, j, report.value, t)
  }

  /** Every job in hand was noted when it started. */
  predicate Knows(s: State) {
    forall j | j in s.jobs :: j in s.past
  }

  lemma StepKnows(s: State, step: Event)
    requires Knows(s) && Enabled(s, step)
    ensures Knows(Next(s, step))
    ensures forall j | j in s.past :: j in Next(s, step).past
  {
  }

  predicate Shared(w: Replicas) {
    && w.owner.redis == w.peer.redis
    && Knows(w.owner) && Knows(w.peer)
    && (forall j | j in w.saved :: j in w.owner.past)
  }

  ghost predicate Inv(w: Replicas) {
    && Shared(w)
    && (forall j :: JobOk(w, j))
    && (forall r :: ReaderOk(w, r))
  }

  lemma PlayShared(w: Replicas, m: Move)
    requires Shared(w) && Allowed(w, m)
    ensures Shared(Play(w, m))
  {
    if m.AtOwner? {
      StepKnows(w.owner, m.step);
    } else {
      StepKnows(w.peer, m.step);
    }
  }

  predicate Saves(step: Event) {
    step.StartSaved? || step.StartCancelled? || step.Saved?
  }

  predicate Runs(step: Event) {
    step.Start? || step.Begin? || step.CutBeforeBegin? || step.Return? || step.Raise? || step.Abort?
  }

  lemma OwnerSavesJobOk(w: Replicas, step: Event, j: JobId)
    requires Shared(w) && JobOk(w, j) && Allowed(w, AtOwner(step)) && Saves(step)
    ensures JobOk(OwnerMove(w, step), j)
  {
    if step.Saved? {
      OwnerSavedJobOk(w, step, j);
    }
  }

  /** A save is of a job in hand and touches that job only. */
  lemma SaveTouches(s: State, step: Event)
    requires Enabled(s, step) && Saves(step)
    ensures var s' := Next(s, step);
      && s'.mem == s.mem && s'.past == s.past && s'.readers == s.readers && step.job in s.jobs
      && (forall k | k != step.job ::
            && (k in s'.redis <==> k in s.redis) && (k in s.redis ==> s'.redis[k] == s.redis[k])
            && (k in s'.jobs <==> k in s.jobs) && (k in s.jobs ==> s'.jobs[k] == s.jobs[k]))
  {
  }

  /** Nothing about the job is touched. */
  lemma UntouchedJobOk(w: Replicas, w': Replicas, j: JobId)
    requires JobOk(w, j) && w'.clock == w.clock + 1
    requires w'.owner.past == w.owner.past && w'.peer.past == w.peer.past
    requires w'.peer.mem == w.peer.mem && w'.warmedAt == w.warmedAt
    requires (j in w'.saved <==> j in w.saved) && (j in w.saved ==> w'.saved[j] == w.saved[j])
    requires (j in w'.peer.redis <==> j in w.peer.redis) && (j in w.peer.redis ==> w'.peer.redis[j] == w.peer.redis[j])
    requires (j in w'.owner.jobs <==> j in w.owner.jobs) && (j in w.owner.jobs ==> w'.owner.jobs[j] == w.owner.jobs[j])
    requires j in w'.peer.jobs <==> j in w.peer.jobs
    ensures JobOk(w', j)
  {
  }

  lemma OwnerSavedJobOk(w: Replicas, step: Event, j: JobId)
    requires Shared(w) && JobOk(w, j) && Allowed(w, AtOwner(step)) && step.Saved?
    ensures JobOk(OwnerMove(w, step), j)
  {
    SaveTouches(w.owner, step);
    if j != step.job {
      UntouchedJobOk(w, OwnerMove(w, step), j);
    }
  }

  lemma OwnerRunsJobOk(w: Replicas, step: Event, j: JobId)
    requires Shared(w) && JobOk(w, j) && Allowed(w, AtOwner(step)) && Runs(step)
    ensures JobOk(OwnerMove(w, step), j)
  {
  }

  lemma OwnerOtherJobOk(w: Replicas, step: Event, j: JobId)
    requires Shared(w) && JobOk(w, j) && Allowed(w, AtOwner(step)) && !Saves(step) && !Runs(step)
    ensures JobOk(OwnerMove(w, step), j)
  {
  }

  lemma PeerSavesJobOk(w: Replicas, step: Event, j: JobId)
    requires Shared(w) && JobOk(w, j) && Allowed(w, AtPeer(step)) && Saves(step)
    ensures JobOk(PeerMove(w, step), j)
  {
    SaveTouches(w.peer, step);
    if j in w.owner.past {
      UntouchedJobOk(w, PeerMove(w, step), j);
    }
  }

  lemma PeerRunsJobOk(w: Replicas, step: Event, j: JobId)
    requires Shared(w) && JobOk(w, j) && Allowed(w, AtPeer(step)) && Runs(step)
    ensures JobOk(PeerMove(w, step), j)
  {
  }

  lemma PeerReadsJobOk(w: Replicas, step: Event, j: JobId)
    requires Shared(w) && JobOk(w, j) && Allowed(w, AtPeer(step)) && !Saves(step) && !Runs(step)
    requires step.GetReturn? ==> ReaderOk(w, step.reader)
    ensures JobOk(PeerMove(w, step), j)
  {
  }

  lemma OwnerReaderOk(w: Replicas, step: Event, r: Reader)
    requires Shared(w) && ReaderOk(w, r) && Allowed(w, AtOwner(step))
    requires r in w.peer.readers ==> JobOk(w, w.peer.readers[r].0)
    ensures ReaderOk(OwnerMove(w, step), r)
  {
  }

  lemma PeerReaderOk(w: Replicas, step: Event, r: Reader)
    requires Shared(w) && ReaderOk(w, r) && Allowed(w, AtPeer(step))
    requires r in w.peer.readers ==> JobOk(w, w.peer.readers[r].0)
    ensures ReaderOk(PeerMove(w, step), r)
  {
  }

  lemma MoveJobOk(w: Replicas, m: Move, j: JobId)
    requires Inv(w) && Allowed(w, m)
    ensures JobOk(Play(w, m), j)
  {
    assert JobOk(w, j);
    match m
    case AtOwner(step) =>
      if Saves(step) {
        OwnerSavesJobOk(w, step, j);
      } else if Runs(step) {
        OwnerRunsJobOk(w, step, j);
      } else {
        OwnerOtherJobOk(w, step, j);
      }
    case AtPeer(step) =>
      if Saves(step) {
        PeerSavesJobOk(w, step, j);
      } else if Runs(step) {
        PeerRunsJobOk(w, step, j);
      } else {
        assert step.GetReturn? ==> ReaderOk(w, step.reader);
        PeerReadsJobOk(w, step, j);
      }
  }

  lemma MoveReaderOk(w: Replicas, m: Move, r: Reader)
    requires Inv(w) && Allowed(w, m)
    ensures ReaderOk(Play(w, m), r)
  {
    assert ReaderOk(w, r);
    assert r in w.peer.readers ==> JobOk(w, w.peer.readers[r].0);
    match m
    case AtOwner(step) => OwnerReaderOk(w, step, r);
    case AtPeer(step) => PeerReaderOk(w, step, r);
  }

  lemma PlayInv(w: Replicas, m: Move)
    requires Inv(w) && Allowed(w, m)
    ensures Inv(Play(w, m))
  {
    PlayShared(w, m);
    forall j ensures JobOk(Play(w, m), j) {
      MoveJobOk(w, m, j);
    }
    forall r ensures ReaderOk(Play(w, m), r) {
      MoveReaderOk(w, m, r);
    }
  }

  lemma {:induction false} PlayAllInv(w: Replicas, ms: seq<Move>)
    requires Inv(w) && CanPlay(w, ms)
    ensures Inv(PlayAll(w, ms))
    decreases ms
  {
    if ms == [] {
    } else {
      PlayInv(w, ms[0]);
      PlayAllInv(Play(w, ms[0]), ms[1..]);
    }
  }

  lemma PlayedInv(maxOwner: int, maxPeer: int, ms: seq<Move>)
    requires CanPlay(Launch(maxOwner, maxPeer), ms)
    ensures Inv(PlayAll(Launch(maxOwner, maxPeer), ms))
  {
    PlayAllInv(Launch(maxOwner, maxPeer), ms);
  }

  /** What last warmed the peer was read after the owner's save or, when nothing did, Redis
      still holds it. */
  predicate Fresh(w: Replicas, j: JobId)
    requires j in w.saved && (j in w.peer.mem ==> j in w.warmedAt)
  {
    if j in w.peer.mem then w.warmedAt[j] > w.saved[j].0 else j in w.peer.redis
  }

  /** Once the owner's outcome is in Redis, the other replica answers it if and only if what
      last warmed its memory was read after that save or, when nothing did, Redis still
      holds it. Otherwise it answers RUNNING or nothing. */
  lemma AnswersOutcomeIff(maxOwner: int, maxPeer: int, ms: seq<Move>, j: JobId)
    requires CanPlay(Launch(maxOwner, maxPeer), ms)
    requires j in PlayAll(Launch(maxOwner, maxPeer), ms).saved
    ensures var w := PlayAll(Launch(maxOwner, maxPeer), ms);
      && (j in w.peer.mem ==> j in w.warmedAt)
      && (Answer(w.peer, j) == Some(w.saved[j].1) <==> Fresh(w, j))
      && Answer(w.peer, j) in {None, Some(STARTED), Some(w.saved[j].1)}
  {
    PlayedInv(maxOwner, maxPeer, ms);
    assert JobOk(PlayAll(Launch(maxOwner, maxPeer), ms), j);
  }

  predicate PeerStays(ms: seq<Move>) {
    forall m | m in ms :: m != AtPeer(Restart)
  }

  /** A replica that does not run the job and has no `get` of it under way. */
  predicate Settled(s: State, j: JobId) {
    j in s.mem && j !in s.jobs && forall r | r in s.readers :: s.readers[r].0 != j
  }

  lemma SettledStep(s: State, step: Event, j: JobId)
    requires Enabled(s, step) && !step.Restart? && Settled(s, j)
    ensures Settled(Next(s, step), j) && Next(s, step).mem[j] == s.mem[j]
  {
  }

  lemma SettledMove(w: Replicas, m: Move, j: JobId)
    requires Allowed(w, m) && m != AtPeer(Restart) && Settled(w.peer, j)
    ensures Settled(Play(w, m).peer, j) && Play(w, m).peer.mem[j] == w.peer.mem[j]
  {
    if m.AtPeer? {
      SettledStep(w.peer, m.step, j);
    }
  }

  /** A replica that was once warmed with RUNNING never asks Redis again: until it restarts,
      that is its answer, whatever becomes of the job. */
  lemma {:induction false} StaleForGood(w: Replicas, ms: seq<Move>, j: JobId)
    requires CanPlay(w, ms) && PeerStays(ms) && Settled(w.peer, j)
    ensures Answer(PlayAll(w, ms).peer, j) == Some(w.peer.mem[j])
    decreases ms
  {
    if ms == [] {
    } else {
      assert ms[0] in ms && forall m | m in ms[1..] :: m in ms;
      SettledMove(w, ms[0], j);
      StaleForGood(Play(w, ms[0]), ms[1..], j);
    }
  }

  lemma PlayOne(w: Replicas, m: Move, ms: seq<Move>)
    requires Allowed(w, m) && CanPlay(Play(w, m), ms)
    ensures CanPlay(w, [m] + ms) && PlayAll(w, [m] + ms) == PlayAll(Play(w, m), ms)
  {
    assert ([m] + ms)[1..] == ms;
  }

  /** A job whose start is saved, and a poll that meets the other replica before the job is done. */
  lemma PolledEarly(j: JobId, r: Reader) returns (ms: seq<Move>)
    ensures CanPlay(Launch(1, 1), ms)
    ensures var w := PlayAll(Launch(1, 1), ms);
      && w.owner.jobs == map[j := Created] && w.owner.redis == map[j := STARTED]
      && w.peer.mem == map[j := STARTED] && w.peer.jobs == map[] && w.peer.readers == map[]
  {
    var w0 := Launch(1, 1);
    var w1 := Play(w0, AtOwner(Start(j)));
    var w2 := Play(w1, AtOwner(StartSaved(j, true)));
    var w3 := Play(w2, AtPeer(GetMiss(r, j)));
    var w4 := Play(w3, AtPeer(GetRead(r, true)));
    PlayOne(w4, AtPeer(GetReturn(r)), []);
    ms := [AtPeer(GetReturn(r))] + [];
    PlayOne(w3, AtPeer(GetRead(r, true)), ms);
    ms := [AtPeer(GetRead(r, true))] + ms;
    PlayOne(w2, AtPeer(GetMiss(r, j)), ms);
    ms := [AtPeer(GetMiss(r, j))] + ms;
    PlayOne(w1, AtOwner(StartSaved(j, true)), ms);
    ms := [AtOwner(StartSaved(j, true))] + ms;
    PlayOne(w0, AtOwner(Start(j)), ms);
    ms := [AtOwner(Start(j))] + ms;
  }

  /** The job then succeeds and its outcome is saved. */
  lemma Succeeds(w: Replicas, j: JobId) returns (ms: seq<Move>)
    requires j in w.owner.jobs && w.owner.jobs[j] == Created
    ensures CanPlay(w, ms) && PeerStays(ms)
    ensures var end := PlayAll(w, ms);
      j in end.owner.redis && end.owner.redis[j] == Report(SUCCESS, None, None) && j in end.saved
  {
    var w1 := Play(w, AtOwner(Begin(j)));
    var w2 := Play(w1, AtOwner(Return(j, true, None, None)));
    PlayOne(w2, AtOwner(Saved(j, true)), []);
    ms := [AtOwner(Saved(j, true))] + [];
    PlayOne(w1, AtOwner(Return(j, true, None, None)), ms);
    ms := [AtOwner(Return(j, true, None, None))] + ms;
    PlayOne(w, AtOwner(Begin(j)), ms);
    ms := [AtOwner(Begin(j))] + ms;
  }

  /** Such a run: the outcome is in Redis, and the replica that was asked once before it
      answers RUNNING. */
  lemma OutcomeMissed(j: JobId, r: Reader) returns (w: Replicas, ms: seq<Move>)
    ensures CanPlay(w, ms) && PeerStays(ms) && Settled(w.peer, j)
    ensures exists before :: CanPlay(Launch(1, 1), before) && w == PlayAll(Launch(1, 1), before)
    ensures var end := PlayAll(w, ms);
      && j in end.owner.redis && end.owner.redis[j].status == SUCCESS
      && Answer(end.peer, j) == Some(STARTED)
  {
    var before := PolledEarly(j, r);
    w := PlayAll(Launch(1, 1), before);
    ms := Succeeds(w, j);
    StaleForGood(w, ms, j);
  }
}
