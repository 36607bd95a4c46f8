/** The preemptive job scheduler: any number of nodes read an eligible job, try to take it
    with a compare-and-set on its version, run it, set its next time and release it. */
module JobPreemption {
  import opened Tables

  datatype Status = Waiting | Running | Paused

  datatype Job = Job(status: Status, version: int, nextTime: int, utime: int)

  type Jobs = map<int, Job>

  // ---------- The statements of the job table ----------

  function Eligible(jobs: Jobs, now: int): set<int> {
    set id | id in jobs && jobs[id].status == Waiting && jobs[id].nextTime < now
  }

  // WHERE status = waiting AND next_time < now, first by primary key.
  function FirstEligible(jobs: Jobs, now: int): (r: Option<int>)
    ensures r.Some? ==> r.value in jobs && jobs[r.value].status == Waiting && jobs[r.value].nextTime < now
    ensures r.None? ==> forall id :: id in jobs ==> jobs[id].status != Waiting || jobs[id].nextTime >= now
    ensures r.Some? ==>
      forall id :: id in jobs && jobs[id].status == Waiting && jobs[id].nextTime < now ==> r.value <= id
  {
    var ids := Eligible(jobs, now);
    assert forall id :: id in jobs && jobs[id].status == Waiting && jobs[id].nextTime < now ==> id in ids;
    if ids == {} then None else Some(Min(ids))
  }

  // WHERE id = ? AND version = ?: neither status nor next_time is checked again.
  predicate CasHits(jobs: Jobs, id: int, version: int) {
    id in jobs && jobs[id].version == version
  }

  function Taken(jobs: Jobs, id: int, now: int): Jobs
    requires id in jobs
  {
    jobs[id := jobs[id].(status := Running, version := jobs[id].version + 1, utime := now)]
  }

  function Released(jobs: Jobs, id: int, now: int): Jobs {
    if id in jobs then jobs[id := jobs[id].(status := Waiting, utime := now)] else jobs
  }

  function Refreshed(jobs: Jobs, id: int, now: int): Jobs {
    if id in jobs then jobs[id := jobs[id].(utime := now)] else jobs
  }

  function Rescheduled(jobs: Jobs, id: int, to: int, now: int): Jobs {
    if id in jobs then jobs[id := jobs[id].(nextTime := to, utime := now)] else jobs
  }

  // ---------- The cluster ----------

  // A won compare-and-set, with the row's version after it and its next time; and a
  // successful run's new next time landing.
  datatype Event =
    | Start(task: int, jid: int, version: int, at: int, due: int)
    | Reset(task: int, jid: int, to: int)

  // Where one goroutine of one node stands. fails and since count the failed attempts of
  // the current Preempt call and mark the history at its start; readAt, at its last read.
  datatype Phase =
    | Idle
    | Looping(fails: nat, since: nat)
    | Candidate(fails: nat, since: nat, readAt: nat, jid: int, seen: Job, now: int)
    | Holding(jid: int)
    | Releasing(jid: int)

  // orphans are rows left Running by a holder that crashed or whose release failed.
  datatype State = State(jobs: Jobs, clock: int, tasks: map<int, Phase>, orphans: set<int>,
                         history: seq<Event>)

  datatype Step =
    | Tick(to: int)
    | BeginPreempt(task: int)
    | Read(task: int)
    | Cas(task: int)
    | RunFailed(task: int)              // execution, or the next-time update, failed
    | ResetNextTime(task: int, to: int)
    | Release(task: int)
    | Crash(task: int)                  // also a call abandoned or a release that failed
    | Refresh(jid: int)                 // the ticker, which may outlive its holder

  function PhaseOf(s: State, task: int): Phase {
    if task in s.tasks then s.tasks[task] else Idle
  }

  function Move(s: State, task: int, p: Phase): State {
    s.(tasks := s.tasks[task := p])
  }

  function ReadStep(s: State, task: int): State {
    match PhaseOf(s, task)
    case Looping(fails, since) =>
      var found := FirstEligible(s.jobs, s.clock);
      if found.None? then Move(s, task, Idle)
      else Move(s, task, Candidate(fails, since, |s.history|, found.value, s.jobs[found.value], s.clock))
    case _ => s
  }

  function CasStep(s: State, task: int): State {
    match PhaseOf(s, task)
    case Candidate(fails, since, _, jid, seen, now) =>
      if CasHits(s.jobs, jid, seen.version) then
        var start := Start(task, jid, seen.version + 1, s.clock, s.jobs[jid].nextTime);
        Move(s.(jobs := Taken(s.jobs, jid, now), history := s.history + [start]), task, Holding(jid))
      else Move(s, task, Looping(fails + 1, since))
    case _ => s
  }

  function ResetStep(s: State, task: int, to: int): State {
    match PhaseOf(s, task)
    case Holding(jid) =>
      Move(s.(jobs := Rescheduled(s.jobs, jid, to, s.clock), history := s.history + [Reset(task, jid, to)]),
           task, Releasing(jid))
    case _ => s
  }

  function ReleaseStep(s: State, task: int): State {
    match PhaseOf(s, task)
    case Releasing(jid) => Move(s.(jobs := Released(s.jobs, jid, s.clock)), task, Idle)
    case _ => s
  }

  function CrashStep(s: State, task: int): State {
    match PhaseOf(s, task)
    case Holding(jid) => Move(s.(orphans := s.orphans + {jid}), task, Idle)
    case Releasing(jid) => Move(s.(orphans := s.orphans + {jid}), task, Idle)
    case _ => Move(s, task, Idle)
  }

  // A step that is not enabled changes nothing.
  function Next(s: State, step: Step): State {
    match step
    case Tick(to) => if to >= s.clock then s.(clock := to) else s
    case BeginPreempt(t) => if PhaseOf(s, t).Idle? then Move(s, t, Looping(0, |s.history|)) else s
    case Read(t) => ReadStep(s, t)
    case Cas(t) => CasStep(s, t)
    case RunFailed(t) => if PhaseOf(s, t).Holding? then Move(s, t, Releasing(PhaseOf(s, t).jid)) else s
    case ResetNextTime(t, to) => ResetStep(s, t, to)
    case Release(t) => ReleaseStep(s, t)
    case Crash(t) => CrashStep(s, t)
    case Refresh(jid) => s.(jobs := Refreshed(s.jobs, jid, s.clock))
  }

  function After(s: State, steps: seq<Step>): State
    decreases |steps|
  {
    if steps == [] then s else After(Next(s, steps[0]), steps[1..])
  }

  // Any table, with the rows already marked Running as orphans.
  function Start0(jobs: Jobs, clock: int): State {
    State(jobs, clock, map[], set id | id in jobs && jobs[id].status == Running, [])
  }

  // ---------- The invariant ----------

  ghost predicate Holds(s: State, task: int, jid: int) {
    PhaseOf(s, task) == Holding(jid) || PhaseOf(s, task) == Releasing(jid)
  }

  ghost predicate Exclusive(s: State) {
    forall a, b, jid :: Holds(s, a, jid) && Holds(s, b, jid) ==> a == b
  }

  ghost predicate HeldOrOrphan(s: State, jid: int) {
    (exists task :: Holds(s, task, jid)) || jid in s.orphans
  }

  // A row is Running exactly when it is held, or was orphaned; never both.
  ghost predicate RunningIffHeld(s: State) {
    && (forall jid :: jid in s.jobs ==> (s.jobs[jid].status == Running <==> HeldOrOrphan(s, jid)))
    && (forall task, jid :: Holds(s, task, jid) ==> jid in s.jobs && jid !in s.orphans)
  }

  // A row whose version a candidate still matches has not changed where it matters.
  ghost predicate FreshCandidate(s: State, p: Phase) {
    p.Candidate? ==>
      && p.jid in s.jobs
      && p.seen.version <= s.jobs[p.jid].version
      && p.seen.status == Waiting && p.seen.nextTime < p.now <= s.clock
      && (p.seen.version == s.jobs[p.jid].version ==>
            s.jobs[p.jid].status == Waiting && s.jobs[p.jid].nextTime == p.seen.nextTime)
  }

  ghost predicate FreshCandidates(s: State) {
    forall task :: FreshCandidate(s, PhaseOf(s, task))
  }

  // A reset time has passed, or still stands and binds the next start.
  ghost predicate ResetBinds(s: State, e: Event) {
    e.Reset? ==>
      || e.to < s.clock
      || (e.jid in s.jobs && s.jobs[e.jid].nextTime == e.to && forall task :: PhaseOf(s, task) != Holding(e.jid))
  }

  // What a history may contain, in whatever order tasks wrote it: no start before its
  // due time, none until a reset time has passed, and a fresh version for each.
  ghost predicate Lawful(history: seq<Event>) {
    && (forall i :: 0 <= i < |history| && history[i].Start? ==> history[i].due < history[i].at)
    && (forall i, j :: 0 <= i < j < |history| ==> InOrder(history[i], history[j]))
  }

  ghost predicate InOrder(earlier: Event, later: Event) {
    later.Start? && earlier.jid == later.jid ==>
      if earlier.Reset? then earlier.to < later.at else earlier.version < later.version
  }

  ghost predicate HistoryBinds(s: State) {
    forall e :: e in s.history ==>
      && ResetBinds(s, e)
      && (e.Start? ==> e.jid in s.jobs && e.version <= s.jobs[e.jid].version)
  }

  ghost predicate Inv(s: State) {
    Exclusive(s) && RunningIffHeld(s) && FreshCandidates(s) && Lawful(s.history) && HistoryBinds(s)
  }

  lemma InvStart(jobs: Jobs, clock: int)
    ensures Inv(Start0(jobs, clock))
  {
  }

  // ---------- Each step keeps it ----------

  lemma SameHolders(s: State, s': State)
    requires Exclusive(s) && RunningIffHeld(s)
    requires s'.orphans == s.orphans && forall a, jid :: Holds(s', a, jid) <==> Holds(s, a, jid)
    requires s'.jobs.Keys == s.jobs.Keys
    requires forall jid :: jid in s.jobs ==> s'.jobs[jid].status == s.jobs[jid].status
    ensures Exclusive(s') && RunningIffHeld(s')
  {
    forall jid ensures HeldOrOrphan(s', jid) <==> HeldOrOrphan(s, jid) {
      if exists a :: Holds(s, a, jid) {
        var a :| Holds(s, a, jid);
        assert Holds(s', a, jid);
      }
    }
  }

  // The winner's job had no holder, so the winner becomes its only one.
  lemma GainedHolder(s: State, s': State, task: int, jid: int)
    requires Exclusive(s) && RunningIffHeld(s) && jid in s.jobs && s.jobs[jid].status == Waiting
    requires s'.orphans == s.orphans && s'.jobs.Keys == s.jobs.Keys
    requires forall a, j :: Holds(s', a, j) <==> (a == task && j == jid) || (a != task && Holds(s, a, j))
    requires forall j :: !Holds(s, task, j)
    requires forall j :: j in s.jobs ==> s'.jobs[j].status == if j == jid then Running else s.jobs[j].status
    ensures Exclusive(s') && RunningIffHeld(s')
  {
    assert !HeldOrOrphan(s, jid);
    forall j ensures HeldOrOrphan(s', j) <==> j == jid || HeldOrOrphan(s, j) {
      if exists a :: Holds(s, a, j) {
        var a :| Holds(s, a, j);
        assert Holds(s', a, j);
      }
      assert j == jid ==> Holds(s', task, j);
    }
  }

  // A holder leaves: its row stops Running, or is orphaned.
  lemma LostHolder(s: State, s': State, task: int, jid: int)
    requires Exclusive(s) && RunningIffHeld(s) && Holds(s, task, jid)
    requires forall a, j :: Holds(s', a, j) <==> a != task && Holds(s, a, j)
    requires s'.jobs.Keys == s.jobs.Keys
    requires forall j :: j in s.jobs && j != jid ==> s'.jobs[j].status == s.jobs[j].status
    requires
      || (s'.orphans == s.orphans && s'.jobs[jid].status == Waiting)
      || (s'.orphans == s.orphans + {jid} && s'.jobs[jid].status == s.jobs[jid].status)
    ensures Exclusive(s') && RunningIffHeld(s')
  {
    assert HeldOrOrphan(s, jid);
    forall j | j != jid ensures HeldOrOrphan(s', j) <==> HeldOrOrphan(s, j) {
      if exists a :: Holds(s, a, j) {
        var a :| Holds(s, a, j);
        assert Holds(s', a, j);
      }
    }
  }

  // Rows keep their versions, and change otherwise only while Running.
  ghost predicate CandidatesUndisturbed(s: State, s': State) {
    && s'.clock >= s.clock
    && forall jid :: jid in s.jobs ==>
         && jid in s'.jobs
         && s'.jobs[jid].version >= s.jobs[jid].version
         && (s'.jobs[jid].version == s.jobs[jid].version && s.jobs[jid].status == Waiting ==>
               s'.jobs[jid].status == Waiting && s'.jobs[jid].nextTime == s.jobs[jid].nextTime)
  }

  lemma CandidatesStayFresh(s: State, s': State)
    requires FreshCandidates(s) && CandidatesUndisturbed(s, s')
    requires forall task :: PhaseOf(s', task) == PhaseOf(s, task) || FreshCandidate(s, PhaseOf(s', task))
    ensures FreshCandidates(s')
  {
    forall task ensures FreshCandidate(s', PhaseOf(s', task)) {
      assert FreshCandidate(s, PhaseOf(s, task));
    }
  }

  // No start, no reset, and no row given another version or next time.
  lemma SameHistory(s: State, s': State)
    requires Lawful(s.history) && HistoryBinds(s)
    requires s'.history == s.history && s'.clock >= s.clock && s'.jobs.Keys == s.jobs.Keys
    requires forall jid :: jid in s.jobs ==>
      s'.jobs[jid].version == s.jobs[jid].version && s'.jobs[jid].nextTime == s.jobs[jid].nextTime
    requires forall task, jid :: PhaseOf(s', task) == Holding(jid) ==> PhaseOf(s, task) == Holding(jid)
    ensures Lawful(s'.history) && HistoryBinds(s')
  {
    forall e | e in s'.history ensures ResetBinds(s', e) {
      assert ResetBinds(s, e);
    }
  }

  lemma CasKeeps(s: State, task: int)
    requires Inv(s) && PhaseOf(s, task).Candidate?
    requires CasHits(s.jobs, PhaseOf(s, task).jid, PhaseOf(s, task).seen.version)
    ensures Inv(CasStep(s, task))
  {
    var s', p := CasStep(s, task), PhaseOf(s, task);
    assert FreshCandidate(s, p);
    forall t | t != task ensures PhaseOf(s', t) == PhaseOf(s, t) {
    }
    GainedHolder(s, s', task, p.jid);
    CandidatesStayFresh(s, s');
    StartIsLawful(s, task);
  }

  // Resets of the job bind the winner: the next time it read still stands and has passed.
  lemma StartIsLawful(s: State, task: int)
    requires Inv(s) && PhaseOf(s, task).Candidate?
    requires CasHits(s.jobs, PhaseOf(s, task).jid, PhaseOf(s, task).seen.version)
    ensures Lawful(CasStep(s, task).history) && HistoryBinds(CasStep(s, task))
  {
    var s', p := CasStep(s, task), PhaseOf(s, task);
    assert FreshCandidate(s, p);
    var start := s'.history[|s.history|];
    forall e | e in s.history ensures ResetBinds(s', e) && InOrder(e, start) {
      assert ResetBinds(s, e);
      forall t | e.Reset? && e.jid != p.jid && PhaseOf(s', t) == Holding(e.jid)
        ensures PhaseOf(s, t) == Holding(e.jid)
      {
      }
    }
    forall i | 0 <= i < |s.history| ensures InOrder(s'.history[i], start) {
      assert s.history[i] in s.history;
    }
  }

  lemma ResetKeeps(s: State, task: int, to: int)
    requires Inv(s) && PhaseOf(s, task).Holding?
    ensures Inv(ResetStep(s, task, to))
  {
    var s', jid := ResetStep(s, task, to), PhaseOf(s, task).jid;
    assert Holds(s, task, jid) && HeldOrOrphan(s, jid);
    forall t | t != task ensures PhaseOf(s', t) == PhaseOf(s, t) {
    }
    SameHolders(s, s');
    CandidatesStayFresh(s, s');
    ResetIsLawful(s, task, to);
  }

  // Earlier resets of the job had already passed, or its holder could not have started.
  lemma ResetIsLawful(s: State, task: int, to: int)
    requires Inv(s) && PhaseOf(s, task).Holding?
    ensures Lawful(ResetStep(s, task, to).history) && HistoryBinds(ResetStep(s, task, to))
  {
    var s', jid := ResetStep(s, task, to), PhaseOf(s, task).jid;
    assert Holds(s, task, jid);
    forall t ensures PhaseOf(s', t) != Holding(jid) && (PhaseOf(s', t).Holding? ==> PhaseOf(s', t) == PhaseOf(s, t)) {
      if PhaseOf(s', t) == Holding(jid) {
        assert Holds(s, t, jid);
      }
    }
    forall e | e in s.history ensures ResetBinds(s', e) {
      assert ResetBinds(s, e);
    }
  }

  lemma ReleaseKeeps(s: State, task: int)
    requires Inv(s) && PhaseOf(s, task).Releasing?
    ensures Inv(ReleaseStep(s, task))
  {
    var s', jid := ReleaseStep(s, task), PhaseOf(s, task).jid;
    assert Holds(s, task, jid) && HeldOrOrphan(s, jid);
    forall t | t != task ensures PhaseOf(s', t) == PhaseOf(s, t) {
    }
    LostHolder(s, s', task, jid);
    CandidatesStayFresh(s, s');
    SameHistory(s, s');
  }

  lemma CrashKeeps(s: State, task: int)
    requires Inv(s) && (PhaseOf(s, task).Holding? || PhaseOf(s, task).Releasing?)
    ensures Inv(CrashStep(s, task))
  {
    var s', jid := CrashStep(s, task), PhaseOf(s, task).jid;
    forall t | t != task ensures PhaseOf(s', t) == PhaseOf(s, t) {
    }
    LostHolder(s, s', task, jid);
    CandidatesStayFresh(s, s');
    SameHistory(s, s');
  }

  // Moves between phases that hold nothing, and from running to releasing.
  lemma MoveKeeps(s: State, task: int, p: Phase)
    requires Inv(s) && FreshCandidate(s, p) && !p.Holding?
    requires forall jid :: p == Releasing(jid) <==> Holds(s, task, jid)
    ensures Inv(Move(s, task, p))
  {
    var s' := Move(s, task, p);
    forall t | t != task ensures PhaseOf(s', t) == PhaseOf(s, t) {
    }
    SameHolders(s, s');
    CandidatesStayFresh(s, s');
    SameHistory(s, s');
  }

  // A later clock, or a refreshed utime.
  lemma RowsKeep(s: State, s': State)
    requires Inv(s) && s' == s.(clock := s'.clock, jobs := s'.jobs)
    requires s'.clock >= s.clock && s'.jobs.Keys == s.jobs.Keys
    requires forall jid :: jid in s.jobs ==> s'.jobs[jid] == s.jobs[jid].(utime := s'.jobs[jid].utime)
    ensures Inv(s')
  {
    forall t ensures PhaseOf(s', t) == PhaseOf(s, t) {
    }
    SameHolders(s, s');
    CandidatesStayFresh(s, s');
    SameHistory(s, s');
  }

  lemma StepKeeps(s: State, step: Step)
    requires Inv(s)
    ensures Inv(Next(s, step))
  {
    hide Inv, FreshCandidate;
    match step
    case Tick(_) => RowsKeep(s, Next(s, step));
    case Refresh(_) => RowsKeep(s, Next(s, step));
    case BeginPreempt(t) => if PhaseOf(s, t).Idle? { QuietMove(s, t, Looping(0, |s.history|)); }
    case Read(t) => ReadKeeps(s, t);
    case Cas(t) =>
      var p := PhaseOf(s, t);
      if p.Candidate? {
        if CasHits(s.jobs, p.jid, p.seen.version) {
          CasKeeps(s, t);
        } else {
          QuietMove(s, t, Looping(p.fails + 1, p.since));
        }
      }
    case RunFailed(t) => if PhaseOf(s, t).Holding? { MoveToRelease(s, t); }
    case ResetNextTime(t, to) => if PhaseOf(s, t).Holding? { ResetKeeps(s, t, to); }
    case Release(t) => if PhaseOf(s, t).Releasing? { ReleaseKeeps(s, t); }
    case Crash(t) =>
      if PhaseOf(s, t).Holding? || PhaseOf(s, t).Releasing? {
        CrashKeeps(s, t);
      } else {
        QuietMove(s, t, Idle);
      }
  }

  lemma QuietMove(s: State, task: int, p: Phase)
    requires Inv(s) && (p.Idle? || p.Looping?)
    requires !PhaseOf(s, task).Holding? && !PhaseOf(s, task).Releasing?
    ensures Inv(Move(s, task, p))
  {
    MoveKeeps(s, task, p);
  }

  lemma MoveToRelease(s: State, task: int)
    requires Inv(s) && PhaseOf(s, task).Holding?
    ensures Inv(Move(s, task, Releasing(PhaseOf(s, task).jid)))
  {
    MoveKeeps(s, task, Releasing(PhaseOf(s, task).jid));
  }

  lemma ReadKeeps(s: State, task: int)
    requires Inv(s)
    ensures Inv(ReadStep(s, task))
  {
    if PhaseOf(s, task).Looping? {
      MoveKeeps(s, task, PhaseOf(ReadStep(s, task), task));
    }
  }

  lemma {:induction false} InvHolds(s: State, steps: seq<Step>)
    requires Inv(s)
    ensures Inv(After(s, steps))
    decreases |steps|
  {
    if steps != [] {
      StepKeeps(s, steps[0]);
      InvHolds(Next(s, steps[0]), steps[1..]);
    }
  }

  // ---------- Mutual exclusion, versions, and never early ----------

  // How many of the events are starts of this job.
  function Starts(history: seq<Event>, jid: int): nat {
    if history == [] then 0
    else
      var last := history[|history| - 1];
      Starts(history[..|history| - 1], jid) + if last.Start? && last.jid == jid then 1 else 0
  }

  lemma StartsAppend(history: seq<Event>, e: Event, jid: int)
    ensures Starts(history + [e], jid) == Starts(history, jid) + if e.Start? && e.jid == jid then 1 else 0
  {
    assert (history + [e])[..|history|] == history;
  }

  lemma StepCountsStarts(s: State, step: Step, jid: int)
    requires Inv(s) && jid in s.jobs
    ensures jid in Next(s, step).jobs
    ensures Next(s, step).jobs[jid].version - Starts(Next(s, step).history, jid)
         == s.jobs[jid].version - Starts(s.history, jid)
  {
    hide Inv, FirstEligible, Starts;
    var s' := Next(s, step);
    if |s'.history| > |s.history| {
      StartsAppend(s.history, s'.history[|s.history|], jid);
      assert s'.history == s.history + [s'.history[|s.history|]];
    }
  }

  lemma {:induction false} VersionsCountStarts(s: State, steps: seq<Step>, jid: int)
    requires Inv(s) && jid in s.jobs
    ensures jid in After(s, steps).jobs
    ensures After(s, steps).jobs[jid].version - Starts(After(s, steps).history, jid)
         == s.jobs[jid].version - Starts(s.history, jid)
    decreases |steps|
  {
    hide Inv, Next, Starts;
    if steps != [] {
      StepKeeps(s, steps[0]);
      StepCountsStarts(s, steps[0], jid);
      VersionsCountStarts(Next(s, steps[0]), steps[1..], jid);
    }
  }

  /** However any number of nodes interleave, each job has at most one holder, its row is
      Running exactly when it has one or was orphaned, and its version has risen by
      exactly one for each time it was taken. */
  lemma MutualExclusion(jobs: Jobs, clock: int, steps: seq<Step>, jid: int)
    requires jid in jobs
    ensures var s := After(Start0(jobs, clock), steps);
            && (forall a, b :: Holds(s, a, jid) && Holds(s, b, jid) ==> a == b)
            && jid in s.jobs
            && (s.jobs[jid].status == Running <==> HeldOrOrphan(s, jid))
            && (jid in s.orphans ==> forall a :: !Holds(s, a, jid))
            && s.jobs[jid].version == jobs[jid].version + Starts(s.history, jid)
  {
    InvStart(jobs, clock);
    InvHolds(Start0(jobs, clock), steps);
    VersionsCountStarts(Start0(jobs, clock), steps, jid);
  }

  ghost predicate NoCrash(steps: seq<Step>) {
    forall step :: step in steps ==> !step.Crash?
  }

  lemma {:induction false} NoNewOrphans(s: State, steps: seq<Step>)
    requires NoCrash(steps)
    ensures After(s, steps).orphans == s.orphans
    decreases |steps|
  {
    if steps != [] {
      assert steps[0] in steps;
      NoNewOrphans(Next(s, steps[0]), steps[1..]);
    }
  }

  /** Without crashes and lost releases, Running means held, and nothing else. */
  lemma RunningMeansHeld(jobs: Jobs, clock: int, steps: seq<Step>, jid: int)
    requires jid in jobs && NoCrash(steps)
    requires forall id :: id in jobs ==> jobs[id].status != Running
    ensures var s := After(Start0(jobs, clock), steps);
            jid in s.jobs && (s.jobs[jid].status == Running <==> exists a :: Holds(s, a, jid))
  {
    NoNewOrphans(Start0(jobs, clock), steps);
    MutualExclusion(jobs, clock, steps, jid);
  }

  /** No run starts before its job is due, although the compare-and-set checks only the
      version; none starts until every reset time that landed before it has passed; and no
      two starts of a job have the same version. */
  lemma NeverEarly(jobs: Jobs, clock: int, steps: seq<Step>)
    ensures Lawful(After(Start0(jobs, clock), steps).history)
  {
    InvStart(jobs, clock);
    InvHolds(Start0(jobs, clock), steps);
  }

  /** Read off the rows: a step that takes a job, raising its version, finds it waiting and due,
      and records just that; a step that moves a next time is a reset by the job's holder, and
      records it. */
  lemma StepsAreRecorded(s: State, step: Step, jid: int)
    requires Inv(s) && jid in s.jobs
    ensures var s', row := Next(s, step), s.jobs[jid];
            && jid in s'.jobs
            && (s'.jobs[jid].version != row.version ==>
                  && step.Cas? && row.status == Waiting && row.nextTime < s.clock
                  && s'.jobs[jid].version == row.version + 1 && s'.jobs[jid].status == Running
                  && s'.history == s.history + [Start(step.task, jid, row.version + 1, s.clock, row.nextTime)])
            && (s'.jobs[jid].nextTime != row.nextTime ==>
                  && step.ResetNextTime? && PhaseOf(s, step.task) == Holding(jid)
                  && s'.jobs[jid].nextTime == step.to && s'.jobs[jid].version == row.version
                  && s'.history == s.history + [Reset(step.task, jid, step.to)])
  {
    if step.Cas? {
      assert FreshCandidate(s, PhaseOf(s, step.task));
    }
    hide FirstEligible, Exclusive, RunningIffHeld, Lawful, HistoryBinds;
  }

  // ---------- A held row is private ----------

  ghost predicate ByOthers(step: Step, task: int) {
    match step
    case Tick(_) => true
    case Refresh(_) => true
    case _ => step.task != task
  }

  lemma OtherStepLeavesHeld(s: State, step: Step, task: int, jid: int)
    requires Inv(s) && Holds(s, task, jid) && ByOthers(step, task)
    ensures var s' := Next(s, step);
            && PhaseOf(s', task) == PhaseOf(s, task) && jid in s.jobs && jid in s'.jobs
            && s'.jobs[jid] == s.jobs[jid].(utime := s'.jobs[jid].utime)
  {
    assert HeldOrOrphan(s, jid);
    if !step.Tick? && !step.Refresh? {
      assert PhaseOf(s, step.task).Holding? || PhaseOf(s, step.task).Releasing? ==>
          Holds(s, step.task, PhaseOf(s, step.task).jid);
      assert FreshCandidate(s, PhaseOf(s, step.task));
    }
  }

  /** While a task holds a job, nothing the others do changes the row but its utime. */
  lemma {:induction false} HeldRowIsPrivate(s: State, steps: seq<Step>, task: int, jid: int)
    requires Inv(s) && Holds(s, task, jid)
    requires forall step :: step in steps ==> ByOthers(step, task)
    ensures var s' := After(s, steps);
            && PhaseOf(s', task) == PhaseOf(s, task) && jid in s.jobs && jid in s'.jobs
            && s'.jobs[jid] == s.jobs[jid].(utime := s'.jobs[jid].utime)
    decreases |steps|
  {
    if steps != [] {
      hide Inv, Next, ByOthers;
      assert steps[0] in steps;
      StepKeeps(s, steps[0]);
      OtherStepLeavesHeld(s, steps[0], task, jid);
      HeldRowIsPrivate(Next(s, steps[0]), steps[1..], task, jid);
    }
  }

  // ---------- Retries are bounded by the others' successes ----------

  // Starts by tasks other than this one in history[from..to].
  function WinsOfOthers(history: seq<Event>, from: nat, to: nat, task: int): nat
    requires to <= |history|
  {
    if to <= from then 0
    else
      WinsOfOthers(history, from, to - 1, task)
      + if history[to - 1].Start? && history[to - 1].task != task then 1 else 0
  }

  ghost predicate Counted(s: State, task: int) {
    match PhaseOf(s, task)
    case Looping(fails, since) =>
      && since <= |s.history| && NoneOwn(s.history, since, task)
      && fails <= WinsOfOthers(s.history, since, |s.history|, task)
    case Candidate(fails, since, readAt, jid, seen, _) =>
      && since <= readAt <= |s.history| && NoneOwn(s.history, since, task)
      && fails <= WinsOfOthers(s.history, since, readAt, task)
      && jid in s.jobs
      && (s.jobs[jid].version == seen.version || 1 <= WinsOfOthers(s.history, readAt, |s.history|, task))
    case _ => true
  }

  lemma {:induction false} WinsExtend(h: seq<Event>, more: seq<Event>, from: nat, to: nat, task: int)
    requires to <= |h| <= |more| && h == more[..|h|]
    ensures WinsOfOthers(more, from, to, task) == WinsOfOthers(h, from, to, task)
    ensures WinsOfOthers(more, from, to, task) <= WinsOfOthers(more, from, |more|, task)
  {
    if to > from {
      WinsExtend(h, more, from, to - 1, task);
    }
    WinsGrow(more, from, to, |more|, task);
  }

  lemma {:induction false} WinsGrow(h: seq<Event>, from: nat, m: nat, n: nat, task: int)
    requires m <= n <= |h|
    ensures WinsOfOthers(h, from, m, task) <= WinsOfOthers(h, from, n, task)
  {
    if m < n {
      WinsGrow(h, from, m, n - 1, task);
    }
  }

  lemma {:induction false} HistoryGrows(s: State, steps: seq<Step>)
    ensures |s.history| <= |After(s, steps).history| && After(s, steps).history[..|s.history|] == s.history
    decreases |steps|
  {
    if steps != [] {
      NextGrows(s, steps[0]);
      hide Next;
      HistoryGrows(Next(s, steps[0]), steps[1..]);
      var h, mid, end := s.history, Next(s, steps[0]).history, After(s, steps).history;
      assert end[..|h|] == end[..|mid|][..|h|];
    }
  }

  lemma NextGrows(s: State, step: Step)
    ensures |s.history| <= |Next(s, step).history| && Next(s, step).history[..|s.history|] == s.history
  {
    hide FirstEligible;
  }

  ghost predicate NoneOwn(history: seq<Event>, since: nat, task: int) {
    forall i :: since <= i < |history| && history[i].Start? ==> history[i].task != task
  }

  lemma {:induction false} WinsAppend(h: seq<Event>, e: Event, from: nat, to: nat, task: int)
    requires to <= |h|
    ensures WinsOfOthers(h + [e], from, to, task) == WinsOfOthers(h, from, to, task)
  {
    if to > from {
      WinsAppend(h, e, from, to - 1, task);
    }
  }

  lemma {:induction false} WinsSplit(h: seq<Event>, from: nat, mid: nat, to: nat, task: int)
    requires from <= mid <= to <= |h|
    ensures WinsOfOthers(h, from, to, task) == WinsOfOthers(h, from, mid, task) + WinsOfOthers(h, mid, to, task)
  {
    if to > mid {
      WinsSplit(h, from, mid, to - 1, task);
    }
  }

  lemma CountedGrows(s: State, s': State, e: Event, task: int)
    requires Counted(s, task) && PhaseOf(s', task) == PhaseOf(s, task)
    requires s'.history == s.history + [e] && (e.Start? ==> e.task != task)
    requires forall jid :: jid in s.jobs ==> jid in s'.jobs
    requires forall jid :: jid in s.jobs && s'.jobs[jid].version != s.jobs[jid].version ==> e.Start?
    ensures Counted(s', task)
  {
    var p := PhaseOf(s, task);
    if p.Looping? {
      WinsAppend(s.history, e, p.since, |s.history|, task);
    } else if p.Candidate? {
      WinsAppend(s.history, e, p.since, p.readAt, task);
      WinsAppend(s.history, e, p.readAt, |s.history|, task);
    }
  }

  lemma OtherStepKeepsCounted(s: State, step: Step, task: int)
    requires Inv(s) && Counted(s, task) && ByOthers(step, task)
    ensures Counted(Next(s, step), task)
  {
    hide Inv, FirstEligible, WinsOfOthers, NoneOwn;
    var s' := Next(s, step);
    if |s'.history| > |s.history| {
      assert s'.history == s.history + [s'.history[|s.history|]];
      CountedGrows(s, s', s'.history[|s.history|], task);
    }
  }

  lemma OwnStepKeepsCounted(s: State, step: Step, task: int)
    requires Inv(s) && Counted(s, task) && !ByOthers(step, task)
    ensures Counted(Next(s, step), task)
  {
    var p := PhaseOf(s, task);
    if step.Cas? && p.Candidate? {
      WinsSplit(s.history, p.since, p.readAt, |s.history|, task);
    }
  }

  /** Every failed compare-and-set of one Preempt call is matched by a start some other
      task won during that call, so its retries never outnumber the others' successes. */
  lemma PreemptProgress(jobs: Jobs, clock: int, steps: seq<Step>, task: int)
    ensures var s := After(Start0(jobs, clock), steps);
            var p := PhaseOf(s, task);
            p.Looping? || p.Candidate? ==>
              p.since <= |s.history| && p.fails <= WinsOfOthers(s.history, p.since, |s.history|, task)
  {
    InvStart(jobs, clock);
    StaysCounted(Start0(jobs, clock), steps, task);
    var s := After(Start0(jobs, clock), steps);
    var p := PhaseOf(s, task);
    if p.Candidate? {
      WinsSplit(s.history, p.since, p.readAt, |s.history|, task);
    }
  }

  lemma {:induction false} StaysCounted(s: State, steps: seq<Step>, task: int)
    requires Inv(s) && Counted(s, task)
    ensures Counted(After(s, steps), task)
    decreases |steps|
  {
    if steps != [] {
      hide Inv, Next, Counted, ByOthers;
      StepKeeps(s, steps[0]);
      if ByOthers(steps[0], task) {
        OtherStepKeepsCounted(s, steps[0], task);
      } else {
        OwnStepKeepsCounted(s, steps[0], task);
      }
      StaysCounted(Next(s, steps[0]), steps[1..], task);
    }
  }

  // ---------- The access object ----------

  class GORMJobDAO {
    var jobs: Jobs

    constructor (jobs: Jobs)
      ensures this.jobs == jobs
    {
      this.jobs := jobs;
    }

    // The read of one Preempt round.
    method FindDue(now: int, dbOk: bool) returns (ok: bool, found: Option<int>)
      ensures ok <==> dbOk
      ensures found == if ok then FirstEligible(jobs, now) else None
    {
      ok, found := dbOk, if dbOk then FirstEligible(jobs, now) else None;
    }

    // Its update, by the row read.
    method Take(id: int, seen: Job, now: int, dbOk: bool) returns (ok: bool, rowsAffected: nat)
      modifies this
      ensures ok <==> dbOk
      ensures rowsAffected == if ok && CasHits(old(jobs), id, seen.version) then 1 else 0
      ensures jobs == if rowsAffected == 1 then Taken(old(jobs), id, now) else old(jobs)
      ensures rowsAffected == 1 <==> ok && id in old(jobs) && old(jobs)[id].version == seen.version
      ensures rowsAffected == 1 ==>
        jobs == old(jobs)[id := old(jobs)[id].(status := Running, version := seen.version + 1, utime := now)]
    {
      ok, rowsAffected := dbOk, 0;
      if dbOk && id in jobs && jobs[id].version == seen.version {
        jobs := jobs[id := jobs[id].(status := Running, version := seen.version + 1, utime := now)];
        rowsAffected := 1;
      }
    }

    // Whoever calls it and whatever the row's status.
    method Release(id: int, now: int, dbOk: bool) returns (ok: bool)
      modifies this
      ensures ok <==> dbOk
      ensures jobs == if ok then Released(old(jobs), id, now) else old(jobs)
      ensures ok && id in old(jobs) ==> jobs == old(jobs)[id := old(jobs)[id].(status := Waiting, utime := now)]
    {
      if dbOk && id in jobs {
        jobs := jobs[id := jobs[id].(status := Waiting, utime := now)];
      }
      ok := dbOk;
    }

    method UpdateUtime(id: int, now: int, dbOk: bool) returns (ok: bool)
      modifies this
      ensures ok <==> dbOk
      ensures jobs == if ok then Refreshed(old(jobs), id, now) else old(jobs)
      ensures ok && id in old(jobs) ==> jobs == old(jobs)[id := old(jobs)[id].(utime := now)]
    {
      if dbOk && id in jobs {
        jobs := jobs[id := jobs[id].(utime := now)];
      }
      ok := dbOk;
    }

    method UpdateNextTime(id: int, to: int, now: int, dbOk: bool) returns (ok: bool)
      modifies this
      ensures ok <==> dbOk
      ensures jobs == if ok then Rescheduled(old(jobs), id, to, now) else old(jobs)
      ensures ok && id in old(jobs) ==> jobs == old(jobs)[id := old(jobs)[id].(nextTime := to, utime := now)]
    {
      if dbOk && id in jobs {
        jobs := jobs[id := jobs[id].(utime := now, nextTime := to)];
      }
      ok := dbOk;
    }
  }

  // ---------- The loops the nodes run ----------

  lemma {:induction false} AfterAppend(s: State, steps: seq<Step>, step: Step)
    ensures After(s, steps + [step]) == Next(After(s, steps), step)
    decreases |steps|
  {
    if steps != [] {
      assert (steps + [step])[1..] == steps[1..] + [step];
      AfterAppend(Next(s, steps[0]), steps[1..], step);
    } else {
      assert [step][1..] == [];
    }
  }

  lemma {:induction false} AfterConcat(s: State, a: seq<Step>, b: seq<Step>)
    ensures After(s, a + b) == After(After(s, a), b)
    decreases |a|
  {
    if a == [] {
      assert a + b == b;
    } else {
      assert (a + b)[1..] == a[1..] + b;
      AfterConcat(Next(s, a[0]), a[1..], b);
    }
  }

  // Which request of a round the database fails.
  datatype Fault = NoFault | ReadFails | UpdateFails

  // How a round ends: a job won, lost to another node, none due, or an error returned.
  datatype Try = Won(jid: int) | Retry | NoJob | ReadError | UpdateError

  // The steps of a round, with those the others take between its read and its update.
  function TrySteps(task: int, between: seq<Step>, t: Try): seq<Step> {
    match t
    case Won(_) => [Read(task)] + between + [Cas(task)]
    case Retry => [Read(task)] + between + [Cas(task)]
    case NoJob => [Read(task)]
    case ReadError => [Crash(task)]
    case UpdateError => [Read(task)] + between + [Crash(task)]
  }

  function Between(others: seq<seq<Step>>, round: nat): seq<Step> {
    if round < |others| then others[round] else []
  }

  // A Preempt call: some lost rounds, and the last one.
  function Rounds(task: int, others: seq<seq<Step>>, n: nat): seq<Step> {
    if n == 0 then [BeginPreempt(task)]
    else Rounds(task, others, n - 1) + TrySteps(task, Between(others, n - 1), Retry)
  }

  function PreemptRun(task: int, others: seq<seq<Step>>, retries: nat, last: Try): seq<Step> {
    if last.Retry? then Rounds(task, others, retries)
    else Rounds(task, others, retries) + TrySteps(task, Between(others, retries), last)
  }

  lemma RunNext(task: int, others: seq<seq<Step>>, n: nat, t: Try)
    ensures PreemptRun(task, others, n, Retry) + TrySteps(task, Between(others, n), t) ==
            if t.Retry? then PreemptRun(task, others, n + 1, Retry) else PreemptRun(task, others, n, t)
  {
  }

  // The job table, the clock and the goroutines, all changed in place.
  class Cluster {
    const dao: GORMJobDAO
    var clock: int
    var tasks: map<int, Phase>
    var orphans: set<int>
    var history: seq<Event>

    function S(): State
      reads this, dao
    {
      State(dao.jobs, clock, tasks, orphans, history)
    }

    constructor (jobs: Jobs, clock: int)
      ensures fresh(dao) && S() == Start0(jobs, clock)
    {
      dao := new GORMJobDAO(jobs);
      this.clock, tasks, history := clock, map[], [];
      orphans := set id | id in jobs && jobs[id].status == Running;
    }

    // Whatever the other goroutines and the clock do in between.
    method Others(steps: seq<Step>)
      modifies this, dao
      ensures S() == After(old(S()), steps)
    {
      var now := After(S(), steps);
      dao.jobs, clock, tasks, orphans, history := now.jobs, now.clock, now.tasks, now.orphans, now.history;
    }

    /** GORMJobDAO.Preempt: read, then compare and set, until a job is won, none is due or a
        request fails. others are the steps the rest of the cluster takes between each read
        and its update: a round is lost only if there are some. */
    method Preempt(task: int, others: seq<seq<Step>>, fault: nat -> Fault) returns (last: Try, retries: nat)
      requires Inv(S()) && PhaseOf(S(), task).Idle?
      requires forall i, step :: 0 <= i < |others| && step in others[i] ==> ByOthers(step, task)
      modifies this, dao
      ensures S() == After(old(S()), PreemptRun(task, others, retries, last)) && Inv(S()) && last != Retry
      ensures forall i: nat :: i < retries ==> Between(others, i) != []
      ensures retries <= WinsOfOthers(history, |old(history)|, |history|, task)
      ensures last.Won? ==> PhaseOf(S(), task) == Holding(last.jid) && last.jid in dao.jobs
      ensures !last.Won? ==> PhaseOf(S(), task).Idle?
      ensures last.NoJob? ==> FirstEligible(dao.jobs, clock).None?
      ensures last.ReadError? <==> fault(retries) == ReadFails
      ensures last.UpdateError? ==> fault(retries) == UpdateFails
    {
      hide Inv, FirstEligible, ByOthers, PreemptRun, TrySteps, Between, Next, After, PhaseOf, Counted, WinsOfOthers;
      ghost var start := S();
      StepKeeps(S(), BeginPreempt(task));
      Begun(S(), task, others);
      tasks := tasks[task := Looping(0, |history|)];
      retries, last := 0, Retry;
      while last.Retry?
        invariant S() == After(start, PreemptRun(task, others, retries, last)) && Inv(S())
        invariant forall i: nat :: i < retries ==> Between(others, i) != []
        invariant retries <= WinsOfOthers(history, |start.history|, |history|, task)
        invariant last.Retry? ==>
          PhaseOf(S(), task) == Looping(retries, |start.history|) && Counted(S(), task) && retries <= |others|
        invariant last.Won? ==> PhaseOf(S(), task) == Holding(last.jid) && last.jid in dao.jobs
        invariant !last.Won? && !last.Retry? ==> PhaseOf(S(), task).Idle?
        invariant last.NoJob? ==> FirstEligible(dao.jobs, clock).None?
        invariant !last.Retry? ==> (last.ReadError? <==> fault(retries) == ReadFails)
        invariant last.UpdateError? ==> fault(retries) == UpdateFails
        decreases last.Retry?, |others| - retries
      {
        BetweenByOthers(others, retries, task);
        ghost var before := S();
        last := Attempt(task, Between(others, retries), fault(retries));
        StaysCounted(before, TrySteps(task, Between(others, retries), last), task);
        HistoryGrows(before, TrySteps(task, Between(others, retries), last));
        WinsExtend(before.history, history, |start.history|, |before.history|, task);
        RunNext(task, others, retries, last);
        AfterConcat(start, PreemptRun(task, others, retries, Retry), TrySteps(task, Between(others, retries), last));
        if last.Retry? {
          LoopingCounted(S(), task, retries + 1, |start.history|);
          SomeBetween(others, retries);
          retries := retries + 1;
        }
      }
    }

    // One read and the update after it, if there is anything to update.
    method Attempt(task: int, between: seq<Step>, fault: Fault) returns (t: Try)
      requires Inv(S()) && PhaseOf(S(), task).Looping?
      requires forall step :: step in between ==> ByOthers(step, task)
      modifies this, dao
      ensures S() == After(old(S()), TrySteps(task, between, t)) && Inv(S())
      ensures t.Won? ==> PhaseOf(S(), task) == Holding(t.jid) && t.jid in dao.jobs
      ensures !t.Won? && !t.Retry? ==> PhaseOf(S(), task).Idle?
      ensures t.NoJob? ==> FirstEligible(dao.jobs, clock).None?
      ensures t.Retry? ==>
        && between != []
        && PhaseOf(S(), task) == Looping(old(PhaseOf(S(), task).fails) + 1, old(PhaseOf(S(), task).since))
      ensures (t.ReadError? <==> fault == ReadFails) && (t.UpdateError? ==> fault == UpdateFails)
    {
      hide Inv, FirstEligible, ByOthers;
      ghost var start := S();
      var now := clock;
      var ok, j := dao.FindDue(now, fault != ReadFails);
      if !ok {
        StepKeeps(S(), Crash(task));
        AfterAppend(start, [], Crash(task));
        tasks := tasks[task := Idle];
        return ReadError;
      }
      StepKeeps(S(), Read(task));
      AfterAppend(start, [], Read(task));
      if j.None? {
        tasks := tasks[task := Idle];
        return NoJob;
      }
      var p := tasks[task];
      var seen := dao.jobs[j.value];
      tasks := tasks[task := Candidate(p.fails, p.since, |history|, j.value, seen, now)];
      CandidateWaits(S(), between, task);
      InvHolds(S(), between);
      AfterConcat(start, [Read(task)], between);
      Others(between);
      t := Update(task, j.value, seen, fault);
      AfterAppend(start, [Read(task)] + between, if t.UpdateError? then Crash(task) else Cas(task));
    }

    // The update of a round.
    method Update(task: int, jid: int, seen: Job, fault: Fault) returns (t: Try)
      requires Inv(S()) && PhaseOf(S(), task).Candidate? && fault != ReadFails
      requires PhaseOf(S(), task).jid == jid && PhaseOf(S(), task).seen == seen
      modifies this`tasks, this`history, dao
      ensures Inv(S()) && clock == old(clock)
      ensures t.Won? || t.Retry? || t.UpdateError?
      ensures S() == Next(old(S()), if t.UpdateError? then Crash(task) else Cas(task))
      ensures t.Won? ==> PhaseOf(S(), task) == Holding(t.jid) && t.jid in dao.jobs
      ensures t.Retry? ==>
        && !CasHits(old(dao.jobs), jid, seen.version)
        && PhaseOf(S(), task) == Looping(old(PhaseOf(S(), task).fails) + 1, old(PhaseOf(S(), task).since))
      ensures t.UpdateError? ==> PhaseOf(S(), task).Idle? && fault == UpdateFails
    {
      hide Inv;
      StepKeeps(S(), Crash(task));
      StepKeeps(S(), Cas(task));
      var p := tasks[task];
      var due := if jid in dao.jobs then dao.jobs[jid].nextTime else 0;
      var ok, rows := dao.Take(jid, seen, p.now, fault != UpdateFails);
      if !ok {
        tasks := tasks[task := Idle];
        t := UpdateError;
      } else if rows == 0 {
        tasks := tasks[task := Looping(p.fails + 1, p.since)];
        t := Retry;
      } else {
        history := history + [Start(task, jid, seen.version + 1, clock, due)];
        tasks := tasks[task := Holding(jid)];
        t := Won(jid);
      }
    }

    /** The goroutine that runs a job it holds: execute, reset the next time if that
        succeeded, and only then release. The row it leaves is due at the new time if the
        reset landed and as before if not, and Waiting unless the release failed, whatever the
        others did meanwhile. */
    method RunHeld(task: int, succeeds: bool, nextTime: int, resetOk: bool, releaseOk: bool,
                   during: seq<Step>, between: seq<Step>)
      requires Inv(S()) && PhaseOf(S(), task).Holding?
      requires forall step :: step in during || step in between ==> ByOthers(step, task)
      modifies this, dao
      ensures S() == After(old(S()), HeldRun(task, succeeds && resetOk, nextTime, releaseOk, during, between))
      ensures Inv(S()) && PhaseOf(S(), task).Idle?
      ensures var jid := PhaseOf(old(S()), task).jid;
              && jid in old(dao.jobs) && jid in dao.jobs
              && dao.jobs[jid].status == (if releaseOk then Waiting else old(dao.jobs)[jid].status)
              && dao.jobs[jid].version == old(dao.jobs)[jid].version
              && dao.jobs[jid].nextTime == if succeeds && resetOk then nextTime else old(dao.jobs)[jid].nextTime
    {
      hide Inv, ByOthers;
      ghost var start := S();
      var jid := tasks[task].jid;
      HeldRowIsPrivate(S(), during, task, jid);
      InvHolds(S(), during);
      Others(during);
      AfterAppend(start, during, ResetOf(task, succeeds && resetOk, nextTime));
      FinishRun(task, jid, succeeds, nextTime, resetOk);
      HeldRowIsPrivate(S(), between, task, jid);
      InvHolds(S(), between);
      AfterConcat(start, during + [ResetOf(task, succeeds && resetOk, nextTime)], between);
      Others(between);
      AfterAppend(start, during + [ResetOf(task, succeeds && resetOk, nextTime)] + between,
                  if releaseOk then Release(task) else Crash(task));
      LetGo(task, jid, releaseOk);
    }

    // ResetNextTime after a run that succeeded.
    method FinishRun(task: int, jid: int, succeeds: bool, nextTime: int, resetOk: bool)
      requires Inv(S()) && PhaseOf(S(), task) == Holding(jid)
      modifies this`tasks, this`history, dao
      ensures Inv(S()) && PhaseOf(S(), task) == Releasing(jid)
      ensures S() == Next(old(S()), ResetOf(task, succeeds && resetOk, nextTime))
      ensures var before := old(dao.jobs);
              jid in before
              && dao.jobs == if succeeds && resetOk then Rescheduled(before, jid, nextTime, clock) else before
    {
      StepKeeps(S(), ResetOf(task, succeeds && resetOk, nextTime));
      assert Holds(S(), task, jid);
      hide Inv;
      if succeeds {
        var ok := dao.UpdateNextTime(jid, nextTime, clock, resetOk);
        if ok {
          history := history + [Reset(task, jid, nextTime)];
        }
      }
      tasks := tasks[task := Releasing(jid)];
    }

    // CancelFunc; a release that fails orphans the row.
    method LetGo(task: int, jid: int, releaseOk: bool)
      requires Inv(S()) && PhaseOf(S(), task) == Releasing(jid)
      modifies this`tasks, this`orphans, dao
      ensures Inv(S()) && PhaseOf(S(), task).Idle?
      ensures S() == Next(old(S()), if releaseOk then Release(task) else Crash(task))
      ensures dao.jobs == if releaseOk then Released(old(dao.jobs), jid, clock) else old(dao.jobs)
    {
      StepKeeps(S(), if releaseOk then Release(task) else Crash(task));
      hide Inv;
      var ok := dao.Release(jid, clock, releaseOk);
      if !ok {
        orphans := orphans + {jid};
      }
      tasks := tasks[task := Idle];
    }
  }

  function ResetOf(task: int, lands: bool, nextTime: int): Step {
    if lands then ResetNextTime(task, nextTime) else RunFailed(task)
  }

  // The steps of a held run and those of the others around its reset.
  function HeldRun(task: int, lands: bool, nextTime: int, releaseOk: bool,
                   during: seq<Step>, between: seq<Step>): seq<Step>
  {
    during + [ResetOf(task, lands, nextTime)] + between + [if releaseOk then Release(task) else Crash(task)]
  }

  lemma Begun(s: State, task: int, others: seq<seq<Step>>)
    requires PhaseOf(s, task).Idle?
    ensures After(s, PreemptRun(task, others, 0, Retry)) == Move(s, task, Looping(0, |s.history|))
            == Next(s, BeginPreempt(task)) == s.(tasks := s.tasks[task := Looping(0, |s.history|)])
    ensures PhaseOf(Move(s, task, Looping(0, |s.history|)), task) == Looping(0, |s.history|)
    ensures Counted(Move(s, task, Looping(0, |s.history|)), task)
    ensures WinsOfOthers(s.history, |s.history|, |s.history|, task) == 0
  {
    AfterAppend(s, [], BeginPreempt(task));
  }

  lemma LoopingCounted(s: State, task: int, fails: nat, since: nat)
    requires Counted(s, task) && PhaseOf(s, task) == Looping(fails, since)
    ensures since <= |s.history| && fails <= WinsOfOthers(s.history, since, |s.history|, task)
  {
  }

  lemma BetweenByOthers(others: seq<seq<Step>>, round: nat, task: int)
    requires forall i, step :: 0 <= i < |others| && step in others[i] ==> ByOthers(step, task)
    ensures forall step :: step in Between(others, round) ==> ByOthers(step, task)
  {
  }

  lemma SomeBetween(others: seq<seq<Step>>, round: nat)
    requires Between(others, round) != []
    ensures round < |others|
  {
  }

  lemma {:induction false} CandidateWaits(s: State, steps: seq<Step>, task: int)
    requires forall step :: step in steps ==> ByOthers(step, task)
    ensures PhaseOf(After(s, steps), task) == PhaseOf(s, task)
    decreases |steps|
  {
    if steps != [] {
      assert steps[0] in steps;
      CandidateWaits(Next(s, steps[0]), steps[1..], task);
    }
  }
}
