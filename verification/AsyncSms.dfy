/** Asynchronous SMS sending: nodes take a waiting message by touching its update time,
    which keeps the others off it for a minute, send it, and report the result. */
module AsyncSms {
  import opened Tables

  datatype Status = Waiting | Failed | Success

  datatype Sms = Sms(retryCnt: int, retryMax: int, status: Status, utime: int)

  type Messages = map<int, Sms>

  // time.Minute in milliseconds.
  const LEASE := 60000

  // Send stores messages with this many retries.
  const RETRY_MAX := 3

  // ---------- The statements of the message table ----------

  // WHERE utime < now - 1 minute AND status = waiting, first by primary key.
  function FirstWaiting(rows: Messages, now: int): (r: Option<int>)
    ensures r.Some? ==> r.value in rows && rows[r.value].status == Waiting && rows[r.value].utime < now - LEASE
    ensures r.Some? ==>
      forall id :: id in rows && rows[id].status == Waiting && rows[id].utime < now - LEASE ==> r.value <= id
    ensures r.None? ==> forall id :: id in rows ==> rows[id].status != Waiting || rows[id].utime >= now - LEASE
  {
    var ids := set id | id in rows && rows[id].status == Waiting && rows[id].utime < now - LEASE;
    assert forall id :: id in rows && rows[id].status == Waiting && rows[id].utime < now - LEASE ==> id in ids;
    if ids == {} then None else Some(Min(ids))
  }

  function Touched(rows: Messages, id: int, now: int): Messages
    requires id in rows
  {
    rows[id := rows[id].(retryCnt := rows[id].retryCnt + 1, utime := now)]
  }

  // MarkSuccess looks at the id alone; MarkFailed also at the retry count.
  function Marked(rows: Messages, id: int, success: bool, now: int): Messages {
    if id !in rows then rows
    else if success then rows[id := rows[id].(status := Success, utime := now)]
    else if rows[id].retryCnt >= rows[id].retryMax then rows[id := rows[id].(status := Failed, utime := now)]
    else rows
  }

  // ---------- The protocol ----------

  datatype Event =
    | Preempted(task: int, id: int, at: int)
    | Reported(task: int, id: int, success: bool, late: bool)
    | ReportLost(task: int, id: int)

  // An attempt in flight: the message and when it was taken.
  datatype Attempt = Attempt(id: int, at: int)

  datatype State = State(rows: Messages, clock: int, flights: map<int, Attempt>, history: seq<Event>)

  datatype Step =
    | Tick(to: int)
    | Add(id: int, retryMax: int)
    | Preempt(task: int)
    | Report(task: int, success: bool)
    | LoseReport(task: int)    // the node died, or its report did not reach the database

  function PreemptStep(s: State, task: int): State {
    var found := FirstWaiting(s.rows, s.clock);
    if task in s.flights || found.None? then s
    else
      s.(rows := Touched(s.rows, found.value, s.clock),
         flights := s.flights[task := Attempt(found.value, s.clock)],
         history := s.history + [Preempted(task, found.value, s.clock)])
  }

  // Whether an attempt in flight has outlived its lease.
  predicate PastLease(s: State, task: int)
    requires task in s.flights
  {
    s.clock > s.flights[task].at + LEASE
  }

  function ReportStep(s: State, task: int, success: bool): State {
    if task !in s.flights then s
    else
      var id := s.flights[task].id;
      s.(rows := Marked(s.rows, id, success, s.clock), flights := s.flights - {task},
         history := s.history + [Reported(task, id, success, PastLease(s, task))])
  }

  function LoseStep(s: State, task: int): State {
    if task !in s.flights then s
    else s.(flights := s.flights - {task}, history := s.history + [ReportLost(task, s.flights[task].id)])
  }

  // A step that is not enabled changes nothing. A new message's update time is zero.
  function Next(s: State, step: Step): State {
    match step
    case Tick(to) => if to >= s.clock then s.(clock := to) else s
    case Add(id, max) => if id in s.rows then s else s.(rows := s.rows[id := Sms(0, max, Waiting, 0)])
    case Preempt(t) => PreemptStep(s, t)
    case Report(t, success) => ReportStep(s, t, success)
    case LoseReport(t) => LoseStep(s, t)
  }

  function After(s: State, steps: seq<Step>): State
    decreases |steps|
  {
    if steps == [] then s else After(Next(s, steps[0]), steps[1..])
  }

  function Empty(clock: int): State {
    State(map[], clock, map[], [])
  }

  // ---------- Two preemptions are more than a lease apart ----------

  ghost predicate SpacedApart(history: seq<Event>) {
    forall i, j :: 0 <= i < j < |history| ==> Spaced(history[i], history[j])
  }

  ghost predicate Spaced(earlier: Event, later: Event) {
    earlier.Preempted? && later.Preempted? && earlier.id == later.id ==> later.at > earlier.at + LEASE
  }

  ghost predicate Touches(s: State, e: Event) {
    e.id in s.rows && (e.Preempted? ==> e.at <= s.clock && e.at <= s.rows[e.id].utime)
  }

  ghost predicate Spacing(s: State) {
    && SpacedApart(s.history)
    && (forall e :: e in s.history ==> Touches(s, e))
    && (forall t :: t in s.flights ==> s.flights[t].id in s.rows)
  }

  lemma StepKeepsSpacing(s: State, step: Step)
    requires Spacing(s)
    ensures Spacing(Next(s, step))
  {
    var s' := Next(s, step);
    forall e | e in s.history ensures Touches(s', e) {
      assert Touches(s, e);
    }
    if |s'.history| > |s.history| {
      var last := s'.history[|s.history|];
      forall i | 0 <= i < |s.history| ensures Spaced(s'.history[i], last) {
        assert s.history[i] in s.history && Touches(s, s.history[i]);
      }
    }
  }

  lemma {:induction false} SpacingHolds(s: State, steps: seq<Step>)
    requires Spacing(s)
    ensures Spacing(After(s, steps))
    decreases |steps|
  {
    if steps != [] {
      hide Spacing, Next;
      StepKeepsSpacing(s, steps[0]);
      SpacingHolds(Next(s, steps[0]), steps[1..]);
    }
  }

  /** Whatever the nodes do and however late they report, two preemptions of one message
      are more than a minute apart. */
  lemma LeaseSpacing(clock: int, steps: seq<Step>)
    ensures var h := After(Empty(clock), steps).history;
            forall i, j :: 0 <= i < j < |h| && h[i].Preempted? && h[j].Preempted? && h[i].id == h[j].id ==>
              h[j].at > h[i].at + 60000
  {
    SpacingHolds(Empty(clock), steps);
    var h := After(Empty(clock), steps).history;
    forall i, j | 0 <= i < j < |h| && h[i].Preempted? && h[j].Preempted? && h[i].id == h[j].id
      ensures h[j].at > h[i].at + 60000
    {
      assert Spaced(h[i], h[j]);
    }
  }

  /** Read off the rows: a step that counts a try of a message finds it waiting and untouched for
      more than a minute, touches it at the clock, and records just that. */
  lemma TriesAreRecorded(s: State, step: Step, id: int)
    requires id in s.rows
    ensures var s', row := Next(s, step), s.rows[id];
            && id in s'.rows && s'.rows[id].retryMax == row.retryMax
            && (s'.rows[id].retryCnt != row.retryCnt ==>
                  && step.Preempt? && step.task !in s.flights
                  && row.status == Waiting && row.utime < s.clock - 60000
                  && s'.rows[id] == row.(retryCnt := row.retryCnt + 1, utime := s.clock)
                  && s'.history == s.history + [Preempted(step.task, id, s.clock)]
                  && s'.flights == s.flights[step.task := Attempt(id, s.clock)])
  {
  }

  // ---------- Attempts are bounded in every run ----------

  function Max(a: int, b: int): int {
    if a > b then a else b
  }

  function Attempts(history: seq<Event>, id: int): nat {
    if history == [] then 0
    else
      var last := history[|history| - 1];
      Attempts(history[..|history| - 1], id) + if last.Preempted? && last.id == id then 1 else 0
  }

  function Losses(history: seq<Event>, id: int): nat {
    if history == [] then 0
    else
      var last := history[|history| - 1];
      Losses(history[..|history| - 1], id) + if last.ReportLost? && last.id == id then 1 else 0
  }

  function LateReports(history: seq<Event>, id: int): nat {
    if history == [] then 0
    else
      var last := history[|history| - 1];
      LateReports(history[..|history| - 1], id) + if last.Reported? && last.late && last.id == id then 1 else 0
  }

  // Attempts whose result came to nothing, or came too late.
  function Spoilt(history: seq<Event>, id: int): nat {
    Losses(history, id) + LateReports(history, id)
  }

  function Flying(s: State, id: int): set<int> {
    set t | t in s.flights && s.flights[t].id == id
  }

  function Overdue(s: State, id: int): set<int> {
    set t | t in s.flights && s.flights[t].id == id && PastLease(s, t)
  }

  // An attempt in flight within its lease.
  ghost predicate OnTime(s: State, task: int, id: int) {
    task in s.flights && s.flights[task].id == id && !PastLease(s, task)
  }

  ghost predicate OneOnTime(s: State, id: int) {
    forall a, b :: OnTime(s, a, id) && OnTime(s, b, id) ==> a == b
  }

  // A message in flight has been touched since it was taken.
  ghost predicate Claimed(s: State, task: int) {
    task in s.flights ==>
      var a := s.flights[task];
      a.id in s.rows && a.at <= s.rows[a.id].utime && a.at <= s.clock
  }

  // Of a waiting message, one attempt of its allowance is still to come unless some are in
  // flight or came to nothing; of a settled one, none is left over.
  ghost predicate Bounded(s: State, id: int) {
    id in s.rows ==>
      var attempts, max := Attempts(s.history, id), Max(1, s.rows[id].retryMax);
      && s.rows[id].retryCnt == attempts
      && attempts <= max + Spoilt(s.history, id) + |Overdue(s, id)|
      && (s.rows[id].status == Waiting ==> attempts <= max - 1 + Spoilt(s.history, id) + |Flying(s, id)|)
  }

  ghost predicate Known(s: State) {
    forall e :: e in s.history ==> e.id in s.rows
  }

  ghost predicate Inv(s: State) {
    && Known(s)
    && (forall t :: Claimed(s, t))
    && (forall id :: OneOnTime(s, id))
    && (forall id :: Bounded(s, id))
  }

  lemma {:induction false} UnknownUncounted(history: seq<Event>, id: int)
    requires forall e :: e in history ==> e.id != id
    ensures Attempts(history, id) == 0 && Spoilt(history, id) == 0
  {
    if history != [] {
      assert history[|history| - 1] in history;
      UnknownUncounted(history[..|history| - 1], id);
    }
  }

  lemma CountAppend(history: seq<Event>, e: Event, id: int)
    ensures Attempts(history + [e], id) == Attempts(history, id) + if e.Preempted? && e.id == id then 1 else 0
    ensures Spoilt(history + [e], id) ==
            Spoilt(history, id) + if e.id == id && (e.ReportLost? || (e.Reported? && e.late)) then 1 else 0
  {
    assert (history + [e])[..|history|] == history;
  }

  // At most one attempt in flight is not overdue.
  lemma FlyingOrOverdue(s: State, id: int)
    requires OneOnTime(s, id)
    ensures |Overdue(s, id)| <= |Flying(s, id)| <= |Overdue(s, id)| + 1
    ensures (forall t :: !OnTime(s, t, id)) ==> Flying(s, id) == Overdue(s, id)
  {
    var flying, overdue := Flying(s, id), Overdue(s, id);
    forall t | t in flying ensures t in overdue || OnTime(s, t, id) {
    }
    if t :| OnTime(s, t, id) {
      assert flying == overdue + {t};
    } else {
      assert flying == overdue;
    }
  }

  lemma TickKeeps(s: State, to: int)
    requires Inv(s) && to >= s.clock
    ensures Inv(s.(clock := to))
  {
    var s' := s.(clock := to);
    forall t ensures Claimed(s', t) {
      assert Claimed(s, t);
    }
    forall id ensures OneOnTime(s', id) && Bounded(s', id) {
      assert Bounded(s, id) && OneOnTime(s, id);
      assert forall t :: OnTime(s', t, id) ==> OnTime(s, t, id);
      assert Flying(s', id) == Flying(s, id);
      SubsetCard(Overdue(s, id), Overdue(s', id));
    }
  }

  lemma AddKeeps(s: State, id: int, max: int)
    requires Inv(s) && id !in s.rows
    ensures Inv(Next(s, Add(id, max)))
  {
    var s' := Next(s, Add(id, max));
    UnknownUncounted(s.history, id);
    forall t ensures Claimed(s', t) {
      assert Claimed(s, t);
    }
    forall other ensures OneOnTime(s', other) && Bounded(s', other) {
      assert Bounded(s, other) && OneOnTime(s, other);
      assert Flying(s', other) == Flying(s, other) && Overdue(s', other) == Overdue(s, other);
      assert forall t :: OnTime(s', t, other) <==> OnTime(s, t, other);
    }
  }

  // Every attempt still in flight on a message being taken is overdue.
  lemma TakenOnceOverdue(s: State, id: int)
    requires Inv(s) && id in s.rows && s.rows[id].utime < s.clock - LEASE
    ensures forall t :: !OnTime(s, t, id)
  {
    forall t ensures !OnTime(s, t, id) {
      assert Claimed(s, t);
    }
  }

  lemma PreemptKeeps(s: State, task: int)
    requires Inv(s) && task !in s.flights && FirstWaiting(s.rows, s.clock).Some?
    ensures Inv(PreemptStep(s, task))
  {
    var s', id := PreemptStep(s, task), FirstWaiting(s.rows, s.clock).value;
    TakenOnceOverdue(s, id);
    forall t ensures Claimed(s', t) {
      assert Claimed(s, t);
    }
    hide FirstWaiting;
    forall other ensures OneOnTime(s', other) && Bounded(s', other) {
      PreemptKeepsOne(s, s', task, id, other);
    }
  }

  lemma PreemptFlights(s: State, s': State, task: int, id: int, other: int)
    requires task !in s.flights && s'.clock == s.clock
    requires s'.flights == s.flights[task := Attempt(id, s.clock)]
    ensures forall t :: OnTime(s', t, other) <==> OnTime(s, t, other) || (t == task && other == id)
    ensures Overdue(s', other) == Overdue(s, other)
    ensures Flying(s', other) == if other == id then Flying(s, other) + {task} else Flying(s, other)
    ensures task !in Flying(s, other)
  {
  }

  lemma PreemptKeepsOne(s: State, s': State, task: int, id: int, other: int)
    requires Bounded(s, other) && OneOnTime(s, other) && task !in s.flights && id in s.rows
    requires s.rows[id].status == Waiting && forall t :: !OnTime(s, t, id)
    requires s' == s.(rows := Touched(s.rows, id, s.clock), flights := s.flights[task := Attempt(id, s.clock)],
                      history := s.history + [Preempted(task, id, s.clock)])
    ensures OneOnTime(s', other) && Bounded(s', other)
  {
    hide Flying, Overdue, Attempts, Spoilt, OnTime;
    CountAppend(s.history, Preempted(task, id, s.clock), other);
    PreemptFlights(s, s', task, id, other);
    if other == id {
      FlyingOrOverdue(s, other);
    }
  }

  // An attempt ends, reported or not.
  ghost predicate Ends(s: State, s': State, task: int, e: Event) {
    && task in s.flights && e.id == s.flights[task].id
    && (|| (s' == LoseStep(s, task) && e == ReportLost(task, e.id))
        || (e.Reported? && e.task == task && e.late == PastLease(s, task) && s' == ReportStep(s, task, e.success)))
  }

  lemma EndKeeps(s: State, s': State, task: int, e: Event)
    requires Inv(s) && Ends(s, s', task, e)
    ensures Inv(s')
  {
    assert Claimed(s, task);
    forall t ensures Claimed(s', t) {
      assert Claimed(s, t);
    }
    forall id ensures OneOnTime(s', id) && Bounded(s', id) {
      EndKeepsOne(s, s', task, e, id);
    }
  }

  lemma EndFlights(s: State, s': State, task: int, id: int)
    requires task in s.flights && s'.clock == s.clock && s'.flights == s.flights - {task}
    ensures forall t :: OnTime(s', t, id) <==> OnTime(s, t, id) && t != task
    ensures Flying(s', id) == Flying(s, id) - {task} && Overdue(s', id) == Overdue(s, id) - {task}
    ensures task in Flying(s, id) <==> s.flights[task].id == id
    ensures task in Overdue(s, id) <==> s.flights[task].id == id && PastLease(s, task)
    ensures OnTime(s, task, id) <==> s.flights[task].id == id && !PastLease(s, task)
  {
  }

  // The row an ending attempt leaves.
  lemma EndRow(s: State, s': State, task: int, e: Event, id: int)
    requires Ends(s, s', task, e) && id in s'.rows
    ensures id in s.rows
    ensures s'.rows[id].retryCnt == s.rows[id].retryCnt && s'.rows[id].retryMax == s.rows[id].retryMax
    ensures s'.rows[id].status == Waiting ==> s.rows[id].status == Waiting
    ensures s'.rows[id].status == Waiting && e.Reported? && e.id == id ==>
              s.rows[id].retryCnt < s.rows[id].retryMax
    ensures s'.clock == s.clock && s'.flights == s.flights - {task} && s'.history == s.history + [e]
  {
  }

  lemma EndKeepsOne(s: State, s': State, task: int, e: Event, id: int)
    requires Bounded(s, id) && OneOnTime(s, id) && Ends(s, s', task, e)
    ensures OneOnTime(s', id) && Bounded(s', id)
  {
    hide Flying, Overdue, Attempts, Spoilt, OnTime, PastLease;
    CountAppend(s.history, e, id);
    if id in s'.rows {
      EndRow(s, s', task, e, id);
    }
    EndFlights(s, s', task, id);
    FlyingOrOverdue(s, id);
    FlyingOrOverdue(s', id);
  }

  /** Every step whatever keeps the bound and the single attempt within its lease. */
  lemma StepKeeps(s: State, step: Step)
    requires Inv(s)
    ensures Inv(Next(s, step))
  {
    hide Inv, PreemptStep, FirstWaiting;
    match step
    case Tick(to) => if to >= s.clock { TickKeeps(s, to); }
    case Add(id, max) => if id !in s.rows { AddKeeps(s, id, max); }
    case Preempt(t) =>
      if t !in s.flights && FirstWaiting(s.rows, s.clock).Some? {
        PreemptKeeps(s, t);
      } else {
        PreemptOfNothing(s, t);
      }
    case Report(t, success) =>
      if t in s.flights {
        EndKeeps(s, ReportStep(s, t, success), t, Reported(t, s.flights[t].id, success, PastLease(s, t)));
      }
    case LoseReport(t) =>
      if t in s.flights {
        EndKeeps(s, LoseStep(s, t), t, ReportLost(t, s.flights[t].id));
      }
  }

  lemma PreemptOfNothing(s: State, task: int)
    requires task in s.flights || FirstWaiting(s.rows, s.clock).None?
    ensures PreemptStep(s, task) == s
  {
  }

  lemma {:induction false} InvHolds(s: State, steps: seq<Step>)
    requires Inv(s)
    ensures Inv(After(s, steps))
    decreases |steps|
  {
    if steps != [] {
      hide Inv, Next;
      StepKeeps(s, steps[0]);
      InvHolds(Next(s, steps[0]), steps[1..]);
    }
  }

  /** In every run, however long attempts take and whichever reports are lost: the attempts on
      a message never exceed max(1, retry_max) plus those lost, those reported after their
      lease and those still in flight past it; and at most one is in flight within its lease. */
  lemma RetryBound(clock: int, steps: seq<Step>, id: int)
    ensures var s := After(Empty(clock), steps);
            && (forall a, b :: OnTime(s, a, id) && OnTime(s, b, id) ==> a == b)
            && (id in s.rows ==>
                  && s.rows[id].retryCnt == Attempts(s.history, id)
                  && Attempts(s.history, id) <= Max(1, s.rows[id].retryMax) + Losses(s.history, id)
                                                + LateReports(s.history, id) + |Overdue(s, id)|)
  {
    InvHolds(Empty(clock), steps);
    assert Bounded(After(Empty(clock), steps), id) && OneOnTime(After(Empty(clock), steps), id);
  }

  // ---------- Which reports change a settled outcome ----------

  ghost predicate Settled(s: State, id: int) {
    id in s.rows && s.rows[id].status != Waiting
  }

  // A report that contradicts the outcome: a success, or a failure with the retries used up.
  ghost predicate Overturns(s: State, step: Step, id: int) {
    && step.Report? && step.task in s.flights && s.flights[step.task].id == id && id in s.rows
    && if step.success then s.rows[id].status == Failed
       else s.rows[id].status == Success && s.rows[id].retryCnt >= s.rows[id].retryMax
  }

  /** A settled message never waits again, and a step changes its outcome exactly when it
      overturns it. */
  lemma SettledExact(s: State, step: Step, id: int)
    requires Settled(s, id)
    ensures Settled(Next(s, step), id)
    ensures Next(s, step).rows[id].status != s.rows[id].status <==> Overturns(s, step, id)
  {
  }

  ghost predicate NoneOverturns(s: State, steps: seq<Step>, id: int)
    decreases |steps|
  {
    steps == [] || (!Overturns(s, steps[0], id) && NoneOverturns(Next(s, steps[0]), steps[1..], id))
  }

  ghost predicate StatusStays(s: State, steps: seq<Step>, id: int, status: Status)
    decreases |steps|
  {
    && id in s.rows && s.rows[id].status == status
    && (steps != [] ==> StatusStays(Next(s, steps[0]), steps[1..], id, status))
  }

  /** An outcome stands at every point of a run if and only if no report overturns it. */
  lemma {:induction false} OutcomeStandsExactly(s: State, steps: seq<Step>, id: int)
    requires Settled(s, id)
    ensures StatusStays(s, steps, id, s.rows[id].status) <==> NoneOverturns(s, steps, id)
    decreases |steps|
  {
    if steps != [] {
      SettledExact(s, steps[0], id);
      hide Next, Overturns;
      if !Overturns(s, steps[0], id) {
        OutcomeStandsExactly(Next(s, steps[0]), steps[1..], id);
      }
    }
  }

  // ---------- Without late reports on a message, its outcome is final ----------

  ghost predicate LateReport(s: State, step: Step, id: int) {
    step.Report? && step.task in s.flights && s.flights[step.task].id == id && PastLease(s, step.task)
  }

  ghost predicate NoLateReport(s: State, steps: seq<Step>, id: int)
    decreases |steps|
  {
    steps == [] || (!LateReport(s, steps[0], id) && NoLateReport(Next(s, steps[0]), steps[1..], id))
  }

  // Whatever is still in flight on a settled message is overdue.
  ghost predicate SettledAlone(s: State, id: int) {
    Settled(s, id) ==> forall t :: !OnTime(s, t, id)
  }

  lemma StepSettlesAlone(s: State, step: Step, id: int)
    requires Inv(s) && SettledAlone(s, id) && !LateReport(s, step, id)
    ensures SettledAlone(Next(s, step), id)
    ensures Settled(s, id) ==> id in Next(s, step).rows && Next(s, step).rows[id] == s.rows[id]
  {
    var s' := Next(s, step);
    assert OneOnTime(s, id);
    if step.Report? && step.task in s.flights {
      assert Claimed(s, step.task);
      assert s.flights[step.task].id == id ==> OnTime(s, step.task, id);
    }
    if step.Preempt? && step.task !in s.flights && Settled(s', id) {
      assert FirstWaiting(s.rows, s.clock) != Some(id);
    }
    hide FirstWaiting;
    if Settled(s', id) {
      forall t ensures OnTime(s', t, id) ==> OnTime(s, t, id) {
      }
    }
  }

  lemma {:induction false} StaysFinal(s: State, steps: seq<Step>, id: int)
    requires Inv(s) && SettledAlone(s, id) && NoLateReport(s, steps, id)
    ensures SettledAlone(After(s, steps), id)
    ensures Settled(s, id) ==> id in After(s, steps).rows && After(s, steps).rows[id] == s.rows[id]
    decreases |steps|
  {
    if steps != [] {
      hide Inv, Next, LateReport, SettledAlone;
      StepKeeps(s, steps[0]);
      StepSettlesAlone(s, steps[0], id);
      StaysFinal(Next(s, steps[0]), steps[1..], id);
    }
  }

  /** If no report on a message lands after its attempt's lease, the message leaves the
      waiting state at most once and its row never changes again, whatever the attempts and
      reports on other messages do. */
  lemma OutcomeIsFinal(clock: int, before: seq<Step>, later: seq<Step>, id: int)
    requires NoLateReport(Empty(clock), before, id) && NoLateReport(After(Empty(clock), before), later, id)
    ensures var s := After(Empty(clock), before);
            Settled(s, id) ==> id in After(s, later).rows && After(s, later).rows[id] == s.rows[id]
  {
    InvHolds(Empty(clock), before);
    StaysFinal(Empty(clock), before, id);
    StaysFinal(After(Empty(clock), before), later, id);
  }

  lemma StepCountsLate(s: State, step: Step, id: int)
    requires !LateReport(s, step, id)
    ensures LateReports(Next(s, step).history, id) == LateReports(s.history, id)
  {
    hide FirstWaiting;
    var s' := Next(s, step);
    if |s'.history| > |s.history| {
      assert s'.history[..|s.history|] == s.history;
    }
  }

  /** A loss is counted only for a report that is lost, and a late report only for one that lands
      more than a minute after its attempt began. */
  lemma SpoiltAreRecorded(s: State, step: Step, id: int)
    ensures var s' := Next(s, step);
            && Losses(s'.history, id) ==
               Losses(s.history, id)
               + (if step.LoseReport? && step.task in s.flights && s.flights[step.task].id == id then 1 else 0)
            && LateReports(s'.history, id) ==
               LateReports(s.history, id)
               + (if step.Report? && step.task in s.flights && s.flights[step.task].id == id
                     && s.clock > s.flights[step.task].at + 60000 then 1 else 0)
  {
    hide FirstWaiting;
    var s' := Next(s, step);
    if |s'.history| > |s.history| {
      assert s'.history[..|s.history|] == s.history;
    }
  }

  lemma {:induction false} NoneCountedLate(s: State, steps: seq<Step>, id: int)
    requires NoLateReport(s, steps, id)
    ensures LateReports(After(s, steps).history, id) == LateReports(s.history, id)
    decreases |steps|
  {
    if steps != [] {
      hide Next, LateReport, LateReports;
      StepCountsLate(s, steps[0], id);
      NoneCountedLate(Next(s, steps[0]), steps[1..], id);
    }
  }

  /** So if no attempt on a message outlives its lease and then reports or stays, its attempts
      never exceed max(1, retry_max) plus its lost reports. */
  lemma RetryBoundUnderLease(clock: int, steps: seq<Step>, id: int)
    requires NoLateReport(Empty(clock), steps, id) && Overdue(After(Empty(clock), steps), id) == {}
    ensures var s := After(Empty(clock), steps);
            id in s.rows ==> Attempts(s.history, id) <= Max(1, s.rows[id].retryMax) + Losses(s.history, id)
  {
    RetryBound(clock, steps, id);
    NoneCountedLate(Empty(clock), steps, id);
  }

  /** Reports that outlive their lease break finality: a message marked successful by its
      third attempt is marked failed when the first attempt's failure finally arrives. */
  lemma LateReportOverturns(id: int)
    ensures var s1 := Next(Next(Next(Empty(0), Add(id, RETRY_MAX)), Tick(100000)), Preempt(1));
            var s2 := Next(Next(s1, Tick(160001)), Preempt(2));
            var s3 := Next(Next(s2, Tick(220002)), Preempt(3));
            var succeeded, overturned := Next(s3, Report(3, true)), Next(Next(s3, Report(3, true)), Report(1, false));
            && Overturns(succeeded, Report(1, false), id) && LateReport(succeeded, Report(1, false), id)
            && id in succeeded.rows && succeeded.rows[id].status == Success
            && id in overturned.rows && overturned.rows[id].status == Failed
  {
    hide PreemptStep;
    var s1 := PreemptOnly(Next(Next(Empty(0), Add(id, RETRY_MAX)), Tick(100000)), 1, id, 0, 0);
    var s2 := PreemptOnly(Next(s1, Tick(160001)), 2, id, 1, 100000);
    var s3 := PreemptOnly(Next(s2, Tick(220002)), 3, id, 2, 160001);
  }

  // With one message alone in the table, a preemption past its lease takes it.
  lemma PreemptOnly(s: State, task: int, id: int, count: int, utime: int) returns (s': State)
    requires s.rows == map[id := Sms(count, RETRY_MAX, Waiting, utime)]
    requires utime < s.clock - LEASE && task !in s.flights
    ensures s' == PreemptStep(s, task)
    ensures s'.rows == map[id := Sms(count + 1, RETRY_MAX, Waiting, s.clock)] && s'.clock == s.clock
    ensures s'.flights == s.flights[task := Attempt(id, s.clock)]
  {
    s' := PreemptStep(s, task);
    assert id in s.rows;
  }

  // ---------- The access object ----------

  class GORMAsyncSmsDAO {
    var rows: Messages

    constructor ()
      ensures rows == map[]
    {
      rows := map[];
    }

    // A new message waits with update time zero.
    method Insert(id: int, retryMax: int, dbOk: bool) returns (ok: bool)
      requires id !in rows
      modifies this
      ensures ok <==> dbOk
      ensures rows == if ok then old(rows)[id := Sms(0, retryMax, Waiting, 0)] else old(rows)
    {
      if dbOk {
        rows := rows[id := Sms(0, retryMax, Waiting, 0)];
      }
      ok := dbOk;
    }

    // SELECT FOR UPDATE and the update of the row it returns, in one transaction. The
    // message returned is the row before the update.
    method GetWaitingSMS(now: int, dbOk: bool) returns (found: Option<int>, sms: Sms)
      modifies this
      ensures found.Some? <==> dbOk && FirstWaiting(old(rows), now).Some?
      ensures found.Some? ==> found == FirstWaiting(old(rows), now) && sms == old(rows)[found.value]
      ensures rows == if found.Some? then Touched(old(rows), found.value, now) else old(rows)
      ensures found.Some? ==> FirstWaiting(rows, now) != found
      ensures found.Some? ==>
        && sms.status == Waiting && sms.utime < now - 60000
        && rows == old(rows)[found.value := sms.(retryCnt := sms.retryCnt + 1, utime := now)]
      ensures found.None? && dbOk ==>
        forall id :: id in rows ==> rows[id].status != Waiting || rows[id].utime >= now - 60000
    {
      found := FirstWaiting(rows, now);
      sms := Sms(0, 0, Waiting, 0);
      if found.None? || !dbOk {
        return None, sms;
      }
      var id := found.value;
      sms := rows[id];
      rows := rows[id := sms.(retryCnt := sms.retryCnt + 1, utime := now)];
    }

    method MarkSuccess(id: int, now: int, dbOk: bool) returns (ok: bool)
      modifies this
      ensures ok <==> dbOk
      ensures rows == if ok then Marked(old(rows), id, true, now) else old(rows)
      ensures rows == if ok && id in old(rows) then old(rows)[id := old(rows)[id].(utime := now, status := Success)]
                      else old(rows)
    {
      if dbOk && id in rows {
        rows := rows[id := rows[id].(utime := now, status := Success)];
      }
      ok := dbOk;
    }

    // Only once the retries are used up.
    method MarkFailed(id: int, now: int, dbOk: bool) returns (ok: bool)
      modifies this
      ensures ok <==> dbOk
      ensures rows == if ok then Marked(old(rows), id, false, now) else old(rows)
      ensures rows == if ok && id in old(rows) && old(rows)[id].retryCnt >= old(rows)[id].retryMax
                      then old(rows)[id := old(rows)[id].(utime := now, status := Failed)]
                      else old(rows)
    {
      if dbOk && id in rows && rows[id].retryCnt >= rows[id].retryMax {
        rows := rows[id := rows[id].(utime := now, status := Failed)];
      }
      ok := dbOk;
    }
  }

  // ---------- The sending loop ----------

  ghost predicate ByOthers(step: Step, task: int) {
    match step
    case Preempt(t) => t != task
    case Report(t, _) => t != task
    case LoseReport(t) => t != task
    case _ => true
  }

  lemma OtherStepKeepsFlight(s: State, step: Step, task: int)
    requires task in s.flights && ByOthers(step, task)
    ensures task in Next(s, step).flights && Next(s, step).flights[task] == s.flights[task]
    ensures Next(s, step).clock >= s.clock
  {
  }

  lemma OtherStepLeavesOwned(s: State, step: Step, task: int)
    requires Inv(s) && task in s.flights && ByOthers(step, task)
    requires !PastLease(s, task) && !LateReport(s, step, s.flights[task].id)
    ensures var id, s' := s.flights[task].id, Next(s, step);
            id in s.rows && id in s'.rows && s'.rows[id] == s.rows[id]
  {
    var id := s.flights[task].id;
    assert Claimed(s, task) && OneOnTime(s, id) && OnTime(s, task, id);
    if step.Report? && step.task in s.flights {
      assert s.flights[step.task].id == id ==> OnTime(s, step.task, id);
    }
  }

  lemma {:induction false} OthersKeepFlight(s: State, steps: seq<Step>, task: int)
    requires task in s.flights && forall step :: step in steps ==> ByOthers(step, task)
    ensures var s' := After(s, steps);
            task in s'.flights && s'.flights[task] == s.flights[task] && s'.clock >= s.clock
    decreases |steps|
  {
    if steps != [] {
      hide Next, ByOthers;
      assert steps[0] in steps;
      OtherStepKeepsFlight(s, steps[0], task);
      OthersKeepFlight(Next(s, steps[0]), steps[1..], task);
    }
  }

  /** As long as an attempt's lease has not run out and no older attempt on the message reports
      late, nothing the others do changes its row. */
  lemma {:induction false} OwnedRowIsPrivate(s: State, steps: seq<Step>, task: int)
    requires Inv(s) && task in s.flights && forall step :: step in steps ==> ByOthers(step, task)
    requires NoLateReport(s, steps, s.flights[task].id)
    requires After(s, steps).clock <= s.flights[task].at + LEASE
    ensures var id, s' := s.flights[task].id, After(s, steps);
            id in s.rows && id in s'.rows && s'.rows[id] == s.rows[id]
    decreases |steps|
  {
    assert Claimed(s, task);
    if steps != [] {
      hide Inv, Next, ByOthers, LateReport;
      assert steps[0] in steps;
      OthersKeepFlight(s, steps, task);
      StepKeeps(s, steps[0]);
      OtherStepKeepsFlight(s, steps[0], task);
      OtherStepLeavesOwned(s, steps[0], task);
      OwnedRowIsPrivate(Next(s, steps[0]), steps[1..], task);
    }
  }

  class Service {
    const dao: GORMAsyncSmsDAO
    var clock: int
    var flights: map<int, Attempt>
    var history: seq<Event>

    function S(): State
      reads this, dao
    {
      State(dao.rows, clock, flights, history)
    }

    constructor (clock: int)
      ensures fresh(dao) && S() == Empty(clock)
    {
      dao := new GORMAsyncSmsDAO();
      this.clock, flights, history := clock, map[], [];
    }

    method Send(id: int, dbOk: bool) returns (ok: bool)
      requires id !in dao.rows
      modifies dao
      ensures ok <==> dbOk
      ensures S() == if ok then Next(old(S()), Add(id, RETRY_MAX)) else old(S())
      ensures dao.rows == if ok then old(dao.rows)[id := Sms(0, 3, Waiting, 0)] else old(dao.rows)
    {
      ok := dao.Insert(id, RETRY_MAX, dbOk);
    }

    // Whatever the other nodes and the clock do in between.
    method Others(steps: seq<Step>)
      modifies this, dao
      ensures S() == After(old(S()), steps)
    {
      var now := After(S(), steps);
      dao.rows, clock, flights, history := now.rows, now.clock, now.flights, now.history;
    }

    // PreemptWaitingSMS.
    method Take(task: int, dbOk: bool) returns (taken: Option<int>)
      requires task !in flights
      modifies this`flights, this`history, dao
      ensures taken == if dbOk then FirstWaiting(old(dao.rows), clock) else None
      ensures S() == if dbOk then PreemptStep(old(S()), task) else old(S())
    {
      var sms;
      taken, sms := dao.GetWaitingSMS(clock, dbOk);
      if taken.Some? {
        flights := flights[task := Attempt(taken.value, clock)];
        history := history + [Preempted(task, taken.value, clock)];
      }
    }

    // ReportScheduleResult.
    method ReportResult(task: int, id: int, success: bool, dbOk: bool)
      requires task in flights && flights[task].id == id
      modifies this`flights, this`history, dao
      ensures S() == Next(old(S()), if dbOk then Report(task, success) else LoseReport(task))
    {
      var ok;
      if success {
        ok := dao.MarkSuccess(id, clock, dbOk);
      } else {
        ok := dao.MarkFailed(id, clock, dbOk);
      }
      history := history + [if ok then Reported(task, id, success, PastLease(S(), task)) else ReportLost(task, id)];
      flights := flights - {task};
    }

    /** One round of the sending loop: take a message, send it while the other nodes go on,
        and report. The attempt is the protocol's whatever happens meanwhile; and if it ends
        within its lease, and no older attempt on the message reports late, its row ends
        successful, failed or waiting as its own send and retry count say. */
    method AsyncSend(task: int, takeOk: bool, sendOk: bool, reportOk: bool, during: seq<Step>)
        returns (taken: Option<int>)
      requires Inv(S()) && task !in flights
      requires forall step :: step in during ==> ByOthers(step, task)
      modifies this, dao
      ensures Inv(S()) && task !in flights
      ensures taken == if takeOk then FirstWaiting(old(dao.rows), old(clock)) else None
      ensures taken.None? ==> S() == old(S())
      ensures taken.Some? ==>
        S() == Next(After(PreemptStep(old(S()), task), during),
                    if reportOk then Report(task, sendOk) else LoseReport(task))
      ensures taken.Some? && clock <= old(clock) + LEASE
              && NoLateReport(PreemptStep(old(S()), task), during, taken.value) ==>
        && taken.value in old(dao.rows) && taken.value in dao.rows
        && RoundOutcome(old(dao.rows)[taken.value], dao.rows[taken.value], sendOk, reportOk)
    {
      hide Inv, FirstWaiting, ByOthers, NoLateReport;
      ghost var start := S();
      taken := Take(task, takeOk);
      if taken.None? {
        TakenNothing(start, task);
        return;
      }
      ghost var held := S();
      TakenOne(start, task);
      StepKeeps(start, Preempt(task));
      InvHolds(held, during);
      OthersKeepFlight(held, during, task);
      Others(during);
      ghost var sent := S();
      StepKeeps(sent, if reportOk then Report(task, sendOk) else LoseReport(task));
      ReportResult(task, taken.value, sendOk, reportOk);
      if clock <= start.clock + LEASE && NoLateReport(held, during, taken.value) {
        OwnedRowIsPrivate(held, during, task);
        OutcomeOf(start.rows[taken.value], sent, task, sendOk, reportOk);
      }
    }
  }

  // What a round leaves of the row it took.
  ghost predicate RoundOutcome(before: Sms, after: Sms, sendOk: bool, reportOk: bool) {
    && after.retryCnt == before.retryCnt + 1 && after.retryMax == before.retryMax
    && after.status ==
         if !reportOk then Waiting
         else if sendOk then Success
         else if after.retryCnt >= after.retryMax then Failed
         else Waiting
  }

  lemma TakenNothing(s: State, task: int)
    ensures FirstWaiting(s.rows, s.clock).None? ==> PreemptStep(s, task) == s
  {
  }

  lemma TakenOne(s: State, task: int)
    requires task !in s.flights && FirstWaiting(s.rows, s.clock).Some?
    ensures var id, s' := FirstWaiting(s.rows, s.clock).value, PreemptStep(s, task);
            && s' == Next(s, Preempt(task)) && s'.clock == s.clock
            && task in s'.flights && s'.flights[task] == Attempt(id, s.clock)
            && id in s.rows && id in s'.rows && s.rows[id].status == Waiting
            && s'.rows[id] == s.rows[id].(retryCnt := s.rows[id].retryCnt + 1, utime := s.clock)
  {
  }

  lemma OutcomeOf(before: Sms, s: State, task: int, sendOk: bool, reportOk: bool)
    requires task in s.flights && s.flights[task].id in s.rows && before.status == Waiting
    requires var row := s.rows[s.flights[task].id];
             row.status == Waiting && row.retryCnt == before.retryCnt + 1 && row.retryMax == before.retryMax
    ensures var id := s.flights[task].id;
            var s' := Next(s, if reportOk then Report(task, sendOk) else LoseReport(task));
            id in s'.rows && RoundOutcome(before, s'.rows[id], sendOk, reportOk)
  {
  }
}
