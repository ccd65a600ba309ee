/**
  JobContext as interleaved steps, for a JobContext that has its RunningLock from the start: the lock
  that NewJob makes itself when there is none is made without protection.  A step is what happens
  between two points at which another goroutine can get in: a locked region, or a single unlocked
  read or write of a field.  The fields Ctx, JcCancel and Wg are always replaced together, so
  `current` names the job they belong to.
 */
module JobContexts {

  type Job = nat
  type Caller = nat

  /** A context that a caller of NewJob hands in. */
  type Parent = nat

  /** Where a call of NewJob stands. */
  datatype CallState =
    | Idle
    // About to take the lock and look at JcRunning.
    | Entering(parent: Parent, workers: nat, returnIfRunning: bool)
    // Has cancelled the running job and released the lock.
    | MustWait(parent: Parent, workers: nat, victim: Job)
    // Has read Wg and waits on it.
    | Waiting(parent: Parent, workers: nat, victim: Job, group: Job)
    // Has set up the job, not yet started its monitor.
    | Spawning(job: Job)
    | Returned(result: bool)

  /** Where the monitor goroutine of a job stands. */
  datatype Monitor = NotSpawned | Spawned | WaitingOn(group: Job) | Woken | Gone

  /**
    `counter` holds the wait groups; `pending` counts the workers of each job that have not yet
    called WorkerDone, which the code does not record.  `cancelled` are the jobs whose own cancel
    function was called, `expired` the parent contexts that are done.
   */
  datatype State = State(
    running: bool,
    current: Job,
    counter: seq<nat>,
    pending: seq<nat>,
    monitors: seq<Monitor>,
    parents: seq<Parent>,
    cancelled: set<Job>,
    expired: set<Parent>,
    calls: map<Caller, CallState>
  )

  datatype Event =
    | Call(c: Caller, parent: Parent, workers: nat, returnIfRunning: bool)
    | Enter(c: Caller)
    | ReadGroup(c: Caller)
    | EndWait(c: Caller)
    | Spawn(c: Caller)
    | MonitorReads(j: Job)
    | MonitorWakes(j: Job)
    | MonitorClears(j: Job)
    | WorkerDone(j: Job)
    | Cancel
    | Expire(p: Parent)

  /** The context of a job is done when it was cancelled or its parent is done. */
  predicate Done(s: State, j: Job)
    requires j < |s.parents|
  {
    j in s.cancelled || s.parents[j] in s.expired
  }

  function CallOf(s: State, c: Caller): CallState {
    if c in s.calls then s.calls[c] else Idle
  }

  predicate Enabled(s: State, e: Event) {
    match e
    case Call(c, _, _, _) => CallOf(s, c).Idle? || CallOf(s, c).Returned?
    case Enter(c) => CallOf(s, c).Entering?
    case ReadGroup(c) => CallOf(s, c).MustWait?
    case EndWait(c) => CallOf(s, c).Waiting? && CallOf(s, c).group < |s.counter| && s.counter[CallOf(s, c).group] == 0
    case Spawn(c) => CallOf(s, c).Spawning? && CallOf(s, c).job < |s.monitors|
    case MonitorReads(j) => j < |s.monitors| && s.monitors[j].Spawned?
    case MonitorWakes(j) =>
      && j < |s.monitors| && s.monitors[j].WaitingOn?
      && s.monitors[j].group < |s.counter| && s.counter[s.monitors[j].group] == 0
    case MonitorClears(j) => j < |s.monitors| && s.monitors[j].Woken?
    case WorkerDone(j) => j < |s.pending| && s.pending[j] > 0 && s.current < |s.counter| && s.counter[s.current] > 0
    case Cancel => true
    case Expire(_) => true
  }

  /** The locked region of NewJob. */
  function Entered(s: State, c: Caller, parent: Parent, workers: nat, returnIfRunning: bool): State {
    if s.running && returnIfRunning then s.(calls := s.calls[c := Returned(false)])
    else if s.running then
      s.(cancelled := s.cancelled + {s.current}, calls := s.calls[c := MustWait(parent, workers, s.current)])
    else
      State(true, |s.counter|, s.counter + [workers], s.pending + [workers], s.monitors + [NotSpawned],
            s.parents + [parent], s.cancelled, s.expired, s.calls[c := Spawning(|s.counter|)])
  }

  function Apply(s: State, e: Event): State
    requires Enabled(s, e)
  {
    match e
    case Call(c, parent, workers, returnIfRunning) =>
      s.(calls := s.calls[c := Entering(parent, workers, returnIfRunning)])
    case Enter(c) => Entered(s, c, s.calls[c].parent, s.calls[c].workers, s.calls[c].returnIfRunning)
    case ReadGroup(c) =>
      s.(calls := s.calls[c := Waiting(s.calls[c].parent, s.calls[c].workers, s.calls[c].victim, s.current)])
    case EndWait(c) => s.(calls := s.calls[c := Entering(s.calls[c].parent, s.calls[c].workers, false)])
    case Spawn(c) => s.(monitors := s.monitors[s.calls[c].job := Spawned], calls := s.calls[c := Returned(true)])
    case MonitorReads(j) => s.(monitors := s.monitors[j := WaitingOn(s.current)])
    case MonitorWakes(j) => s.(monitors := s.monitors[j := Woken])
    case MonitorClears(j) =>
      s.(running := false, cancelled := s.cancelled + {s.current}, monitors := s.monitors[j := Gone])
    case WorkerDone(j) =>
      s.(pending := s.pending[j := s.pending[j] - 1], counter := s.counter[s.current := s.counter[s.current] - 1])
    case Cancel => if s.counter == [] then s else s.(cancelled := s.cancelled + {s.current})
    case Expire(p) => s.(expired := s.expired + {p})
  }

  const START := State(false, 0, [], [], [], [], {}, {}, map[])

  // ----- invariant

  /** While a job runs its monitor is alive and will wait on, or has waited on, the job's own group. */
  predicate MonitorOk(s: State)
    requires s.current < |s.monitors| == |s.pending|
  {
    match s.monitors[s.current]
    case NotSpawned => true
    case Spawned => true
    case WaitingOn(g) => g == s.current
    case Woken => s.pending[s.current] == 0
    case Gone => false
  }

  /** Jobs other than the running one are over: no workers left, monitor gone. */
  ghost predicate OthersOver(s: State)
    requires |s.monitors| == |s.pending|
  {
    forall j :: 0 <= j < |s.monitors| && !(s.running && j == s.current) ==> s.monitors[j] == Gone && s.pending[j] == 0
  }

  /** A caller that still has to start a monitor has to start that of the running job, and it is the only one. */
  ghost predicate SpawningOk(s: State) {
    && (forall c :: c in s.calls && s.calls[c].Spawning? ==>
          s.running && s.calls[c].job == s.current && s.current < |s.monitors| && s.monitors[s.current] == NotSpawned)
    && (forall c, d :: c in s.calls && d in s.calls && s.calls[c].Spawning? && s.calls[d].Spawning? ==> c == d)
  }

  /**
    Only jobs that were set up are cancelled; those that are over are, and so is every job that a
    caller of NewJob had to wait for.
   */
  ghost predicate CancelledOk(s: State) {
    && (forall j :: j in s.cancelled ==> j < |s.monitors|)
    && (forall j :: 0 <= j < |s.monitors| && s.monitors[j] == Gone ==> j in s.cancelled)
    && (forall c :: c in s.calls && (s.calls[c].MustWait? || s.calls[c].Waiting?) ==> s.calls[c].victim in s.cancelled)
  }

  ghost predicate Inv(s: State) {
    && |s.counter| == |s.pending| == |s.monitors| == |s.parents|
    && s.counter == s.pending
    && (s.running ==> s.current + 1 == |s.counter| && MonitorOk(s))
    && OthersOver(s)
    && SpawningOk(s)
    && CancelledOk(s)
    && (s.counter != [] ==> s.current + 1 == |s.counter|)
  }

  lemma StartInv()
    ensures Inv(START)
  {
  }

  lemma EnterKeepsInv(s: State, c: Caller)
    requires Inv(s) && Enabled(s, Enter(c))
    ensures Inv(Apply(s, Enter(c)))
  {
  }

  lemma WorkerDoneKeepsInv(s: State, j: Job)
    requires Inv(s) && Enabled(s, WorkerDone(j))
    ensures s.current == j && s.running && Inv(Apply(s, WorkerDone(j)))
  {
    var s' := Apply(s, WorkerDone(j));
    assert s'.counter == s'.pending;
  }

  lemma StepKeepsInv(s: State, e: Event)
    requires Inv(s) && Enabled(s, e)
    ensures Inv(Apply(s, e))
  {
    match e
    case Enter(c) => EnterKeepsInv(s, c);
    case WorkerDone(j) => WorkerDoneKeepsInv(s, j);
    case _ =>
  }

  predicate Runs(s: State, events: seq<Event>)
    decreases |events|
  {
    events == [] || (Enabled(s, events[0]) && Runs(Apply(s, events[0]), events[1..]))
  }

  function Run(s: State, events: seq<Event>): State
    requires Runs(s, events)
    decreases |events|
  {
    if events == [] then s else Run(Apply(s, events[0]), events[1..])
  }

  lemma {:induction false} RunKeepsInv(s: State, events: seq<Event>)
    requires Inv(s) && Runs(s, events)
    ensures Inv(Run(s, events))
    decreases |events|
  {
    if events != [] {
      StepKeepsInv(s, events[0]);
      RunKeepsInv(Apply(s, events[0]), events[1..]);
    }
  }

  // ----- what every interleaving guarantees

  /** A new job is only set up when no worker of any earlier job is left. */
  lemma NewJobWaitsForWorkers(events: seq<Event>, c: Caller)
    requires Runs(START, events) && Enabled(Run(START, events), Enter(c))
    ensures var s, s' := Run(START, events), Apply(Run(START, events), Enter(c));
            s'.calls[c].Spawning? ==>
              s'.calls[c].job == |s.pending| && forall j :: 0 <= j < |s.pending| ==> s.pending[j] == 0
  {
    StartInv();
    RunKeepsInv(START, events);
  }

  /** Every WorkerDone finds its own job's group, whose counter is exactly the number of its workers left. */
  lemma WorkerDoneHitsOwnJob(events: seq<Event>, j: Job)
    requires Runs(START, events) && j < |Run(START, events).pending| && Run(START, events).pending[j] > 0
    ensures var s := Run(START, events);
            s.current == j && s.running && j < |s.counter| && s.counter[j] == s.pending[j] && Enabled(s, WorkerDone(j))
  {
    StartInv();
    RunKeepsInv(START, events);
  }

  /** A monitor waits on its own job's group, and clears and cancels its own job only, when no worker of it is left. */
  lemma MonitorServesOwnJob(events: seq<Event>, j: Job)
    requires Runs(START, events) && j < |Run(START, events).monitors|
    requires !Run(START, events).monitors[j].Gone?
    ensures var s := Run(START, events);
            && s.running && s.current == j && j < |s.pending|
            && (s.monitors[j].WaitingOn? ==> s.monitors[j].group == j)
            && (s.monitors[j].Woken? ==> s.pending[j] == 0)
  {
    StartInv();
    RunKeepsInv(START, events);
  }

  /**
    The context of a job that is over, or that a caller of NewJob had to wait for, is done; a job that
    is being set up has a live context if and only if the context handed to NewJob is live.
   */
  lemma ContextsFollowJobs(events: seq<Event>, c: Caller)
    requires Runs(START, events)
    ensures var s := Run(START, events);
            && |s.parents| == |s.monitors|
            && (forall j :: 0 <= j < |s.monitors| && s.monitors[j].Gone? ==> Done(s, j))
            && (CallOf(s, c).MustWait? || CallOf(s, c).Waiting? ==>
                  CallOf(s, c).victim < |s.parents| && Done(s, CallOf(s, c).victim))
            && (Enabled(s, Enter(c)) && Apply(s, Enter(c)).calls[c].Spawning? ==>
                  var s', job := Apply(s, Enter(c)), |s.monitors|;
                  s'.calls[c].job == job < |s'.parents| && (Done(s', job) <==> s.calls[c].parent in s.expired))
  {
    StartInv();
    RunKeepsInv(START, events);
  }

  /** Once done, a context stays done. */
  lemma {:induction false} DoneForGood(s: State, events: seq<Event>, j: Job)
    requires Inv(s) && Runs(s, events) && j < |s.parents| && Done(s, j)
    ensures j < |Run(s, events).parents| && Done(Run(s, events), j)
    decreases |events|
  {
    if events != [] {
      StepKeepsInv(s, events[0]);
      DoneForGood(Apply(s, events[0]), events[1..], j);
    }
  }

  // ----- what NewJob answers

  lemma {:induction false} RunSnoc(s: State, events: seq<Event>)
    requires Runs(s, events) && events != []
    ensures var before, last := events[..|events| - 1], events[|events| - 1];
            Runs(s, before) && Enabled(Run(s, before), last) && Run(s, events) == Apply(Run(s, before), last)
    decreases |events|
  {
    if |events| > 1 {
      RunSnoc(Apply(s, events[0]), events[1..]);
      assert events[..|events| - 1][1..] == events[1..][..|events| - 2];
    } else {
      assert events[..0] == [] && events[1..] == [];
    }
  }

  predicate CallsAgain(e: Event, c: Caller) {
    e.Call? && e.c == c
  }

  /** The k-th event made the call that c is in, or that c last returned from. */
  ghost predicate CalledAt(events: seq<Event>, k: nat, c: Caller) {
    && k < |events| && CallsAgain(events[k], c)
    && forall i :: k < i < |events| ==> !CallsAgain(events[i], c)
  }

  /** And with these arguments. */
  ghost predicate AskedAt(events: seq<Event>, k: nat, c: Caller, parent: Parent, workers: nat, returnIfRunning: bool) {
    CalledAt(events, k, c) && events[k] == Call(c, parent, workers, returnIfRunning)
  }

  /** At the k-th event, during its present call, c takes the lock. */
  ghost predicate LocksAt(events: seq<Event>, k: nat, c: Caller) {
    && k < |events| && events[k] == Enter(c)
    && forall i :: k < i < |events| ==> !CallsAgain(events[i], c)
  }

  /** The state when the k-th event happens. */
  ghost predicate Before(events: seq<Event>, k: nat, s: State) {
    k <= |events| && Runs(START, events[..k]) && s == Run(START, events[..k])
  }

  /** There, with no worker of any job left, it sets up a new job with what the call asked for. */
  ghost predicate SetsUp(events: seq<Event>, m: nat, k: nat, s: State, job: Job, c: Caller) {
    && CalledAt(events, m, c) && m < k && LocksAt(events, k, c) && Before(events, k, s)
    && !s.running && job == |s.pending| && (forall j :: 0 <= j < |s.pending| ==> s.pending[j] == 0)
    && Enabled(s, Enter(c))
    && (var s' := Apply(s, Enter(c));
        && s'.running && s'.current == job && s'.pending == s.pending + [events[m].workers]
        && s'.parents == s.parents + [events[m].parent] && s'.cancelled == s.cancelled)
  }

  /** There, it finds a job running, and changes nothing but its own state. */
  ghost predicate Declines(events: seq<Event>, m: nat, k: nat, s: State, c: Caller) {
    && CalledAt(events, m, c) && m < k && events[m].returnIfRunning && LocksAt(events, k, c) && Before(events, k, s)
    && s.running && Enabled(s, Enter(c)) && Apply(s, Enter(c)) == s.(calls := s.calls[c := Returned(false)])
  }

  /** What the state of a caller tells about the events so far. */
  ghost predicate CallOk(events: seq<Event>, c: Caller, state: CallState) {
    match state
    case Idle => true
    case Entering(p, w, f) =>
      exists m: nat :: AskedAt(events, m, c, p, w, f)
    case MustWait(p, w, _) =>
      exists m: nat :: AskedAt(events, m, c, p, w, false)
    case Waiting(p, w, _, _) =>
      exists m: nat :: AskedAt(events, m, c, p, w, false)
    case Spawning(job) => exists m: nat, k: nat, s: State :: SetsUp(events, m, k, s, job, c)
    case Returned(result) =>
      if result then exists m: nat, k: nat, s: State, job: Job :: SetsUp(events, m, k, s, job, c)
      else exists m: nat, k: nat, s: State :: Declines(events, m, k, s, c)
  }

  lemma StillCalled(events: seq<Event>, e: Event, m: nat, c: Caller)
    requires CalledAt(events, m, c) && !CallsAgain(e, c)
    ensures CalledAt(events + [e], m, c) && (events + [e])[m] == events[m]
  {
  }

  lemma StillLocked(events: seq<Event>, e: Event, k: nat, s: State, c: Caller)
    requires LocksAt(events, k, c) && Before(events, k, s) && !CallsAgain(e, c)
    ensures LocksAt(events + [e], k, c) && Before(events + [e], k, s)
  {
    assert (events + [e])[..k] == events[..k];
  }

  lemma StillSetsUp(events: seq<Event>, e: Event, m: nat, k: nat, s: State, job: Job, c: Caller)
    requires SetsUp(events, m, k, s, job, c) && !CallsAgain(e, c)
    ensures SetsUp(events + [e], m, k, s, job, c)
  {
    StillCalled(events, e, m, c);
    StillLocked(events, e, k, s, c);
  }

  lemma StillDeclines(events: seq<Event>, e: Event, m: nat, k: nat, s: State, c: Caller)
    requires Declines(events, m, k, s, c) && !CallsAgain(e, c)
    ensures Declines(events + [e], m, k, s, c)
  {
    StillCalled(events, e, m, c);
    StillLocked(events, e, k, s, c);
  }

  lemma StillOk(events: seq<Event>, e: Event, c: Caller, state: CallState)
    requires CallOk(events, c, state) && !CallsAgain(e, c)
    ensures CallOk(events + [e], c, state)
  {
    match state
    case Idle =>
    case Entering(p, w, f) =>
      var m: nat :| AskedAt(events, m, c, p, w, f);
      StillCalled(events, e, m, c);
      assert AskedAt(events + [e], m, c, p, w, f);
    case MustWait(p, w, _) =>
      var m: nat :| AskedAt(events, m, c, p, w, false);
      StillCalled(events, e, m, c);
      assert AskedAt(events + [e], m, c, p, w, false);
    case Waiting(p, w, _, _) =>
      var m: nat :| AskedAt(events, m, c, p, w, false);
      StillCalled(events, e, m, c);
      assert AskedAt(events + [e], m, c, p, w, false);
    case Spawning(job) =>
      var m: nat, k: nat, s: State :| SetsUp(events, m, k, s, job, c);
      StillSetsUp(events, e, m, k, s, job, c);
    case Returned(result) =>
      if result {
        var m: nat, k: nat, s: State, job: Job :| SetsUp(events, m, k, s, job, c);
        StillSetsUp(events, e, m, k, s, job, c);
      } else {
        var m: nat, k: nat, s: State :| Declines(events, m, k, s, c);
        StillDeclines(events, e, m, k, s, c);
      }
  }

  /** Taking the lock: the three ways it can go. */
  lemma EnterOk(events: seq<Event>, c: Caller)
    requires Runs(START, events) && Enabled(Run(START, events), Enter(c)) && Inv(Run(START, events))
    requires CallOk(events, c, CallOf(Run(START, events), c))
    ensures CallOk(events + [Enter(c)], c, CallOf(Apply(Run(START, events), Enter(c)), c))
  {
    var s, e, k := Run(START, events), Enter(c), |events|;
    var p, w, f := s.calls[c].parent, s.calls[c].workers, s.calls[c].returnIfRunning;
    var m: nat :| AskedAt(events, m, c, p, w, f);
    StillCalled(events, e, m, c);
    assert (events + [e])[..k] == events;
    assert LocksAt(events + [e], k, c) && Before(events + [e], k, s);
    if s.running && f {
      assert Declines(events + [e], m, k, s, c);
    } else if s.running {
      assert AskedAt(events + [e], m, c, p, w, false);
    } else {
      assert SetsUp(events + [e], m, k, s, |s.counter|, c);
    }
  }

  lemma CallStep(events: seq<Event>, e: Event, c: Caller)
    requires Runs(START, events) && Enabled(Run(START, events), e) && Inv(Run(START, events))
    requires CallOk(events, c, CallOf(Run(START, events), c))
    ensures CallOk(events + [e], c, CallOf(Apply(Run(START, events), e), c))
  {
    var s := Run(START, events);
    if CallsAgain(e, c) {
      assert AskedAt(events + [e], |events|, c, e.parent, e.workers, e.returnIfRunning);
    } else if e == Enter(c) {
      EnterOk(events, c);
    } else {
      StillOk(events, e, c, CallOf(s, c));
      if e == ReadGroup(c) || e == EndWait(c) {
        assert CallOf(s, c).MustWait? || CallOf(s, c).Waiting?;
      }
    }
  }

  lemma {:induction false} RunCallOk(events: seq<Event>, c: Caller)
    requires Runs(START, events)
    ensures CallOk(events, c, CallOf(Run(START, events), c))
    decreases |events|
  {
    if events != [] {
      var before, last := events[..|events| - 1], events[|events| - 1];
      RunSnoc(START, events);
      RunCallOk(before, c);
      StartInv();
      RunKeepsInv(START, before);
      CallStep(before, last, c);
      assert before + [last] == events;
    }
  }

  /**
    In every run: NewJob has answered true only if that very call took the lock when no worker of any
    job was left, and set up a new job with the context and the number of workers it was called with.
   */
  lemma TrueMeansNewJob(events: seq<Event>, c: Caller)
    requires Runs(START, events) && CallOf(Run(START, events), c) == Returned(true)
    ensures exists m: nat, k: nat, s: State, job: Job :: SetsUp(events, m, k, s, job, c)
  {
    RunCallOk(events, c);
  }

  /**
    In every run: NewJob has answered false only if that very call asked to return if a job is running
    and found one running when it took the lock; it then changed nothing else.
   */
  lemma FalseMeansRunning(events: seq<Event>, c: Caller)
    requires Runs(START, events) && CallOf(Run(START, events), c) == Returned(false)
    ensures exists m: nat, k: nat, s: State :: Declines(events, m, k, s, c)
  {
    RunCallOk(events, c);
  }

  /**
    The other direction: a call that asks to return if a job is running, and takes the lock while
    one is, answers false.
   */
  lemma RunningMeansFalse(events: seq<Event>, c: Caller, m: nat)
    requires Runs(START, events) && Enabled(Run(START, events), Enter(c)) && Run(START, events).running
    requires CalledAt(events, m, c) && events[m].returnIfRunning
    ensures CallOf(Apply(Run(START, events), Enter(c)), c) == Returned(false)
  {
    RunCallOk(events, c);
  }

  // ----- workers and contexts, counted from the events

  /** How many workers of a job have called WorkerDone. */
  function Dones(events: seq<Event>, j: Job): nat {
    if events == [] then 0
    else Dones(events[..|events| - 1], j) + if events[|events| - 1] == WorkerDone(j) then 1 else 0
  }

  /** From any moment on, the workers a job has left are those it had less those that called WorkerDone since. */
  lemma {:induction false} WorkersAreCounted(s: State, events: seq<Event>, j: Job)
    requires Inv(s) && Runs(s, events) && j < |s.pending|
    ensures j < |Run(s, events).pending| && Run(s, events).pending[j] + Dones(events, j) == s.pending[j]
    decreases |events|
  {
    if events != [] {
      var before := events[..|events| - 1];
      RunSnoc(s, events);
      WorkersAreCounted(s, before, j);
      RunKeepsInv(s, before);
    }
  }

  /**
    The step ends the context of the job: it is cancelled, its parent is, NewJob needs its place, or
    its monitor clears it.
   */
  predicate EndsContext(s: State, e: Event, j: Job)
    requires j < |s.parents|
  {
    match e
    case Cancel => j == s.current
    case Expire(p) => s.parents[j] == p
    case Enter(c) => s.running && CallOf(s, c).Entering? && !CallOf(s, c).returnIfRunning && j == s.current
    case MonitorClears(m) => j == m
    case _ => false
  }

  /**
    In every run the context of a job that is set up is done after a step if and only if it was
    before or the step ends it.
   */
  lemma ContextEndsIff(events: seq<Event>, e: Event, j: Job)
    requires Runs(START, events) && Enabled(Run(START, events), e) && j < |Run(START, events).parents|
    ensures var s, s' := Run(START, events), Apply(Run(START, events), e);
            j < |s'.parents| && (Done(s', j) <==> Done(s, j) || EndsContext(s, e, j))
  {
    StartInv();
    RunKeepsInv(START, events);
  }

  // ----- every job can come to its end

  /** The monitor of a running job has been started, or the caller that set the job up is about to start it. */
  ghost predicate SpawnerOk(s: State) {
    s.running && s.current < |s.monitors| && s.monitors[s.current] == NotSpawned ==>
      exists c :: c in s.calls && s.calls[c] == Spawning(s.current)
  }

  lemma StepKeepsSpawner(s: State, e: Event)
    requires Inv(s) && SpawnerOk(s) && Enabled(s, e)
    ensures SpawnerOk(Apply(s, e))
  {
    var s' := Apply(s, e);
    if s'.running && s'.monitors[s'.current] == NotSpawned {
      if e.Enter? && s'.calls[e.c].Spawning? {
        assert s'.calls[e.c] == Spawning(s'.current);
      } else {
        var c :| c in s.calls && s.calls[c] == Spawning(s.current);
        assert s'.calls[c] == Spawning(s'.current);
      }
    }
  }

  /** How much is left to do before the running job is over. */
  function Remaining(s: State): nat
    requires s.running ==> s.current < |s.monitors| == |s.pending|
  {
    if !s.running then 0
    else
      s.pending[s.current] + match s.monitors[s.current]
                             case NotSpawned => 4
                             case Spawned => 3
                             case WaitingOn(_) => 2
                             case Woken => 1
                             case Gone => 0
  }

  /** While a job runs, something can happen that brings it nearer to its end. */
  lemma SomethingCanHappen(s: State) returns (e: Event)
    requires Inv(s) && SpawnerOk(s) && s.running
    ensures Enabled(s, e) && Inv(Apply(s, e)) && SpawnerOk(Apply(s, e)) && Remaining(Apply(s, e)) < Remaining(s)
  {
    var j := s.current;
    if s.pending[j] > 0 {
      e := WorkerDone(j);
    } else {
      match s.monitors[j]
      case NotSpawned =>
        var c :| c in s.calls && s.calls[c] == Spawning(j);
        e := Spawn(c);
      case Spawned => e := MonitorReads(j);
      case WaitingOn(g) => e := MonitorWakes(j);
      case Woken => e := MonitorClears(j);
    }
    StepKeepsInv(s, e);
    StepKeepsSpawner(s, e);
  }

  /**
    From every state of every run the running job can come to its end: its workers done, its monitor
    gone, no job running.
   */
  lemma {:induction false} JobCanFinish(s: State) returns (events: seq<Event>)
    requires Inv(s) && SpawnerOk(s)
    ensures Runs(s, events) && !Run(s, events).running
    decreases Remaining(s)
  {
    if s.running {
      var e := SomethingCanHappen(s);
      var rest := JobCanFinish(Apply(s, e));
      events := [e] + rest;
      assert events[1..] == rest;
    } else {
      events := [];
    }
  }

  lemma {:induction false} RunKeepsSpawner(s: State, events: seq<Event>)
    requires Inv(s) && SpawnerOk(s) && Runs(s, events)
    ensures SpawnerOk(Run(s, events))
    decreases |events|
  {
    if events != [] {
      StepKeepsInv(s, events[0]);
      StepKeepsSpawner(s, events[0]);
      RunKeepsSpawner(Apply(s, events[0]), events[1..]);
    }
  }

  /** So after any events whatsoever, more events can bring the running job to its end. */
  lemma EveryJobCanFinish(events: seq<Event>) returns (more: seq<Event>)
    requires Runs(START, events)
    ensures Runs(Run(START, events), more) && !Run(Run(START, events), more).running
  {
    StartInv();
    RunKeepsInv(START, events);
    RunKeepsSpawner(START, events);
    more := JobCanFinish(Run(START, events));
  }

  // ----- waiting

  /** A call that has to wait for a job waits on the group of that job or of a later one. */
  ghost predicate WaitsOk(s: State) {
    forall c :: c in s.calls ==>
      && (s.calls[c].MustWait? ==> s.calls[c].victim < |s.counter|)
      && (s.calls[c].Waiting? ==> s.calls[c].victim <= s.calls[c].group < |s.counter|)
  }

  lemma StepKeepsWaits(s: State, e: Event)
    requires Inv(s) && WaitsOk(s) && Enabled(s, e)
    ensures WaitsOk(Apply(s, e))
  {
  }

  lemma {:induction false} RunKeepsWaits(s: State, events: seq<Event>)
    requires Inv(s) && WaitsOk(s) && Runs(s, events)
    ensures WaitsOk(Run(s, events))
    decreases |events|
  {
    if events != [] {
      StepKeepsInv(s, events[0]);
      StepKeepsWaits(s, events[0]);
      RunKeepsWaits(Apply(s, events[0]), events[1..]);
    }
  }

  /** In every run a call that waits for a job goes on only when no worker of that job is left. */
  lemma WaitEndsWithWorkers(events: seq<Event>, c: Caller)
    requires Runs(START, events) && Enabled(Run(START, events), EndWait(c))
    ensures var s := Run(START, events);
            s.calls[c].victim < |s.pending| && s.pending[s.calls[c].victim] == 0
  {
    StartInv();
    RunKeepsInv(START, events);
    RunKeepsWaits(START, events);
  }
}
