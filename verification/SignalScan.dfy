/** The signal scan as a step machine: any number of overlapping scans, each with its own
    semaphore and counters, contend for Redis SET NX EX locks (worker/services/signal_scan.py,
    worker/services/cache.py). Every action is one uninterrupted stretch of a task, or one
    command taking effect on the Redis server, so that every interleaving is a run. */
module SignalScan {
  import opened Common
  import opened LockKeys

  /** A stored lock. The stored value is the constant "1": `owner` is a history variable, and
      no action's effect on other fields depends on it. */
  datatype Lock = Lock(expiry: nat, owner: nat)

  datatype Stats = Stats(
    scanned: nat, generated: nat, actionable: nat, created: nat,
    skippedCached: nat, skippedLocked: nat, skippedHold: nat, errors: nat)

  datatype Scan = Scan(
    concurrency: nat, ttl: nat, minConfidence: real, force: bool,
    permits: nat, stats: Stats)

  datatype Stage =
    | Created      // waiting for the semaphore
    | Acquiring    // SET NX EX sent
    | Granted      // SET took effect, its reply is under way
    | Checking     // `locked` is true, has_valid_signal awaited
    | Analyzing    // ai.analyze awaited
    | Publishing   // publish awaited
    | Releasing    // DEL sent from the finally block
    | Released     // DEL took effect, its reply is under way
    | Finished
    | Crashed      // the worker process was killed

  datatype Verdict = Undecided | SkippedLocked | SkippedCached | SkippedHold | Recommended | Errored

  /** What a task scans, with its lock key. */
  datatype Pair = Pair(code: string, strategy: Option<int>, key: string)

  datatype Task = Task(scan: nat, pair: Pair, p: Progress)

  /** How far a task has come. */
  datatype Progress = Progress(
    stage: Stage, verdict: Verdict,
    expiry: nat,         // end of the granted lock's TTL
    permit: bool, scanned: bool, generated: bool, actionable: bool,
    setInFlight: bool,   // an abandoned SET the server may still carry out
    delInFlight: bool)   // an abandoned DEL the server may still carry out

  datatype State = State(now: nat, store: map<string, Lock>, scans: seq<Scan>, tasks: seq<Task>)

  datatype CacheAnswer = SignalValid | NoValidSignal | CheckRaised
  datatype Analysis = AnalysisRaised | Malformed | Signal(action: string, confidence: real)

  /** What can happen to one task. */
  datatype Event =
    | Enter
    | Grant                      // SET takes effect: the key was free
    | GrantReply
    | GrantReplyLost             // set_lock returns False although the key is set
    | Refuse                     // SET takes effect: the key was taken
    | SetAbandoned(late: bool)   // the call fails before SET took effect
    | SetRaised                  // no client could be built: set_lock raises
    | LateSet
    | Check(answer: CacheAnswer)
    | Analyze(analysis: Analysis)
    | Publish(ok: bool)
    | Delete                     // DEL takes effect
    | DeleteReply
    | DeleteAbandoned(late: bool)  // release_lock swallows the failure
    | LateDelete
    | Crash(late: bool)          // the worker is killed; a command it sent may still arrive

  datatype Action =
    | StartScan(concurrency: nat, ttl: nat, minConfidence: real, force: bool)
    | Spawn(scan: nat, code: string, strategy: Option<int>)
    | Tick(seconds: nat)
    | Act(k: nat, event: Event)

  const NO_STATS := Stats(0, 0, 0, 0, 0, 0, 0, 0)

  function Initial(): State { State(0, map[], [], []) }

  /** Redis treats a key as absent from its expiry on. */
  predicate Live(s: State, key: string) {
    key in s.store && s.now < s.store[key].expiry
  }

  /** What the acting task must look like. */
  predicate Ready(t: Task, e: Event) {
    match e
    case Enter => t.p.stage == Created && !t.p.permit
    case Grant => t.p.stage == Acquiring
    case GrantReply => t.p.stage == Granted
    case GrantReplyLost => t.p.stage == Granted
    case Refuse => t.p.stage == Acquiring
    case SetAbandoned(_) => t.p.stage == Acquiring
    case SetRaised => t.p.stage == Acquiring
    case LateSet => t.p.setInFlight
    case Check(_) => t.p.stage == Checking
    case Analyze(_) => t.p.stage == Analyzing
    case Publish(_) => t.p.stage == Publishing
    case Delete => t.p.stage == Releasing
    case DeleteReply => t.p.stage == Released
    case DeleteAbandoned(_) => t.p.stage == Releasing
    case LateDelete => t.p.delInFlight
    case Crash(_) => !t.p.stage.Finished? && !t.p.stage.Crashed?
  }

  predicate Enabled(s: State, a: Action) {
    match a
    case StartScan(_, _, _, _) => true
    case Spawn(i, _, _) => i < |s.scans|
    case Tick(_) => true
    case Act(k, e) =>
      && k < |s.tasks|
      && s.tasks[k].scan < |s.scans|
      && Ready(s.tasks[k], e)
      && var scan := s.scans[s.tasks[k].scan];
      && (e.Enter? ==> scan.permits > 0)
      && (e.Grant? ==> !Live(s, s.tasks[k].pair.key) && scan.ttl > 0)
      && (e.LateSet? ==> scan.ttl > 0)
      && (e.Refuse? ==> Live(s, s.tasks[k].pair.key))
  }

  predicate Held(scan: Scan, action: string, confidence: real) { action == "HOLD" || confidence < scan.minConfidence }

  /** The task's own part of an action. */
  function ProgressAfter(now: nat, scan: Scan, p: Progress, e: Event): (p': Progress)
    ensures p'.permit && !p.permit ==> e.Enter?
  {
    match e
    case Enter => p.(stage := Acquiring, permit := true)
    case Grant => p.(stage := Granted, expiry := now + scan.ttl)
    case GrantReply => p.(stage := if scan.force then Analyzing else Checking, scanned := true)
    case GrantReplyLost => NotLocked(p, false)
    case Refuse => NotLocked(p, false)
    case SetAbandoned(late) => NotLocked(p, late)
    case SetRaised => p.(stage := Finished, permit := false, verdict := Errored)
    case LateSet => p.(setInFlight := false)
    case Check(answer) =>
      (match answer
       case SignalValid => p.(stage := Releasing, verdict := SkippedCached)
       case NoValidSignal => p.(stage := Analyzing)
       case CheckRaised => Failed(p))
    case Analyze(analysis) =>
      (match analysis
       case AnalysisRaised => Failed(p)
       // `confidence` is no number: the conversion raises after signals_generated was counted
       case Malformed => Failed(p.(generated := true))
       case Signal(action, confidence) =>
         if Held(scan, action, confidence) then p.(generated := true, stage := Releasing, verdict := SkippedHold)
         else p.(generated := true, actionable := true, stage := Publishing))
    case Publish(ok) => if ok then p.(stage := Releasing, verdict := Recommended) else Failed(p)
    case Delete => p.(stage := Released)
    case DeleteReply => p.(stage := Finished, permit := false)
    case DeleteAbandoned(late) => p.(stage := Finished, permit := false, delInFlight := late)
    case LateDelete => p.(delInFlight := false)
    case Crash(late) =>
      p.(stage := Crashed, setInFlight := late && p.stage == Acquiring, delInFlight := late && p.stage == Releasing)
  }

  /** set_lock returned False: the task leaves the semaphore at once. */
  function NotLocked(p: Progress, late: bool): Progress {
    p.(stage := Finished, permit := false, verdict := SkippedLocked, setInFlight := late)
  }

  /** The `except` branch, with the lock held. */
  function Failed(p: Progress): Progress { p.(stage := Releasing, verdict := Errored) }

  function TaskAfter(now: nat, scan: Scan, t: Task, e: Event): Task {
    t.(p := ProgressAfter(now, scan, t.p, e))
  }

  /** The counters of the scan after an action of one of its tasks. */
  function StatsAfter(scan: Scan, e: Event): Stats {
    var st := scan.stats;
    match e
    case GrantReply => st.(scanned := st.scanned + 1)
    case GrantReplyLost => st.(skippedLocked := st.skippedLocked + 1)
    case Refuse => st.(skippedLocked := st.skippedLocked + 1)
    case SetAbandoned(_) => st.(skippedLocked := st.skippedLocked + 1)
    case SetRaised => st.(errors := st.errors + 1)
    case Check(answer) =>
      (match answer
       case SignalValid => st.(skippedCached := st.skippedCached + 1)
       case NoValidSignal => st
       case CheckRaised => st.(errors := st.errors + 1))
    case Analyze(analysis) =>
      (match analysis
       case AnalysisRaised => st.(errors := st.errors + 1)
       case Malformed => st.(generated := st.generated + 1, errors := st.errors + 1)
       case Signal(action, confidence) =>
         if Held(scan, action, confidence) then
           st.(generated := st.generated + 1, skippedHold := st.skippedHold + 1)
         else st.(generated := st.generated + 1, actionable := st.actionable + 1))
    case Publish(ok) => if ok then st.(created := st.created + 1) else st.(errors := st.errors + 1)
    case Enter => st
    case Grant => st
    case LateSet => st
    case Delete => st
    case DeleteReply => st
    case DeleteAbandoned(_) => st
    case LateDelete => st
    case Crash(_) => st
  }

  /** The server's part of an action. */
  function StoreAfter(s: State, k: nat, e: Event): map<string, Lock>
    requires Enabled(s, Act(k, e))
  {
    var t := s.tasks[k];
    if e.Grant? || (e.LateSet? && !Live(s, t.pair.key)) then
      s.store[t.pair.key := Lock(s.now + s.scans[t.scan].ttl, k)]
    else if Deletes(e) then
      s.store - {t.pair.key}
    else
      s.store
  }

  predicate Deletes(e: Event) { e.Delete? || e.LateDelete? }

  function Apply(s: State, a: Action): State
    requires Enabled(s, a)
  {
    match a
    case StartScan(c, ttl, minConfidence, force) =>
      s.(scans := s.scans + [Scan(c, ttl, minConfidence, force, c, NO_STATS)])
    case Spawn(i, code, strategy) =>
      s.(tasks := s.tasks + [NewTask(i, code, strategy)])
    case Tick(seconds) => s.(now := s.now + seconds)
    case Act(k, e) =>
      var t := s.tasks[k];
      var scan := s.scans[t.scan];
      var t' := TaskAfter(s.now, scan, t, e);
      State(s.now, StoreAfter(s, k, e),
            s.scans[t.scan := scan.(stats := StatsAfter(scan, e), permits := PermitsAfter(scan, t, t'))],
            s.tasks[k := t'])
  }

  function NewTask(i: nat, code: string, strategy: Option<int>): Task {
    Task(i, Pair(code, strategy, LockKey(code, strategy)),
         Progress(Created, Undecided, 0, false, false, false, false, false, false))
  }

  /** A task that starts to hold a permit takes it from the semaphore; one that stops returns it. */
  function PermitsAfter(scan: Scan, t: Task, t': Task): nat
    requires t'.p.permit && !t.p.permit ==> scan.permits > 0
  {
    if t'.p.permit && !t.p.permit then scan.permits - 1
    else if t.p.permit && !t'.p.permit then scan.permits + 1
    else scan.permits
  }

  ghost predicate IsRun(ss: seq<State>, acts: seq<Action>) {
    && |ss| == |acts| + 1
    && ss[0] == Initial()
    && forall i | 0 <= i < |acts| :: Enabled(ss[i], acts[i]) && ss[i + 1] == Apply(ss[i], acts[i])
  }

  // ---------------------------------------------------------------- locks

  /** Between a successful acquire and its release. */
  predicate Owns(t: Task) {
    t.p.stage.Granted? || t.p.stage.Checking? || t.p.stage.Analyzing? || t.p.stage.Publishing? || t.p.stage.Releasing?
  }

  /** A DEL of t may still reach the server. */
  predicate Exposed(t: Task) {
    Owns(t) || t.p.delInFlight
  }

  /** The timing assumption: whoever owns a lock, or has a DEL for it under way, is still within
      the lock's TTL. */
  predicate WithinTtl(s: State) {
    forall k | 0 <= k < |s.tasks| :: Exposed(s.tasks[k]) ==> s.now < s.tasks[k].p.expiry
  }

  /** How the stages, verdicts and marks of one task go together. */
  predicate StageOk(t: Task) {
    && (t.p.stage == Created ==> !t.p.permit)
    && (!(t.p.stage.Created? || t.p.stage.Finished? || t.p.stage.Crashed?) ==> t.p.permit)
    && (t.p.stage == Finished ==> !t.p.permit)
    && (t.p.setInFlight || t.p.delInFlight ==> (t.p.stage.Finished? || t.p.stage.Crashed?))
    && ((t.p.stage.Created? || t.p.stage.Acquiring? || t.p.stage.Granted?) ==> !t.p.scanned)
    && ((t.p.stage.Checking? || t.p.stage.Analyzing?) ==> t.p.scanned && !t.p.generated)
    && (t.p.stage == Publishing ==> t.p.scanned && t.p.generated && t.p.actionable)
    && ((t.p.stage.Releasing? || t.p.stage.Released? || t.p.stage.Finished?) ==> t.p.verdict != Undecided)
    && (t.p.stage.Releasing? || t.p.stage.Released? || t.p.stage.Finished? || t.p.stage.Crashed?
        || t.p.verdict == Undecided)
    && (t.p.actionable ==> t.p.generated) && (t.p.generated ==> t.p.scanned)
    && (t.p.verdict == Recommended ==> t.p.actionable)
  }

  predicate TaskOk(t: Task) { t.pair.key == LockKey(t.pair.code, t.pair.strategy) && StageOk(t) }

  predicate TasksOk(s: State) {
    forall k | 0 <= k < |s.tasks| :: s.tasks[k].scan < |s.scans| && TaskOk(s.tasks[k])
  }

  lemma LocalKeepsTaskOk(now: nat, scan: Scan, t: Task, e: Event)
    requires Ready(t, e) && TaskOk(t)
    ensures TaskOk(TaskAfter(now, scan, t, e))
    ensures TaskAfter(now, scan, t, e).scan == t.scan && TaskAfter(now, scan, t, e).pair == t.pair
    ensures !e.Grant? ==> TaskAfter(now, scan, t, e).p.expiry == t.p.expiry
    ensures !e.Grant? ==> Exposed(TaskAfter(now, scan, t, e)) ==> Exposed(t)
    ensures Deletes(e) ==> Exposed(t) && !Exposed(TaskAfter(now, scan, t, e))
  {
    LocalKeepsStageOk(now, scan, t, e);
    LocalKeepsIdentity(now, scan, t, e);
  }

  lemma LocalKeepsStageOk(now: nat, scan: Scan, t: Task, e: Event)
    requires Ready(t, e) && StageOk(t)
    ensures StageOk(TaskAfter(now, scan, t, e))
    ensures !e.Grant? ==> Exposed(TaskAfter(now, scan, t, e)) ==> Exposed(t)
    ensures Deletes(e) ==> Exposed(t) && !Exposed(TaskAfter(now, scan, t, e))
  {
  }

  lemma LocalKeepsIdentity(now: nat, scan: Scan, t: Task, e: Event)
    requires Ready(t, e)
    ensures var t' := TaskAfter(now, scan, t, e);
      && t'.scan == t.scan && t'.pair == t.pair
      && (!e.Grant? ==> t'.p.expiry == t.p.expiry)
  {
  }

  lemma StepKeepsTasksOk(s: State, a: Action)
    requires TasksOk(s) && Enabled(s, a)
    ensures TasksOk(Apply(s, a))
  {
    if a.Act? {
      LocalKeepsTaskOk(s.now, s.scans[s.tasks[a.k].scan], s.tasks[a.k], a.event);
    }
  }

  /** An exposed task whose TTL has not ended is the recorded owner of its key. */
  predicate LockInv(s: State) {
    forall k | 0 <= k < |s.tasks| :: Exposed(s.tasks[k]) && s.now < s.tasks[k].p.expiry ==>
      s.tasks[k].pair.key in s.store && s.store[s.tasks[k].pair.key] == Lock(s.tasks[k].p.expiry, k)
  }

  /** No lock outlives the TTL of the scan that set it. */
  predicate ExpiryInv(s: State) {
    forall key | key in s.store ::
      && s.store[key].owner < |s.tasks|
      && s.tasks[s.store[key].owner].scan < |s.scans|
      && s.store[key].expiry <= s.now + s.scans[s.tasks[s.store[key].owner].scan].ttl
  }

  lemma StepKeepsExpiryInv(s: State, a: Action)
    requires TasksOk(s) && ExpiryInv(s) && Enabled(s, a)
    ensures ExpiryInv(Apply(s, a))
  {
    if a.Act? {
      LocalKeepsTaskOk(s.now, s.scans[s.tasks[a.k].scan], s.tasks[a.k], a.event);
      ActKeepsTtls(s, a.k, a.event);
    }
  }

  /** A step of a task changes neither a scan's TTL nor the scan of a task. */
  lemma ActKeepsTtls(s: State, k: nat, e: Event)
    requires Enabled(s, Act(k, e))
    ensures var t := Apply(s, Act(k, e));
      && |t.tasks| == |s.tasks| && |t.scans| == |s.scans|
      && (forall i | 0 <= i < |s.tasks| :: t.tasks[i].scan == s.tasks[i].scan)
      && forall i | 0 <= i < |s.scans| :: t.scans[i].ttl == s.scans[i].ttl
  {
  }

  /** Only a deleter must be within its TTL for the step to keep every owner's lock. */
  lemma StepKeepsLockInv(s: State, a: Action)
    requires TasksOk(s) && LockInv(s) && Enabled(s, a)
    requires a.Act? && Deletes(a.event) ==> s.now < s.tasks[a.k].p.expiry
    ensures LockInv(Apply(s, a))
  {
    if a.Act? {
      LocalKeepsTaskOk(s.now, s.scans[s.tasks[a.k].scan], s.tasks[a.k], a.event);
    }
  }

  /** Every DEL carried out in the run was carried out before its task's TTL ended. */
  ghost predicate TimelyDeletes(ss: seq<State>, acts: seq<Action>)
    requires IsRun(ss, acts)
  {
    forall i | 0 <= i < |acts| ::
      acts[i].Act? && Deletes(acts[i].event) ==> ss[i].now < ss[i].tasks[acts[i].k].p.expiry
  }

  lemma {:induction false} RunsKeepLockInv(ss: seq<State>, acts: seq<Action>, n: nat)
    requires IsRun(ss, acts) && n <= |acts|
    ensures TasksOk(ss[n]) && ExpiryInv(ss[n])
    ensures TimelyDeletes(ss, acts) ==> LockInv(ss[n])
  {
    if n > 0 {
      RunsKeepLockInv(ss, acts, n - 1);
      assert ss[n] == Apply(ss[n - 1], acts[n - 1]);
      StepKeepsTasksOk(ss[n - 1], acts[n - 1]);
      StepKeepsExpiryInv(ss[n - 1], acts[n - 1]);
      if TimelyDeletes(ss, acts) {
        StepKeepsLockInv(ss[n - 1], acts[n - 1]);
      }
    }
  }

  ghost predicate AlwaysWithinTtl(ss: seq<State>) {
    forall i | 0 <= i < |ss| :: WithinTtl(ss[i])
  }

  lemma WithinTtlIsTimely(ss: seq<State>, acts: seq<Action>)
    requires IsRun(ss, acts) && AlwaysWithinTtl(ss)
    ensures TimelyDeletes(ss, acts)
  {
    forall i | 0 <= i < |acts| && acts[i].Act? && Deletes(acts[i].event)
      ensures ss[i].now < ss[i].tasks[acts[i].k].p.expiry
    {
      RunsKeepLockInv(ss, acts, i);
      assert Enabled(ss[i], acts[i]) && WithinTtl(ss[i]);
      LocalKeepsTaskOk(ss[i].now, ss[i].scans[ss[i].tasks[acts[i].k].scan], ss[i].tasks[acts[i].k], acts[i].event);
    }
  }

  /** Mutual exclusion, in every interleaving of any number of scans, with lost replies, lost or
      late deletes and killed workers: two tasks that own a lock at the same time work on
      different (stock, strategy) pairs. */
  lemma MutualExclusion(ss: seq<State>, acts: seq<Action>, n: nat, j: nat, k: nat)
    requires IsRun(ss, acts) && AlwaysWithinTtl(ss) && n < |ss|
    requires j < |ss[n].tasks| && k < |ss[n].tasks| && j != k
    requires Owns(ss[n].tasks[j]) && Owns(ss[n].tasks[k])
    ensures ss[n].tasks[j].pair.code != ss[n].tasks[k].pair.code
      || StrategyNumber(ss[n].tasks[j].pair.strategy) != StrategyNumber(ss[n].tasks[k].pair.strategy)
  {
    WithinTtlIsTimely(ss, acts);
    RunsKeepLockInv(ss, acts, n);
    assert WithinTtl(ss[n]);
    var a, b := ss[n].tasks[j], ss[n].tasks[k];
    LockKeyIdentifies(a.pair.code, a.pair.strategy, b.pair.code, b.pair.strategy);
  }

  /** Each delete that reaches the server removes the lock its own task set, and no other key. */
  lemma DeletesOnlyItsOwnLock(ss: seq<State>, acts: seq<Action>, n: nat)
    requires IsRun(ss, acts) && AlwaysWithinTtl(ss) && n < |acts|
    requires acts[n].Act? && Deletes(acts[n].event)
    ensures var t := ss[n].tasks[acts[n].k];
      && t.pair.key in ss[n].store && ss[n].store[t.pair.key].owner == acts[n].k
      && ss[n + 1].store == ss[n].store - {t.pair.key}
  {
    WithinTtlIsTimely(ss, acts);
    RunsKeepLockInv(ss, acts, n);
    assert Enabled(ss[n], acts[n]) && ss[n + 1] == Apply(ss[n], acts[n]);
    LocalKeepsTaskOk(ss[n].now, ss[n].scans[ss[n].tasks[acts[n].k].scan], ss[n].tasks[acts[n].k], acts[n].event);
  }

  /** The task's only SET has been carried out or has failed. */
  predicate SetSpent(t: Task) {
    !t.p.stage.Created? && !t.p.stage.Acquiring? && !t.p.setInFlight
  }

  predicate OwnersSpent(s: State) {
    forall key | key in s.store :: s.store[key].owner < |s.tasks| && SetSpent(s.tasks[s.store[key].owner])
  }

  lemma StepKeepsSpent(s: State, a: Action, o: nat)
    requires TasksOk(s) && Enabled(s, a) && o < |s.tasks| && SetSpent(s.tasks[o])
    ensures o < |Apply(s, a).tasks| && SetSpent(Apply(s, a).tasks[o])
    ensures forall key | key in Apply(s, a).store && Apply(s, a).store[key].owner == o ::
      key in s.store && s.store[key] == Apply(s, a).store[key]
  {
  }

  lemma StepKeepsOwnersSpent(s: State, a: Action)
    requires TasksOk(s) && OwnersSpent(s) && Enabled(s, a)
    ensures OwnersSpent(Apply(s, a))
  {
    forall key | key in s.store { StepKeepsSpent(s, a, s.store[key].owner); }
  }

  lemma {:induction false} RunsKeepOwnersSpent(ss: seq<State>, acts: seq<Action>, n: nat)
    requires IsRun(ss, acts) && n < |ss|
    ensures OwnersSpent(ss[n])
  {
    if n > 0 {
      RunsKeepOwnersSpent(ss, acts, n - 1);
      RunsKeepLockInv(ss, acts, n - 1);
      assert ss[n] == Apply(ss[n - 1], acts[n - 1]);
      StepKeepsOwnersSpent(ss[n - 1], acts[n - 1]);
    }
  }

  /** The lock's task has used its SET, and a lock of its own under the key is this one. */
  ghost predicate Unrefreshed(s: State, key: string, lock: Lock) {
    && lock.owner < |s.tasks| && SetSpent(s.tasks[lock.owner])
    && (key in s.store && s.store[key].owner == lock.owner ==> s.store[key] == lock)
  }

  lemma StepKeepsUnrefreshed(ss: seq<State>, acts: seq<Action>, n: nat, key: string, lock: Lock)
    requires IsRun(ss, acts) && n < |acts| && Unrefreshed(ss[n], key, lock)
    ensures Unrefreshed(ss[n + 1], key, lock)
  {
    RunsKeepLockInv(ss, acts, n);
    StepKeepsSpent(ss[n], acts[n], lock.owner);
  }

  /** A stored lock is never refreshed: whenever a task's lock is seen again later in the run, it
      still ends at the same time. */
  lemma {:induction false} LocksAreNotRefreshed(ss: seq<State>, acts: seq<Action>, i: nat, j: nat, key: string)
    requires IsRun(ss, acts) && i <= j < |ss| && key in ss[i].store
    ensures Unrefreshed(ss[j], key, ss[i].store[key])
    decreases j
  {
    if i == j {
      RunsKeepOwnersSpent(ss, acts, i);
    } else {
      LocksAreNotRefreshed(ss, acts, i, j - 1, key);
      StepKeepsUnrefreshed(ss, acts, j - 1, key, ss[i].store[key]);
    }
  }

  /** A lock whose delete was lost, or whose worker was killed, frees itself: whatever happens in the
      meantime, once its scan's TTL has passed the next SET on the key succeeds, unless by then
      another task's lock stands there. */
  lemma LingeringLockFrees(ss: seq<State>, acts: seq<Action>, i: nat, j: nat, key: string, waiting: nat)
    requires IsRun(ss, acts) && i <= j < |ss| && key in ss[i].store
    requires waiting < |ss[j].tasks| && ss[j].tasks[waiting].pair.key == key
    requires ss[j].tasks[waiting].p.stage == Acquiring
    ensures ExpiryInv(ss[i]) && TasksOk(ss[j])
    ensures var ttl := ss[i].scans[ss[i].tasks[ss[i].store[key].owner].scan].ttl;
      (ss[j].now >= ss[i].now + ttl && ss[j].scans[ss[j].tasks[waiting].scan].ttl > 0) ==>
        (Enabled(ss[j], Act(waiting, Grant))
         || (Live(ss[j], key) && ss[j].store[key].owner != ss[i].store[key].owner))
  {
    RunsKeepLockInv(ss, acts, i);
    RunsKeepLockInv(ss, acts, j);
    LocksAreNotRefreshed(ss, acts, i, j, key);
    if ss[j].now >= ss[i].store[key].expiry && ss[j].scans[ss[j].tasks[waiting].scan].ttl > 0 {
      FreeOrRelocked(ss[j], key, ss[i].store[key], waiting);
    }
  }

  lemma FreeOrRelocked(s: State, key: string, lock: Lock, waiting: nat)
    requires TasksOk(s) && Unrefreshed(s, key, lock) && s.now >= lock.expiry
    requires waiting < |s.tasks| && s.tasks[waiting].pair.key == key && s.tasks[waiting].p.stage == Acquiring
    requires s.scans[s.tasks[waiting].scan].ttl > 0
    ensures Enabled(s, Act(waiting, Grant)) || (Live(s, key) && s.store[key].owner != lock.owner)
  {
  }

  /** The timing assumption is what mutual exclusion needs: next to an owner, a second task is
      admitted exactly when the owner has overrun its TTL and nobody else holds the key. */
  lemma SecondOwnerIffOverrun(ss: seq<State>, acts: seq<Action>, n: nat, owner: nat, rival: nat)
    requires IsRun(ss, acts) && TimelyDeletes(ss, acts) && n < |ss|
    requires owner < |ss[n].tasks| && rival < |ss[n].tasks| && owner != rival
    requires Owns(ss[n].tasks[owner]) && ss[n].tasks[rival].p.stage == Acquiring
    requires ss[n].tasks[owner].pair.key == ss[n].tasks[rival].pair.key
    ensures ss[n].tasks[rival].scan < |ss[n].scans|
    ensures ss[n].scans[ss[n].tasks[rival].scan].ttl > 0 ==>
      (Enabled(ss[n], Act(rival, Grant))
       <==> ss[n].tasks[owner].p.expiry <= ss[n].now && !Live(ss[n], ss[n].tasks[rival].pair.key))
  {
    RunsKeepLockInv(ss, acts, n);
  }

  /** From there on exclusion is lost for good: both own the key, and the overdue owner's delete
      removes its rival's lock. */
  lemma OverrunBreaksExclusion(s: State, owner: nat, rival: nat)
    requires TasksOk(s) && owner < |s.tasks| && rival < |s.tasks| && owner != rival
    requires s.tasks[owner].p.stage == Releasing && s.tasks[owner].pair.key == s.tasks[rival].pair.key
    requires Enabled(s, Act(rival, Grant))
    ensures var s1 := Apply(s, Act(rival, Grant));
      && Owns(s1.tasks[owner]) && Owns(s1.tasks[rival])
      && s1.store[s.tasks[rival].pair.key].owner == rival
      && Enabled(s1, Act(owner, Delete))
      && s.tasks[rival].pair.key !in Apply(s1, Act(owner, Delete)).store
      && Owns(Apply(s1, Act(owner, Delete)).tasks[rival])
  {
  }

  ghost predicate Reachable(s: State) {
    exists ss, acts :: IsRun(ss, acts) && ss[|ss| - 1] == s
  }

  lemma ReachesNext(s: State, a: Action, s': State)
    requires Reachable(s) && Enabled(s, a) && Apply(s, a) == s'
    ensures Reachable(s')
  {
    var ss, acts :| IsRun(ss, acts) && ss[|ss| - 1] == s;
    RunGoesOn(ss, acts, a, s');
    assert (ss + [s'])[|ss + [s']| - 1] == s';
  }

  lemma RunGoesOn(ss: seq<State>, acts: seq<Action>, a: Action, s': State)
    requires IsRun(ss, acts) && Enabled(ss[|acts|], a) && Apply(ss[|acts|], a) == s'
    ensures IsRun(ss + [s'], acts + [a])
  {
    var longer, more := ss + [s'], acts + [a];
    forall i | 0 <= i < |more| ensures Enabled(longer[i], more[i]) && longer[i + 1] == Apply(longer[i], more[i]) {
      if i < |acts| {
        assert longer[i] == ss[i] && longer[i + 1] == ss[i + 1] && more[i] == acts[i];
      }
    }
  }

  lemma InitialReachable()
    ensures Reachable(Initial())
  {
    assert IsRun([Initial()], []) && [Initial()][|[Initial()]| - 1] == Initial();
  }

  /** The scan of the example: the shipped settings, with `taken` permits in use. */
  function ExampleScan(taken: nat, scanned: nat): Scan
    requires taken <= 5
  {
    Scan(5, 300, 0.65, false, 5 - taken, NO_STATS.(scanned := scanned))
  }

  /** Two scans with a free permit each, and a first task. */
  lemma TwoScans(t: Task, code: string, strategy: Option<int>)
    requires t == NewTask(0, code, strategy)
    ensures Reachable(State(0, map[], [ExampleScan(0, 0), ExampleScan(0, 0)], [t]))
  {
    var free := ExampleScan(0, 0);
    var s1 := State(0, map[], [free], []);
    var s2 := State(0, map[], [free, free], []);
    InitialReachable();
    ReachesNext(Initial(), StartScan(5, 300, 0.65, false), s1);
    ReachesNext(s1, StartScan(5, 300, 0.65, false), s2);
    ReachesNext(s2, Spawn(0, code, strategy), State(0, map[], [free, free], [t]));
  }

  /** The first task holds the lock. */
  lemma FirstOwner(t: Task, code: string, strategy: Option<int>)
    requires t == NewTask(0, code, strategy)
    ensures Reachable(State(0, map[t.pair.key := Lock(300, 0)], [ExampleScan(1, 0), ExampleScan(0, 0)],
                            [t.(p := t.p.(stage := Granted, permit := true, expiry := 300))]))
  {
    var free, taken := ExampleScan(0, 0), ExampleScan(1, 0);
    var s3 := State(0, map[], [free, free], [t]);
    var s4 := State(0, map[], [taken, free], [t.(p := t.p.(stage := Acquiring, permit := true))]);
    TwoScans(t, code, strategy);
    assert [free, free][0 := taken] == [taken, free] && [taken, free][0 := taken] == [taken, free];
    ReachesNext(s3, Act(0, Enter), s4);
    var s5 := State(0, map[t.pair.key := Lock(300, 0)], [taken, free],
                    [t.(p := t.p.(stage := Granted, permit := true, expiry := 300))]);
    GrantToFirst(s4, s5);
    ReachesNext(s4, Act(0, Grant), s5);
  }

  lemma GrantToFirst(s: State, next: State)
    requires |s.scans| == 2 && |s.tasks| == 1 && s.now == 0 && s.store == map[]
    requires s.tasks[0].scan == 0 && s.tasks[0].p.stage == Acquiring && s.tasks[0].p.permit && s.scans[0].ttl == 300
    requires next == State(0, map[s.tasks[0].pair.key := Lock(300, 0)], s.scans,
                           [s.tasks[0].(p := s.tasks[0].p.(stage := Granted, expiry := 300))])
    ensures Enabled(s, Act(0, Grant)) && Apply(s, Act(0, Grant)) == next
  {
    assert s.scans[0 := s.scans[0]] == s.scans;
  }

  /** The first task has begun to analyse. */
  lemma FirstAnalyzing(t: Task, code: string, strategy: Option<int>)
    requires t == NewTask(0, code, strategy)
    ensures Reachable(State(0, map[t.pair.key := Lock(300, 0)], [ExampleScan(1, 1), ExampleScan(0, 0)],
                            [t.(p := t.p.(stage := Analyzing, permit := true, expiry := 300, scanned := true))]))
  {
    var t2 := t.(p := t.p.(stage := Granted, permit := true, expiry := 300));
    var free, taken, scanned := ExampleScan(0, 0), ExampleScan(1, 0), ExampleScan(1, 1);
    var held := map[t.pair.key := Lock(300, 0)];
    var s5 := State(0, held, [taken, free], [t2]);
    var s6 := State(0, held, [scanned, free], [t2.(p := t2.p.(stage := Checking, scanned := true))]);
    FirstOwner(t, code, strategy);
    ReachesNext(s5, Act(0, GrantReply), s6);
    ReachesNext(s6, Act(0, Check(NoValidSignal)), s6.(tasks := [t2.(p := t2.p.(stage := Analyzing, scanned := true))]));
  }

  /** With the shipped TTL of 300 seconds and an analysis that takes that long, a second scan enters next to
      the first. The soft time limit of 300 seconds does not prevent it: it raises an ordinary exception once,
      which the `except Exception` of whichever task is running swallows while the others go on up to the hard
      limit of 600 seconds, and the solo pool of the local worker enforces neither limit. */
  lemma OverrunExample(code: string, strategy: Option<int>) returns (s: State)
    ensures Reachable(s)
    ensures s.now == 300 && |s.tasks| == 2
    ensures forall i | 0 <= i < |s.scans| :: s.scans[i].ttl == 300
    ensures s.tasks[0].pair.key == s.tasks[1].pair.key && Owns(s.tasks[0]) && Owns(s.tasks[1])
  {
    var t := NewTask(0, code, strategy);
    var t4 := t.(p := t.p.(stage := Analyzing, permit := true, expiry := 300, scanned := true));
    var u := NewTask(1, code, strategy);
    var u1 := u.(p := u.p.(stage := Acquiring, permit := true));
    var free, taken, scanned := ExampleScan(0, 0), ExampleScan(1, 0), ExampleScan(1, 1);
    var held := map[t.pair.key := Lock(300, 0)];
    var s7 := State(0, held, [scanned, free], [t4]);
    var s8 := State(0, held, [scanned, free], [t4, u]);
    var s9 := State(0, held, [scanned, taken], [t4, u1]);
    FirstAnalyzing(t, code, strategy);
    ReachesNext(s7, Spawn(1, code, strategy), s8);
    ReachesNext(s8, Act(1, Enter), s9);
    ReachesNext(s9, Tick(300), s9.(now := 300));
    s := Apply(s9.(now := 300), Act(1, Grant));
    ReachesNext(s9.(now := 300), Act(1, Grant), s);
  }

  // ---------------------------------------------------------------- counters

  /** The task properties that are counted. */
  datatype Query = Having(verdict: Verdict) | Decided | Scanned | Generated | Actionable | InSemaphore

  predicate Sat(q: Query, t: Task) {
    match q
    case Having(v) => t.p.verdict == v
    case Decided => t.p.verdict != Undecided
    case Scanned => t.p.scanned
    case Generated => t.p.generated
    case Actionable => t.p.actionable
    case InSemaphore => t.p.permit
  }

  /** How many tasks of scan i satisfy q. */
  function Count(tasks: seq<Task>, i: nat, q: Query): nat {
    if tasks == [] then 0
    else Count(tasks[..|tasks| - 1], i, q)
         + One(tasks[|tasks| - 1].scan == i && Sat(q, tasks[|tasks| - 1]))
  }

  lemma {:induction false} CountAfterUpdate(tasks: seq<Task>, k: nat, t: Task, i: nat, q: Query)
    requires k < |tasks| && t.scan == tasks[k].scan
    ensures Count(tasks[k := t], i, q) + One(tasks[k].scan == i && Sat(q, tasks[k]))
         == Count(tasks, i, q) + One(t.scan == i && Sat(q, t))
  {
    var n := |tasks| - 1;
    if k == n {
      assert tasks[k := t][..n] == tasks[..n];
    } else {
      assert tasks[k := t][..n] == tasks[..n][k := t];
      CountAfterUpdate(tasks[..n], k, t, i, q);
    }
  }

  /** Where the counted number shows: a counter in `stats`, or the permits taken. */
  function Shown(scan: Scan, q: Query): int {
    var st := scan.stats;
    match q
    case Having(SkippedLocked) => st.skippedLocked
    case Having(SkippedCached) => st.skippedCached
    case Having(SkippedHold) => st.skippedHold
    case Having(Recommended) => st.created
    case Having(Errored) => st.errors
    case Having(Undecided) => 0
    case Decided => st.skippedLocked + st.skippedCached + st.skippedHold + st.created + st.errors
    case Scanned => st.scanned
    case Generated => st.generated
    case Actionable => st.actionable
    case InSemaphore => scan.concurrency - scan.permits
  }

  predicate CounterExact(s: State, i: nat, q: Query)
    requires i < |s.scans|
  {
    Shown(s.scans[i], q) == Count(s.tasks, i, q)
  }

  ghost predicate CountersExact(s: State) {
    forall i: nat, q | i < |s.scans| && q != Having(Undecided) :: CounterExact(s, i, q)
  }

  lemma LocalMovesCounters(now: nat, scan: Scan, t: Task, e: Event, q: Query)
    requires Ready(t, e) && TaskOk(t) && q != Having(Undecided)
    requires e.Enter? ==> scan.permits > 0
    ensures var t' := TaskAfter(now, scan, t, e);
      Shown(scan.(stats := StatsAfter(scan, e), permits := PermitsAfter(scan, t, t')), q) + One(Sat(q, t))
      == Shown(scan, q) + One(Sat(q, t'))
  {
  }

  lemma {:induction false} NoTasksOfScan(tasks: seq<Task>, i: nat, q: Query)
    requires forall k | 0 <= k < |tasks| :: tasks[k].scan < i
    ensures Count(tasks, i, q) == 0
  {
    if tasks != [] {
      NoTasksOfScan(tasks[..|tasks| - 1], i, q);
    }
  }

  lemma StepKeepsCounters(s: State, a: Action)
    requires TasksOk(s) && CountersExact(s) && Enabled(s, a)
    ensures CountersExact(Apply(s, a))
  {
    forall i, q | 0 <= i < |Apply(s, a).scans| && q != Having(Undecided)
      ensures CounterExact(Apply(s, a), i, q)
    {
      StepKeepsCounter(s, a, i, q);
    }
  }

  lemma StepKeepsCounter(s: State, a: Action, i: nat, q: Query)
    requires TasksOk(s) && CountersExact(s) && Enabled(s, a)
    requires i < |Apply(s, a).scans| && q != Having(Undecided)
    ensures CounterExact(Apply(s, a), i, q)
  {
    match a
    case StartScan(_, _, _, _) => NewScanCounter(s, a, i, q);
    case Spawn(_, _, _) => NewTaskCounter(s, a, i, q);
    case Tick(_) => assert CounterExact(s, i, q);
    case Act(k, e) => EventKeepsCounter(s, k, e, i, q);
  }

  lemma NewScanCounter(s: State, a: Action, i: nat, q: Query)
    requires a.StartScan? && TasksOk(s) && CountersExact(s) && i <= |s.scans| && q != Having(Undecided)
    ensures CounterExact(Apply(s, a), i, q)
  {
    if i < |s.scans| {
      assert CounterExact(s, i, q);
    } else {
      NoTasksOfScan(s.tasks, i, q);
    }
  }

  lemma NewTaskCounter(s: State, a: Action, i: nat, q: Query)
    requires a.Spawn? && Enabled(s, a) && CountersExact(s) && i < |s.scans| && q != Having(Undecided)
    ensures CounterExact(Apply(s, a), i, q)
  {
    assert CounterExact(s, i, q);
    assert Apply(s, a).tasks[..|s.tasks|] == s.tasks;
  }

  lemma EventKeepsCounter(s: State, k: nat, e: Event, i: nat, q: Query)
    requires TasksOk(s) && CountersExact(s) && Enabled(s, Act(k, e)) && i < |s.scans| && q != Having(Undecided)
    ensures CounterExact(Apply(s, Act(k, e)), i, q)
  {
    var t := s.tasks[k];
    assert CounterExact(s, i, q);
    CountAfterUpdate(s.tasks, k, TaskAfter(s.now, s.scans[t.scan], t, e), i, q);
    if i == t.scan {
      LocalMovesCounters(s.now, s.scans[t.scan], t, e, q);
    }
  }

  lemma {:induction false} RunsKeepCounters(ss: seq<State>, acts: seq<Action>, n: nat)
    requires IsRun(ss, acts) && n < |ss|
    ensures CountersExact(ss[n])
  {
    if n > 0 {
      RunsKeepCounters(ss, acts, n - 1);
      RunsKeepLockInv(ss, acts, n - 1);
      assert ss[n] == Apply(ss[n - 1], acts[n - 1]);
      StepKeepsCounters(ss[n - 1], acts[n - 1]);
    }
  }

  lemma {:induction false} CountMonotone(tasks: seq<Task>, i: nat, p: Query, q: Query)
    requires forall k | 0 <= k < |tasks| :: Sat(p, tasks[k]) ==> Sat(q, tasks[k])
    ensures Count(tasks, i, p) <= Count(tasks, i, q)
  {
    if tasks != [] {
      CountMonotone(tasks[..|tasks| - 1], i, p, q);
    }
  }

  /** In every reachable state each counter of each scan is the exact number of tasks it stands for,
      the counters are ordered, every finished task is in exactly one of the five outcome
      counters, and no more than `concurrency` tasks are inside the semaphore. */
  lemma CountersAddUp(ss: seq<State>, acts: seq<Action>, n: nat, i: nat)
    requires IsRun(ss, acts) && n < |ss| && i < |ss[n].scans|
    ensures var st := ss[n].scans[i].stats;
      && Count(ss[n].tasks, i, Decided)
           == st.skippedLocked + st.skippedCached + st.skippedHold + st.created + st.errors
      && Count(ss[n].tasks, i, Having(Recommended)) == st.created
      && Count(ss[n].tasks, i, Having(Errored)) == st.errors
      && Count(ss[n].tasks, i, Having(SkippedLocked)) == st.skippedLocked
      && st.created <= st.actionable <= st.generated <= st.scanned
    ensures forall k | 0 <= k < |ss[n].tasks| :: ss[n].tasks[k].p.stage == Finished ==> Sat(Decided, ss[n].tasks[k])
    ensures Count(ss[n].tasks, i, InSemaphore) <= ss[n].scans[i].concurrency
  {
    RunsKeepCounters(ss, acts, n);
    RunsKeepLockInv(ss, acts, n);
    OutcomesShown(ss[n], i);
    FlowShown(ss[n], i);
  }

  /** Task k's analysis gives a signal that is held, or one that is not. */
  predicate Gives(a: Action, k: nat, least: real, hold: bool) {
    && a.Act? && a.k == k && a.event.Analyze? && a.event.analysis.Signal?
    && hold == (a.event.analysis.action == "HOLD" || a.event.analysis.confidence < least)
  }

  ghost predicate Given(acts: seq<Action>, n: nat, k: nat, least: real, hold: bool)
    requires n <= |acts|
  {
    exists j: nat :: j < n && Gives(acts[j], k, least, hold)
  }

  /** What the signals leave on a task. */
  ghost predicate MarkedBySignals(s: State, acts: seq<Action>, n: nat, k: nat)
    requires n <= |acts| && k < |s.tasks| && s.tasks[k].scan < |s.scans|
  {
    var p, least := s.tasks[k].p, s.scans[s.tasks[k].scan].minConfidence;
    && (p.actionable <==> Given(acts, n, k, least, false))
    && (p.verdict == SkippedHold <==> Given(acts, n, k, least, true))
  }

  lemma SignalMarks(now: nat, scan: Scan, t: Task, k: nat, e: Event)
    requires Ready(t, e) && StageOk(t)
    ensures var p, p' := t.p, TaskAfter(now, scan, t, e).p;
      && (p'.actionable <==> p.actionable || Gives(Act(k, e), k, scan.minConfidence, false))
      && (p'.verdict == SkippedHold <==> p.verdict == SkippedHold || Gives(Act(k, e), k, scan.minConfidence, true))
  {
  }

  /** No action changes the settings of a scan, or moves a task to another one. */
  lemma SettingsStay(s: State, a: Action, k: nat)
    requires TasksOk(s) && Enabled(s, a) && k < |s.tasks|
    ensures var s' := Apply(s, a);
      && k < |s'.tasks| && s'.tasks[k].scan == s.tasks[k].scan < |s.scans| <= |s'.scans|
      && s'.scans[s.tasks[k].scan].minConfidence == s.scans[s.tasks[k].scan].minConfidence
      && ((a.Act? && a.k == k) || s'.tasks[k] == s.tasks[k])
  {
  }

  lemma {:induction false} TasksStay(ss: seq<State>, acts: seq<Action>, j: nat, n: nat)
    requires IsRun(ss, acts) && j <= n < |ss|
    ensures |ss[j].tasks| <= |ss[n].tasks|
  {
    if j < n {
      TasksStay(ss, acts, j, n - 1);
      assert ss[n] == Apply(ss[n - 1], acts[n - 1]);
    }
  }

  lemma StepMarks(s: State, acts: seq<Action>, n: nat, k: nat)
    requires n < |acts| && TasksOk(s) && Enabled(s, acts[n]) && k < |s.tasks| && MarkedBySignals(s, acts, n, k)
    ensures var s' := Apply(s, acts[n]);
      k < |s'.tasks| && s'.tasks[k].scan < |s'.scans| && MarkedBySignals(s', acts, n + 1, k)
  {
    SettingsStay(s, acts[n], k);
    var scan := s.scans[s.tasks[k].scan];
    GivenStep(acts, n, k, scan.minConfidence, false);
    GivenStep(acts, n, k, scan.minConfidence, true);
    if acts[n].Act? && acts[n].k == k {
      SignalMarks(s.now, scan, s.tasks[k], k, acts[n].event);
    }
  }

  lemma GivenStep(acts: seq<Action>, n: nat, k: nat, least: real, hold: bool)
    requires n < |acts|
    ensures Given(acts, n + 1, k, least, hold) <==> Given(acts, n, k, least, hold) || Gives(acts[n], k, least, hold)
  {
    if Given(acts, n, k, least, hold) {
      var j: nat :| j < n && Gives(acts[j], k, least, hold);
    }
  }

  lemma SpawnedUnmarked(s: State, a: Action, k: nat)
    requires Enabled(s, a) && |s.tasks| <= k < |Apply(s, a).tasks|
    ensures !Apply(s, a).tasks[k].p.actionable && Apply(s, a).tasks[k].p.verdict == Undecided
  {
  }

  lemma {:induction false} RunsMark(ss: seq<State>, acts: seq<Action>, n: nat, k: nat)
    requires IsRun(ss, acts) && n < |ss| && k < |ss[n].tasks|
    ensures ss[n].tasks[k].scan < |ss[n].scans| && MarkedBySignals(ss[n], acts, n, k)
  {
    RunsKeepLockInv(ss, acts, n);
    if n > 0 {
      RunsKeepLockInv(ss, acts, n - 1);
      assert Enabled(ss[n - 1], acts[n - 1]) && ss[n] == Apply(ss[n - 1], acts[n - 1]);
      if k < |ss[n - 1].tasks| {
        RunsMark(ss, acts, n - 1, k);
        StepMarks(ss[n - 1], acts, n - 1, k);
      } else {
        NothingGiven(ss, acts, n, k);
        SpawnedUnmarked(ss[n - 1], acts[n - 1], k);
      }
    }
  }

  lemma NothingGiven(ss: seq<State>, acts: seq<Action>, n: nat, k: nat)
    requires IsRun(ss, acts) && 0 < n < |ss| && |ss[n - 1].tasks| <= k
    ensures forall least, hold :: !Given(acts, n, k, least, hold)
  {
    forall j: nat | j < n ensures !(acts[j].Act? && acts[j].k == k) {
      TasksStay(ss, acts, j, n - 1);
      assert Enabled(ss[j], acts[j]);
    }
  }

  /** In every run a task is offered for publication exactly when its analysis gave an action other than HOLD
      with at least the confidence its scan asks for, and is held exactly when its analysis gave another signal. */
  lemma OfferedIffConfident(ss: seq<State>, acts: seq<Action>, n: nat, k: nat)
    requires IsRun(ss, acts) && n < |ss| && k < |ss[n].tasks|
    ensures ss[n].tasks[k].scan < |ss[n].scans|
    ensures var p, least := ss[n].tasks[k].p, ss[n].scans[ss[n].tasks[k].scan].minConfidence;
      && (p.actionable <==>
          exists j: nat :: (
            && j < n && acts[j].Act? && acts[j].k == k && acts[j].event.Analyze? && acts[j].event.analysis.Signal?
            && acts[j].event.analysis.action != "HOLD" && acts[j].event.analysis.confidence >= least))
      && (p.verdict == SkippedHold <==>
          exists j: nat :: (
            && j < n && acts[j].Act? && acts[j].k == k && acts[j].event.Analyze? && acts[j].event.analysis.Signal?
            && (acts[j].event.analysis.action == "HOLD" || acts[j].event.analysis.confidence < least)))
      && (p.stage == Publishing || p.verdict == Recommended ==> p.actionable)
  {
    RunsMark(ss, acts, n, k);
    RunsKeepLockInv(ss, acts, n);
    var least := ss[n].scans[ss[n].tasks[k].scan].minConfidence;
    GivenMeans(acts, n, k, least);
  }

  lemma GivenMeans(acts: seq<Action>, n: nat, k: nat, least: real)
    requires n <= |acts|
    ensures Given(acts, n, k, least, false) <==>
      exists j: nat :: (
        && j < n && acts[j].Act? && acts[j].k == k && acts[j].event.Analyze? && acts[j].event.analysis.Signal?
        && acts[j].event.analysis.action != "HOLD" && acts[j].event.analysis.confidence >= least)
    ensures Given(acts, n, k, least, true) <==>
      exists j: nat :: (
        && j < n && acts[j].Act? && acts[j].k == k && acts[j].event.Analyze? && acts[j].event.analysis.Signal?
        && (acts[j].event.analysis.action == "HOLD" || acts[j].event.analysis.confidence < least))
  {
    forall j: nat | j < n
      ensures Gives(acts[j], k, least, false) <==>
        (&& acts[j].Act? && acts[j].k == k && acts[j].event.Analyze? && acts[j].event.analysis.Signal?
         && acts[j].event.analysis.action != "HOLD" && acts[j].event.analysis.confidence >= least)
    {
    }
  }

  lemma OutcomesShown(s: State, i: nat)
    requires CountersExact(s) && i < |s.scans|
    ensures var st := s.scans[i].stats;
      && Count(s.tasks, i, Decided) == st.skippedLocked + st.skippedCached + st.skippedHold + st.created + st.errors
      && Count(s.tasks, i, Having(Recommended)) == st.created
      && Count(s.tasks, i, Having(Errored)) == st.errors
      && Count(s.tasks, i, Having(SkippedLocked)) == st.skippedLocked
    ensures Count(s.tasks, i, InSemaphore) <= s.scans[i].concurrency
  {
    assert CounterExact(s, i, Decided) && CounterExact(s, i, InSemaphore) && CounterExact(s, i, Having(Recommended));
    assert CounterExact(s, i, Having(Errored)) && CounterExact(s, i, Having(SkippedLocked));
  }

  lemma FlowShown(s: State, i: nat)
    requires CountersExact(s) && TasksOk(s) && i < |s.scans|
    ensures var st := s.scans[i].stats; st.created <= st.actionable <= st.generated <= st.scanned
  {
    assert CounterExact(s, i, Having(Recommended)) && CounterExact(s, i, Actionable);
    assert CounterExact(s, i, Generated) && CounterExact(s, i, Scanned);
    CountMonotone(s.tasks, i, Having(Recommended), Actionable);
    CountMonotone(s.tasks, i, Actionable, Generated);
    CountMonotone(s.tasks, i, Generated, Scanned);
  }
}
