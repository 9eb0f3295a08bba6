/** `_scan_one` and the lock calls of `CacheManager` as they are written: straight-line code over
    mutable state. Each execution is shown to be a run of the step machine in SignalScan from any state
    whose store is the cache's; the interleavings of such runs carry the safety results. */
module ScanService {
  import opened Common
  import opened LockKeys
  import opened SignalScan

  /** What the network does to one command. */
  datatype Fault = NoFault | RequestLost | ReplyLost

  /** SET NX EX reaches a server with these keys: whether it takes effect, and the keys afterwards. Redis
      refuses a TTL that is not positive. */
  predicate Effective(store: map<string, Lock>, key: string, ttl: int, now: nat) {
    ttl > 0 && (key !in store || store[key].expiry <= now)
  }

  function AfterSet(store: map<string, Lock>, key: string, ttl: int, now: nat, owner: nat): map<string, Lock> {
    if Effective(store, key, ttl, now) then store[key := Lock(now + ttl, owner)] else store
  }

  class CacheManager {
    /** The server's keys. */
    var store: map<string, Lock>
    var connected: bool

    constructor ()
      ensures store == map[] && !connected
    {
      store, connected := map[], false;
    }

    /** `_get_client`: the client is built once; building it raises when it is not `usable`. */
    method GetClient(usable: bool) returns (raised: bool)
      modifies this`connected
      ensures connected == (old(connected) || usable) && raised == !connected
    {
      if !connected {
        connected := usable;
      }
      raised := !connected;
    }

    /** None: the call raised. */
    method SetLock(key: string, ttl: int, now: nat, owner: nat, usable: bool, fault: Fault)
      returns (acquired: Option<bool>)
      modifies this
      ensures connected == (old(connected) || usable) && (acquired.None? <==> !connected)
      ensures acquired.Some? ==>
        (acquired.value <==> Effective(old(store), key, ttl, now) && fault == NoFault)
      ensures store == if connected && fault != RequestLost then AfterSet(old(store), key, ttl, now, owner)
                       else old(store)
    {
      var raised := GetClient(usable);
      if raised {
        return None;
      }
      if fault == RequestLost {
        return Some(false);
      }
      var applied := false;
      if ttl > 0 && (key !in store || store[key].expiry <= now) {
        store := store[key := Lock(now + ttl, owner)];
        applied := true;
      }
      acquired := Some(applied && fault == NoFault);
    }

    /** A failing DEL is swallowed. */
    method ReleaseLock(key: string, usable: bool, fault: Fault) returns (raised: bool)
      modifies this
      ensures connected == (old(connected) || usable) && raised == !connected
      ensures store == if raised || fault == RequestLost then old(store) else old(store) - {key}
    {
      raised := GetClient(usable);
      if !raised && fault != RequestLost {
        store := store - {key};
      }
    }
  }

  /** The state after task k's events, or None when one of them is not enabled where it comes. */
  function Played(s: State, k: nat, events: seq<Event>): Option<State> {
    if events == [] then Some(s)
    else
      var n := |events| - 1;
      match Played(s, k, events[..n])
      case None => None
      case Some(m) => if Enabled(m, Act(k, events[n])) then Some(Apply(m, Act(k, events[n]))) else None
  }

  /** Task k stands in m as t, its scan as scan. */
  predicate Stands(m: State, k: nat, t: Task, scan: Scan) {
    k < |m.tasks| && m.tasks[k] == t && t.scan < |m.scans| && m.scans[t.scan] == scan
  }

  /** One more enabled event makes a longer run. */
  lemma PlayOneMore(s: State, k: nat, events: seq<Event>, m: State, e: Event)
    requires Played(s, k, events) == Some(m) && Enabled(m, Act(k, e))
    ensures Played(s, k, events + [e]) == Some(Apply(m, Act(k, e)))
  {
    assert (events + [e])[..|events|] == events;
  }

  /** It changes the store, the task and its scan as its own part of the step says. */
  lemma Step(s: State, k: nat, events: seq<Event>, m: State, t: Task, scan: Scan, e: Event)
    returns (events': seq<Event>, m': State, t': Task)
    requires Played(s, k, events) == Some(m) && Stands(m, k, t, scan) && Enabled(m, Act(k, e))
    ensures Played(s, k, events') == Some(m') && m'.now == m.now && m'.store == StoreAfter(m, k, e)
    ensures t' == TaskAfter(m.now, scan, t, e)
    ensures Stands(m', k, t', scan.(stats := StatsAfter(scan, e), permits := PermitsAfter(scan, t, t')))
  {
    PlayOneMore(s, k, events, m, e);
    events', m', t' := events + [e], Apply(m, Act(k, e)), TaskAfter(m.now, scan, t, e);
  }

  /** The permit is taken. */
  lemma Entered(s: State, k: nat, t: Task, scan: Scan) returns (trace: seq<Event>, m: State, t': Task)
    requires Stands(s, k, t, scan) && t.p.stage == Created && !t.p.permit && scan.permits > 0
    ensures Played(s, k, trace) == Some(m) && m.now == s.now && m.store == s.store
    ensures t' == t.(p := t.p.(stage := Acquiring, permit := true))
    ensures Stands(m, k, t', scan.(permits := scan.permits - 1))
  {
    trace, m, t' := Step(s, k, [], s, t, scan, Enter);
  }

  lemma SetThenDeleted(store: map<string, Lock>, key: string, ttl: int, now: nat, owner: nat)
    requires Effective(store, key, ttl, now)
    ensures AfterSet(store, key, ttl, now, owner) - {key} == store - {key}
  {
  }

  /** The events behind set_lock raising. */
  lemma SetLockRaises(s: State, k: nat, trace: seq<Event>, m: State, t: Task, scan: Scan)
    returns (trace': seq<Event>, m': State, t': Task)
    requires Played(s, k, trace) == Some(m) && Stands(m, k, t, scan) && t.p.stage == Acquiring && t.p.permit
    ensures Played(s, k, trace') == Some(m') && m'.now == m.now && m'.store == m.store
    ensures t'.p.stage == Finished && !t'.p.permit && t'.scan == t.scan && t'.p.verdict == Errored
    ensures Stands(m', k, t', scan.(stats := scan.stats.(errors := scan.stats.errors + 1), permits := scan.permits + 1))
  {
    trace', m', t' := Step(s, k, trace, m, t, scan, SetRaised);
  }

  lemma GrantStores(m: State, k: nat, t: Task, scan: Scan)
    requires Stands(m, k, t, scan) && t.p.stage == Acquiring && Effective(m.store, t.pair.key, scan.ttl, m.now)
    ensures Enabled(m, Act(k, Grant))
    ensures StoreAfter(m, k, Grant) == AfterSet(m.store, t.pair.key, scan.ttl, m.now, k)
  {
  }

  /** The SET takes effect. */
  lemma Grants(s: State, k: nat, trace: seq<Event>, m: State, t: Task, scan: Scan)
    returns (trace': seq<Event>, m': State, t': Task)
    requires Played(s, k, trace) == Some(m) && Stands(m, k, t, scan) && t.p.stage == Acquiring && t.p.permit
    requires Effective(m.store, t.pair.key, scan.ttl, m.now)
    ensures Played(s, k, trace') == Some(m') && m'.now == m.now && Stands(m', k, t', scan)
    ensures m'.store == AfterSet(m.store, t.pair.key, scan.ttl, m.now, k)
    ensures t'.p.stage == Granted && t'.p.permit && t'.scan == t.scan && t'.pair == t.pair
  {
    GrantStores(m, k, t, scan);
    trace', m', t' := Step(s, k, trace, m, t, scan, Grant);
  }

  /** The event with which a denied task leaves the semaphore. */
  lemma Leaves(s: State, k: nat, trace: seq<Event>, m: State, t: Task, scan: Scan, e: Event)
    returns (trace': seq<Event>, m': State, t': Task)
    requires Played(s, k, trace) == Some(m) && Stands(m, k, t, scan) && t.p.permit
    requires (e == SetAbandoned(false) || e == Refuse || e == GrantReplyLost) && Enabled(m, Act(k, e))
    ensures Played(s, k, trace') == Some(m') && m'.now == m.now && m'.store == m.store
    ensures t'.p.stage == Finished && !t'.p.permit && t'.scan == t.scan && t'.p.verdict == SkippedLocked
    ensures Stands(m', k, t', scan.(stats := scan.stats.(skippedLocked := scan.stats.skippedLocked + 1),
                                    permits := scan.permits + 1))
  {
    trace', m', t' := Step(s, k, trace, m, t, scan, e);
  }

  /** The events behind set_lock returning False. */
  lemma Denied(s: State, k: nat, trace: seq<Event>, m: State, t: Task, scan: Scan, fault: Fault)
    returns (trace': seq<Event>, m': State, t': Task)
    requires Played(s, k, trace) == Some(m) && Stands(m, k, t, scan) && t.p.stage == Acquiring && t.p.permit
    requires fault != NoFault || !Effective(m.store, t.pair.key, scan.ttl, m.now)
    ensures Played(s, k, trace') == Some(m') && m'.now == m.now
    ensures m'.store == if fault == RequestLost then m.store else AfterSet(m.store, t.pair.key, scan.ttl, m.now, k)
    ensures t'.p.stage == Finished && !t'.p.permit && t'.scan == t.scan && t'.p.verdict == SkippedLocked
    ensures Stands(m', k, t', scan.(stats := scan.stats.(skippedLocked := scan.stats.skippedLocked + 1),
                                    permits := scan.permits + 1))
  {
    if fault == RequestLost || scan.ttl == 0 {
      trace', m', t' := Leaves(s, k, trace, m, t, scan, SetAbandoned(false));
    } else if Live(m, t.pair.key) {
      trace', m', t' := Leaves(s, k, trace, m, t, scan, Refuse);
    } else {
      var trace1, m1, t1 := Grants(s, k, trace, m, t, scan);
      trace', m', t' := Leaves(s, k, trace1, m1, t1, scan, GrantReplyLost);
    }
  }

  /** The events behind set_lock returning True. */
  lemma Locked(s: State, k: nat, trace: seq<Event>, m: State, t: Task, scan: Scan)
    returns (trace': seq<Event>, m': State, t': Task)
    requires Played(s, k, trace) == Some(m) && Stands(m, k, t, scan) && t.p.stage == Acquiring && t.p.permit
    requires Effective(m.store, t.pair.key, scan.ttl, m.now)
    ensures Played(s, k, trace') == Some(m') && m'.now == m.now
    ensures m'.store == AfterSet(m.store, t.pair.key, scan.ttl, m.now, k)
    ensures t'.p.stage == (if scan.force then Analyzing else Checking) && t'.p.permit
    ensures t'.scan == t.scan && t'.pair == t.pair
    ensures Stands(m', k, t', scan.(stats := scan.stats.(scanned := scan.stats.scanned + 1)))
  {
    var trace1, m1, t1 := Grants(s, k, trace, m, t, scan);
    trace', m', t' := Step(s, k, trace1, m1, t1, scan, GrantReply);
  }

  /** The events behind release_lock. */
  lemma Unlocked(s: State, k: nat, trace: seq<Event>, m: State, t: Task, scan: Scan, carriedOut: bool)
    returns (trace': seq<Event>, m': State, t': Task)
    requires Played(s, k, trace) == Some(m) && Stands(m, k, t, scan) && t.p.stage == Releasing && t.p.permit
    ensures Played(s, k, trace') == Some(m') && m'.now == m.now
    ensures m'.store == if carriedOut then m.store - {t.pair.key} else m.store
    ensures t'.p.stage == Finished && !t'.p.permit && t'.scan == t.scan && t'.p.verdict == t.p.verdict
    ensures Stands(m', k, t', scan.(permits := scan.permits + 1))
  {
    if carriedOut {
      var trace1, m1, t1 := Step(s, k, trace, m, t, scan, Delete);
      trace', m', t' := Step(s, k, trace1, m1, t1, scan, DeleteReply);
    } else {
      trace', m', t' := Step(s, k, trace, m, t, scan, DeleteAbandoned(false));
    }
  }

  /** A signal that is not published. */
  lemma HeldBack(s: State, k: nat, trace: seq<Event>, m: State, t: Task, scan: Scan, action: string, confidence: real)
    returns (trace': seq<Event>, m': State, t': Task)
    requires Played(s, k, trace) == Some(m) && Stands(m, k, t, scan) && t.p.stage == Analyzing && t.p.permit
    requires Held(scan, action, confidence)
    ensures Played(s, k, trace') == Some(m') && m'.now == m.now && m'.store == m.store
    ensures t'.p.stage == Releasing && t'.p.permit && t'.scan == t.scan && t'.pair == t.pair
    ensures t'.p.verdict == SkippedHold
    ensures var st := scan.stats; Stands(m', k, t',
      scan.(stats := st.(generated := st.generated + 1, skippedHold := st.skippedHold + 1)))
  {
    trace', m', t' := Step(s, k, trace, m, t, scan, Analyze(Signal(action, confidence)));
  }

  /** A signal that goes on to be published. */
  lemma Offered(s: State, k: nat, trace: seq<Event>, m: State, t: Task, scan: Scan, action: string, confidence: real)
    returns (trace': seq<Event>, m': State, t': Task)
    requires Played(s, k, trace) == Some(m) && Stands(m, k, t, scan) && t.p.stage == Analyzing && t.p.permit
    requires !Held(scan, action, confidence)
    ensures Played(s, k, trace') == Some(m') && m'.now == m.now && m'.store == m.store
    ensures t'.p.stage == Publishing && t'.p.permit && t'.scan == t.scan && t'.pair == t.pair
    ensures var st := scan.stats; Stands(m', k, t',
      scan.(stats := st.(generated := st.generated + 1, actionable := st.actionable + 1)))
  {
    trace', m', t' := Step(s, k, trace, m, t, scan, Analyze(Signal(action, confidence)));
  }

  /** What a signal leaves in the counters and as the verdict. */
  predicate SignalCounted(held: bool, published: bool, was: Stats, st: Stats, v: Verdict) {
    if held then st == was.(generated := was.generated + 1, skippedHold := was.skippedHold + 1) && v == SkippedHold
    else if published then
      st == was.(generated := was.generated + 1, actionable := was.actionable + 1, created := was.created + 1)
      && v == Recommended
    else
      st == was.(generated := was.generated + 1, actionable := was.actionable + 1, errors := was.errors + 1)
      && v == Errored
  }

  /** What an analysis and its publication leave there. */
  predicate AnalysisCounted(config: Scan, analysis: Analysis, published: bool, was: Stats, st: Stats, v: Verdict) {
    match analysis
    case AnalysisRaised => st == was.(errors := was.errors + 1) && v == Errored
    case Malformed => st == was.(generated := was.generated + 1, errors := was.errors + 1) && v == Errored
    case Signal(action, confidence) => SignalCounted(Held(config, action, confidence), published, was, st, v)
  }

  /** The same for everything a task does under its lock. */
  predicate LockedCounted(config: Scan, answer: CacheAnswer, analysis: Analysis, published: bool, was: Stats, st: Stats,
                          v: Verdict)
  {
    if config.force || answer == NoValidSignal then AnalysisCounted(config, analysis, published, was, st, v)
    else if answer == SignalValid then st == was.(skippedCached := was.skippedCached + 1) && v == SkippedCached
    else st == was.(errors := was.errors + 1) && v == Errored
  }

  class SignalScanService {
    const config: Scan
    const cache: CacheManager
    var stats: Stats

    constructor (config: Scan, cache: CacheManager)
      ensures this.config == config && this.cache == cache && stats == config.stats
    {
      this.config := config;
      this.cache := cache;
      stats := config.stats;
    }

    /** The scan as the machine shows it: the service's settings and counters, some permits free. */
    function Current(permits: nat): Scan
      reads this`stats
    {
      config.(stats := stats, permits := permits)
    }

    /** The events lead from s to m, where the task stands as t, the counters are those of the service,
        and the task holds one of the permits. */
    ghost predicate Follows(s: State, k: nat, trace: seq<Event>, m: State, t: Task, permits: nat)
      reads this`stats
    {
      Played(s, k, trace) == Some(m) && m.now == s.now && Stands(m, k, t, Current(permits))
    }

    /** What follows `locked = True` inside `try`: leaving it by an exception means counting an error. */
    method Guarded(answer: CacheAnswer, analysis: Analysis, published: bool, ghost s: State, ghost k: nat,
                   ghost trace: seq<Event>, ghost m: State, ghost t: Task, ghost permits: nat)
      returns (ghost trace': seq<Event>, ghost m': State, ghost t': Task)
      requires Follows(s, k, trace, m, t, permits)
      requires t.p.stage == (if config.force then Analyzing else Checking) && t.p.permit
      modifies this`stats
      ensures Follows(s, k, trace', m', t', permits) && m'.store == m.store
      ensures t'.p.stage == Releasing && t'.p.permit && t'.scan == t.scan && t'.pair == t.pair
      ensures LockedCounted(config, answer, analysis, published, old(stats), stats, t'.p.verdict)
    {
      trace', m', t' := trace, m, t;
      if !config.force {
        trace', m', t' := Step(s, k, trace, m, t, Current(permits), Check(answer));
        if answer.SignalValid? {
          stats := stats.(skippedCached := stats.skippedCached + 1);
          return;
        }
        if answer.CheckRaised? {
          stats := stats.(errors := stats.errors + 1);
          return;
        }
      }
      trace', m', t' := Analyzed(analysis, published, s, k, trace', m', t', permits);
    }

    method Publishes(published: bool, ghost s: State, ghost k: nat, ghost trace: seq<Event>, ghost m: State,
                     ghost t: Task, ghost permits: nat)
      returns (ghost trace': seq<Event>, ghost m': State, ghost t': Task)
      requires Follows(s, k, trace, m, t, permits) && t.p.stage == Publishing && t.p.permit
      modifies this`stats
      ensures Follows(s, k, trace', m', t', permits) && m'.store == m.store
      ensures t'.p.stage == Releasing && t'.p.permit && t'.scan == t.scan && t'.pair == t.pair
      ensures published ==>
        stats == old(stats).(created := old(stats).created + 1) && t'.p.verdict == Recommended
      ensures !published ==> stats == old(stats).(errors := old(stats).errors + 1) && t'.p.verdict == Errored
    {
      trace', m', t' := Step(s, k, trace, m, t, Current(permits), Publish(published));
      if published {
        stats := stats.(created := stats.created + 1);
      } else {
        stats := stats.(errors := stats.errors + 1);
      }
    }

    method Judged(action: string, confidence: real, published: bool, ghost s: State, ghost k: nat,
                  ghost trace: seq<Event>, ghost m: State, ghost t: Task, ghost permits: nat)
      returns (ghost trace': seq<Event>, ghost m': State, ghost t': Task)
      requires Follows(s, k, trace, m, t, permits) && t.p.stage == Analyzing && t.p.permit
      modifies this`stats
      ensures Follows(s, k, trace', m', t', permits) && m'.store == m.store
      ensures t'.p.stage == Releasing && t'.p.permit && t'.scan == t.scan && t'.pair == t.pair
      ensures SignalCounted(Held(config, action, confidence), published, old(stats), stats, t'.p.verdict)
    {
      ghost var was := stats;
      stats := stats.(generated := stats.generated + 1);
      if Held(config, action, confidence) {
        trace', m', t' := HeldBack(s, k, trace, m, t, config.(stats := was, permits := permits), action, confidence);
        stats := stats.(skippedHold := stats.skippedHold + 1);
        return;
      }
      trace', m', t' := Offered(s, k, trace, m, t, config.(stats := was, permits := permits), action, confidence);
      stats := stats.(actionable := stats.actionable + 1);
      trace', m', t' := Publishes(published, s, k, trace', m', t', permits);
    }

    /** An analysis that raises, whole or at its confidence, or one that gives a signal. */
    method Analyzed(analysis: Analysis, published: bool, ghost s: State, ghost k: nat, ghost trace: seq<Event>,
                    ghost m: State, ghost t: Task, ghost permits: nat)
      returns (ghost trace': seq<Event>, ghost m': State, ghost t': Task)
      requires Follows(s, k, trace, m, t, permits) && t.p.stage == Analyzing && t.p.permit
      modifies this`stats
      ensures Follows(s, k, trace', m', t', permits) && m'.store == m.store
      ensures t'.p.stage == Releasing && t'.p.permit && t'.scan == t.scan && t'.pair == t.pair
      ensures AnalysisCounted(config, analysis, published, old(stats), stats, t'.p.verdict)
    {
      match analysis {
        case Signal(action, confidence) =>
          trace', m', t' := Judged(action, confidence, published, s, k, trace, m, t, permits);
        case AnalysisRaised =>
          trace', m', t' := Step(s, k, trace, m, t, Current(permits), Analyze(analysis));
          stats := stats.(errors := stats.errors + 1);
        case Malformed =>
          trace', m', t' := Step(s, k, trace, m, t, Current(permits), Analyze(analysis));
          stats := stats.(generated := stats.generated + 1);
          stats := stats.(errors := stats.errors + 1);
      }
    }

    /** The task holds its lock and releases it at the end. */
    method Scanning(key: string, answer: CacheAnswer, analysis: Analysis, published: bool, delFault: Fault,
                    ghost s: State, ghost k: nat, ghost trace: seq<Event>, ghost m: State, ghost t: Task,
                    ghost permits: nat)
      returns (ghost trace': seq<Event>, ghost m': State, ghost t': Task)
      requires cache.connected && m.store == cache.store && key == t.pair.key
      requires Follows(s, k, trace, m, t, permits)
      requires t.p.stage == (if config.force then Analyzing else Checking) && t.p.permit
      modifies this`stats, cache
      ensures cache.connected && m'.store == cache.store
      ensures cache.store == if delFault != RequestLost then old(cache.store) - {key} else old(cache.store)
      ensures Follows(s, k, trace', m', t', permits + 1)
      ensures t'.p.stage == Finished && !t'.p.permit && t'.scan == t.scan
      ensures LockedCounted(config, answer, analysis, published, old(stats), stats, t'.p.verdict)
    {
      trace', m', t' := Guarded(answer, analysis, published, s, k, trace, m, t, permits);
      var raised := cache.ReleaseLock(key, false, delFault);
      trace', m', t' := Unlocked(s, k, trace', m', t', Current(permits), delFault != RequestLost);
    }

    /** set_lock raised, which counts as an error, or returned False. */
    method TurnedAway(acquired: Option<bool>, ghost fault: Fault, ghost s: State, ghost k: nat, ghost trace: seq<Event>,
                      ghost m: State, ghost t: Task, ghost permits: nat)
      returns (ghost trace': seq<Event>, ghost m': State, ghost t': Task)
      requires Follows(s, k, trace, m, t, permits) && t.p.stage == Acquiring && t.p.permit
      requires acquired == None || (acquired == Some(false) &&
        (fault != NoFault || !Effective(m.store, t.pair.key, config.ttl, m.now)))
      modifies this`stats
      ensures Follows(s, k, trace', m', t', permits + 1)
      ensures m'.store == if acquired == None || fault == RequestLost then m.store
                          else AfterSet(m.store, t.pair.key, config.ttl, m.now, k)
      ensures t'.p.stage == Finished && !t'.p.permit && t'.scan == t.scan
      ensures acquired == None ==> stats == old(stats).(errors := old(stats).errors + 1) && t'.p.verdict == Errored
      ensures acquired != None ==>
        stats == old(stats).(skippedLocked := old(stats).skippedLocked + 1) && t'.p.verdict == SkippedLocked
    {
      if acquired == None {
        trace', m', t' := SetLockRaises(s, k, trace, m, t, Current(permits));
        stats := stats.(errors := stats.errors + 1);
      } else {
        trace', m', t' := Denied(s, k, trace, m, t, Current(permits), fault);
        stats := stats.(skippedLocked := stats.skippedLocked + 1);
      }
    }

    /** What one call leaves in the store. */
    function StoreAfterScan(before: map<string, Lock>, key: string, now: nat, owner: nat, reached: bool,
                            setFault: Fault, delFault: Fault): map<string, Lock>
    {
      if !reached || setFault == RequestLost then before
      else if Effective(before, key, config.ttl, now) && setFault == NoFault && delFault != RequestLost
      then before - {key}
      else AfterSet(before, key, config.ttl, now, owner)
    }

    /** set_lock returned True. */
    method Holding(key: string, now: nat, owner: nat, answer: CacheAnswer, analysis: Analysis, published: bool,
                   delFault: Fault, ghost s: State, ghost trace: seq<Event>, ghost m: State, ghost t: Task,
                   ghost permits: nat)
      returns (ghost trace': seq<Event>, ghost m': State, ghost t': Task)
      requires m.now == now && key == t.pair.key && cache.connected
      requires Follows(s, owner, trace, m, t, permits) && t.p.stage == Acquiring && t.p.permit
      requires Effective(m.store, key, config.ttl, now)
      requires cache.store == AfterSet(m.store, key, config.ttl, now, owner)
      modifies this`stats, cache
      ensures m'.store == cache.store
      ensures Follows(s, owner, trace', m', t', permits + 1)
      ensures t'.p.stage == Finished && !t'.p.permit && t'.scan == t.scan
      ensures cache.connected && cache.store == StoreAfterScan(m.store, key, now, owner, true, NoFault, delFault)
      ensures LockedCounted(config, answer, analysis, published,
                            old(stats).(scanned := old(stats).scanned + 1), stats, t'.p.verdict)
    {
      trace', m', t' := Locked(s, owner, trace, m, t, Current(permits));
      stats := stats.(scanned := stats.scanned + 1);
      SetThenDeleted(m.store, key, config.ttl, now, owner);
      trace', m', t' := Scanning(key, answer, analysis, published, delFault, s, owner, trace', m', t', permits);
    }

    /** The task has its permit. */
    method UnderPermit(key: string, now: nat, owner: nat, usable: bool, setFault: Fault, answer: CacheAnswer,
                       analysis: Analysis, published: bool, delFault: Fault, ghost s: State, ghost trace: seq<Event>,
                       ghost m: State, ghost t: Task, ghost permits: nat)
      returns (ghost trace': seq<Event>, ghost m': State, ghost t': Task)
      requires m.now == now && m.store == cache.store && key == t.pair.key
      requires Follows(s, owner, trace, m, t, permits) && t.p.stage == Acquiring && t.p.permit
      modifies this`stats, cache
      ensures m'.store == cache.store
      ensures Follows(s, owner, trace', m', t', permits + 1)
      ensures t'.p.stage == Finished && !t'.p.permit && t'.scan == t.scan
      ensures cache.store == StoreAfterScan(old(cache.store), key, now, owner, cache.connected, setFault, delFault)
      ensures !cache.connected ==>
        stats == old(stats).(errors := old(stats).errors + 1) && t'.p.verdict == Errored
      ensures var effective := Effective(old(cache.store), key, config.ttl, now) && setFault == NoFault;
        cache.connected ==>
          if !effective then stats == old(stats).(skippedLocked := old(stats).skippedLocked + 1)
                             && t'.p.verdict == SkippedLocked
          else LockedCounted(config, answer, analysis, published,
                             old(stats).(scanned := old(stats).scanned + 1), stats, t'.p.verdict)
    {
      var acquired := cache.SetLock(key, config.ttl, now, owner, usable, setFault);
      if acquired != Some(true) {
        trace', m', t' := TurnedAway(acquired, setFault, s, owner, trace, m, t, permits);
        return;
      }
      trace', m', t' := Holding(key, now, owner, answer, analysis, published, delFault, s, trace, m, t, permits);
    }

    /** One task from entering the semaphore to leaving it, as a run of the machine from any state with
        the cache's store in which the task may enter. `answer`, `analysis` and `published` are what the
        awaited collaborators do. The permit is given back, the counters of the machine are those of the
        service, and so is the store. */
    method ScanOne(code: string, strategy: Option<int>, now: nat, owner: nat, usable: bool, setFault: Fault,
                   answer: CacheAnswer, analysis: Analysis, published: bool, delFault: Fault, ghost s: State)
      returns (ghost trace: seq<Event>, ghost end: State, ghost t: Task)
      requires s.now == now && s.store == cache.store && owner < |s.tasks|
      requires s.tasks[owner].scan < |s.scans|
      requires s.tasks[owner] == NewTask(s.tasks[owner].scan, code, strategy)
      requires var scan := s.scans[s.tasks[owner].scan]; scan.permits > 0 && scan == Current(scan.permits)
      modifies this, cache
      ensures Follows(s, owner, trace, end, t, s.scans[s.tasks[owner].scan].permits)
      ensures end.store == cache.store && t.p.stage == Finished && !t.p.permit && t.scan == s.tasks[owner].scan
      ensures cache.store ==
        StoreAfterScan(old(cache.store), LockKey(code, strategy), now, owner, cache.connected, setFault, delFault)
      ensures var key, was := LockKey(code, strategy), old(stats);
        var acquired := cache.connected && setFault == NoFault && config.ttl > 0
                        && (key !in old(cache.store) || old(cache.store)[key].expiry <= now);
        var analysed := acquired && (config.force || answer == NoValidSignal);
        var held := analysed && analysis.Signal?
                    && (analysis.action == "HOLD" || analysis.confidence < config.minConfidence);
        var offered := analysed && analysis.Signal?
                       && analysis.action != "HOLD" && analysis.confidence >= config.minConfidence;
        var cached := acquired && !config.force && answer == SignalValid;
        var failed := !cache.connected || (acquired && !config.force && answer == CheckRaised)
                      || (analysed && !analysis.Signal?) || (offered && !published);
        && stats.scanned == was.scanned + One(acquired)
        && stats.skippedLocked == was.skippedLocked + One(cache.connected && !acquired)
        && stats.skippedCached == was.skippedCached + One(cached)
        && stats.generated == was.generated + One(analysed && analysis != AnalysisRaised)
        && stats.skippedHold == was.skippedHold + One(held)
        && stats.actionable == was.actionable + One(offered)
        && stats.created == was.created + One(offered && published)
        && stats.errors == was.errors + One(failed)
        && t.p.verdict == (if failed then Errored else if !acquired then SkippedLocked else if cached then SkippedCached
                           else if held then SkippedHold else Recommended)
    {
      ghost var permits := s.scans[s.tasks[owner].scan].permits;
      trace, end, t := Entered(s, owner, s.tasks[owner], Current(permits));
      trace, end, t := UnderPermit(LockKey(code, strategy), now, owner, usable, setFault, answer, analysis, published,
                                   delFault, s, trace, end, t, permits - 1);
    }
  }
}
