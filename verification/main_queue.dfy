/**
 * The main dispatch queue through which the hub serialises every access to
 * its registry, as an explicit FIFO of pending jobs. Each job is one queued
 * closure; running it is one atomic step, and jobs run in submission order.
 */
module MainQueue {
  import opened Wrappers
  import opened UserDefaults
  import opened SyncStatus
  import opened Registry

  /** One closure waiting on the main queue. */
  datatype Job<O> =
    | AddObserverJob(observer: O, key: string)                           // addObserver
    | RemoveObserverJob(observer: O)                                     // removeObserver
    | NotifyJob(key: string)                                             // notifyObservers(for:)
    | ExternalChangeJob(reason: Option<ChangeReason>, keys: seq<string>) // didChangeExternally
    | DeinitJob(observer: O)                                             // the Task a binding's deinit starts

  /**
   * The hub as the queue sees it: the registry, the published status, the
   * pending jobs and the log of `keyChanged` calls made so far, in call order.
   */
  datatype Hub<O> = Hub(observers: Registry<O>, status: Status, queue: seq<Job<O>>, delivered: seq<O>)

  /** What running one job does to the hub (the job is already off the queue). */
  function Run<O(==)>(h: Hub<O>, job: Job<O>, now: Date): Hub<O> {
    match job
    case AddObserverJob(o, k) => h.(observers := Appended(h.observers, k, o))
    case RemoveObserverJob(o) => h.(observers := Removed(h.observers, o))
    case NotifyJob(k) => h.(delivered := h.delivered + ObserversFor(h.observers, k))
    case ExternalChangeJob(reason, keys) =>
      h.(status := Status(now, ExternalChange(reason), keys),
         delivered := h.delivered + Fanout(h.observers, keys))
    case DeinitJob(o) => h.(queue := h.queue + [RemoveObserverJob(o)])
  }

  /**
   * Only `addObserver` and `removeObserver` touch the registry, and a removal
   * leaves the observer listed nowhere. Only an external change sets the
   * status, whatever its reason. Only notifications call observers: the key's
   * list in order, or each changed key's list in turn. Only the deinit task
   * submits work, the removal, behind every pending job.
   */
  lemma RunEffects<O>(h: Hub<O>, job: Job<O>, now: Date)
    ensures var r := Run(h, job, now);
            && (job.AddObserverJob? ==> r.observers == Appended(h.observers, job.key, job.observer))
            && (job.RemoveObserverJob? ==>
                  && r.observers == Removed(h.observers, job.observer)
                  && !Registered(r.observers, job.observer))
            && (!job.AddObserverJob? && !job.RemoveObserverJob? ==> r.observers == h.observers)
            && (job.ExternalChangeJob? ==> r.status == Status(now, ExternalChange(job.reason), job.keys))
            && (!job.ExternalChangeJob? ==> r.status == h.status)
            && (job.DeinitJob? ==> r.queue == h.queue + [RemoveObserverJob(job.observer)])
            && (!job.DeinitJob? ==> r.queue == h.queue)
            && (job.NotifyJob? ==> r.delivered == h.delivered + ObserversFor(h.observers, job.key))
            && (job.ExternalChangeJob? ==> r.delivered == h.delivered + Fanout(h.observers, job.keys))
            && (!job.NotifyJob? && !job.ExternalChangeJob? ==> r.delivered == h.delivered)
  {
    if job.RemoveObserverJob? {
      RemovedUnderNoKey(h.observers, job.observer);
    }
  }

  /**
   * The queue runs its oldest job. The jobs behind it stay, in order, at the
   * front of the queue (a job may only submit new work behind them), and the
   * call log only grows.
   */
  function Step<O(==)>(h: Hub<O>, now: Date): (r: Hub<O>)
    requires h.queue != []
    ensures h.queue[1..] <= r.queue
    ensures h.delivered <= r.delivered
  {
    Run(h.(queue := h.queue[1..]), h.queue[0], now)
  }

  /** The queue runs `n` jobs; the `n` oldest jobs are exactly the ones run. */
  function Steps<O(==)>(h: Hub<O>, n: nat, now: Date): (r: Hub<O>)
    requires n <= |h.queue|
    ensures h.queue[n..] <= r.queue
    ensures h.delivered <= r.delivered
    decreases n
  {
    if n == 0 then h
    else
      var h1 := Step(h, now);
      var r := Steps(h1, n - 1, now);
      assert h.queue[n..] == h.queue[1..][n - 1..];
      assert h1.queue[n - 1..][..|h.queue| - n] == h.queue[n..];
      r
  }

  /**
   * A description of the dispatch jobs as seen through `Step`, with nothing
   * to prove beyond `Run`'s definition: a notification of `key` calls
   * `keyChanged` once per entry of the key's list, in list order (nothing for
   * an absent key); an external change first overwrites the status, whether
   * or not its reason decoded, then does the same for each changed key in
   * turn. Neither touches the registry nor submits work.
   */
  lemma DispatchJobs<O>(h: Hub<O>, now: Date)
    requires h.queue != [] && (h.queue[0].NotifyJob? || h.queue[0].ExternalChangeJob?)
    ensures var r := Step(h, now);
            && r.observers == h.observers
            && r.queue == h.queue[1..]
            && (h.queue[0].NotifyJob? ==>
                  && r.status == h.status
                  && r.delivered == h.delivered + ObserversFor(h.observers, h.queue[0].key)
                  && (h.queue[0].key !in h.observers ==> r.delivered == h.delivered))
            && (h.queue[0].ExternalChangeJob? ==>
                  && r.status == Status(now, ExternalChange(h.queue[0].reason), h.queue[0].keys)
                  && r.delivered == h.delivered + Fanout(h.observers, h.queue[0].keys))
  {
  }

  /** Running `n + 1` jobs is running `n` and then one more. */
  lemma {:induction false} StepsSnoc<O>(h: Hub<O>, n: nat, now: Date)
    requires n < |h.queue|
    ensures Steps(h, n, now).queue != []
    ensures Steps(h, n + 1, now) == Step(Steps(h, n, now), now)
    decreases n
  {
    if n > 0 {
      StepsSnoc(Step(h, now), n - 1, now);
    }
  }

  /** Running `a + b` jobs is running `a` and then `b` more. */
  lemma {:induction false} StepsAdd<O>(h: Hub<O>, a: nat, b: nat, now: Date)
    requires a + b <= |h.queue|
    ensures b <= |Steps(h, a, now).queue|
    ensures Steps(h, a + b, now) == Steps(Steps(h, a, now), b, now)
    decreases a
  {
    if a > 0 {
      StepsAdd(Step(h, now), a - 1, b, now);
    }
  }

  /** Job `p` of the queue is at the head once the `p` jobs before it have run. */
  lemma StepsReach<O>(h: Hub<O>, p: nat, now: Date)
    requires p < |h.queue|
    ensures Steps(h, p, now).queue != [] && Steps(h, p, now).queue[0] == h.queue[p]
    ensures Steps(h, p + 1, now) == Step(Steps(h, p, now), now)
  {
    StepsSnoc(h, p, now);
    assert h.queue[p..] <= Steps(h, p, now).queue;
  }

  /** After `a` jobs have run, the next `b - a` to run are jobs `a` to `b` of the queue. */
  lemma StepsPending<O>(h: Hub<O>, a: nat, b: nat, now: Date)
    requires a <= b <= |h.queue|
    ensures b - a <= |Steps(h, a, now).queue|
    ensures Steps(h, a, now).queue[..b - a] == h.queue[a..b]
  {
    assert h.queue[a..] <= Steps(h, a, now).queue;
  }

  /** Running the first `b` jobs is running the first `a`, then the next `b - a`. */
  lemma StepsSplit<O>(h: Hub<O>, a: nat, b: nat, now: Date)
    requires a <= b <= |h.queue|
    ensures b - a <= |Steps(h, a, now).queue|
    ensures Steps(h, b, now) == Steps(Steps(h, a, now), b - a, now)
  {
    StepsAdd(h, a, b - a, now);
  }

  predicate NoAdd<O(==)>(jobs: seq<Job<O>>, o: O) {
    forall j | j in jobs :: !(j.AddObserverJob? && j.observer == o)
  }

  predicate NoRemove<O(==)>(jobs: seq<Job<O>>, o: O) {
    forall j | j in jobs :: j != RemoveObserverJob(o)
  }

  /** The jobs that call `keyChanged` on the observers of `key`. */
  predicate Notifies<O>(job: Job<O>, key: string) {
    job == NotifyJob(key) || (job.ExternalChangeJob? && key in job.keys)
  }

  /** A prefix free of removals of `o` starts with another job and stays free of them after it. */
  lemma NoRemoveRest<O>(jobs: seq<Job<O>>, n: nat, o: O)
    requires 0 < n <= |jobs| && NoRemove(jobs[..n], o)
    ensures jobs[0] != RemoveObserverJob(o) && NoRemove(jobs[1..n], o)
  {
    assert jobs[0] == jobs[..n][0] && jobs[..n][0] in jobs[..n];
    forall j | j in jobs[1..n] ensures j != RemoveObserverJob(o) {
      var i :| 0 <= i < n - 1 && jobs[1..n][i] == j;
      assert jobs[..n][i + 1] == j && jobs[..n][i + 1] in jobs[..n];
    }
  }

  /** A prefix free of additions of `o` starts with another job and stays free of them after it. */
  lemma NoAddRest<O>(jobs: seq<Job<O>>, n: nat, o: O)
    requires 0 < n <= |jobs| && NoAdd(jobs[..n], o)
    ensures !(jobs[0].AddObserverJob? && jobs[0].observer == o) && NoAdd(jobs[1..n], o)
  {
    assert jobs[..n][0] == jobs[0];
    forall j | j in jobs[1..n] ensures !(j.AddObserverJob? && j.observer == o) {
      var i :| 0 <= i < n - 1 && jobs[1..n][i] == j;
      assert jobs[..n][i + 1] == j;
    }
  }

  /** A call log that grows twice without calling `o` has not called it overall. */
  lemma NotCalledAcross<O>(log0: seq<O>, log1: seq<O>, log2: seq<O>, o: O)
    requires log0 <= log1 <= log2
    requires o !in log1[|log0|..] && o !in log2[|log1|..]
    ensures o !in log2[|log0|..]
  {
    assert log2[|log0|..] == log1[|log0|..] + log2[|log1|..];
  }

  /** The jobs still to run after the first one, taken from a prefix of the queue. */
  lemma TailOfPrefix<O>(h: Hub<O>, n: nat, now: Date)
    requires 0 < n <= |h.queue|
    ensures n - 1 <= |Step(h, now).queue|
    ensures Step(h, now).queue[..n - 1] == h.queue[1..n]
  {
    var q1 := Step(h, now).queue;
    assert h.queue[1..] == q1[..|h.queue| - 1];
    assert h.queue[1..n] == h.queue[1..][..n - 1];
  }

  /** One job that is not an addition of `o` keeps `o` unlisted and does not call it. */
  lemma StepKeepsUnlisted<O>(h: Hub<O>, o: O, now: Date)
    requires h.queue != [] && !(h.queue[0].AddObserverJob? && h.queue[0].observer == o)
    requires !Registered(h.observers, o)
    ensures !Registered(Step(h, now).observers, o)
    ensures o !in Step(h, now).delivered[|h.delivered|..]
  {
    var h1 := Step(h, now);
    match h.queue[0] {
      case AddObserverJob(x, k) =>
        forall k' | k' in h1.observers ensures o !in h1.observers[k'] {
          if k' == k { assert h1.observers[k'] == ObserversFor(h.observers, k) + [x]; }
        }
      case RemoveObserverJob(x) =>
        if x == o {
          RemovedUnderNoKey(h.observers, o);
        }
      case NotifyJob(k) =>
        assert h1.delivered[|h.delivered|..] == ObserversFor(h.observers, k);
      case ExternalChangeJob(reason, keys) =>
        assert h1.delivered[|h.delivered|..] == Fanout(h.observers, keys);
      case DeinitJob(x) =>
        assert h1.delivered[|h.delivered|..] == [];
    }
  }

  /**
   * An observer listed nowhere stays unlisted, and is never called, while the
   * jobs run include no addition of it.
   */
  lemma {:induction false} StaysUnregistered<O>(h: Hub<O>, n: nat, o: O, now: Date)
    requires n <= |h.queue|
    requires !Registered(h.observers, o)
    requires NoAdd(h.queue[..n], o)
    ensures !Registered(Steps(h, n, now).observers, o)
    ensures o !in Steps(h, n, now).delivered[|h.delivered|..]
    decreases n
  {
    if n > 0 {
      var h1 := Step(h, now);
      NoAddRest(h.queue, n, o);
      StepKeepsUnlisted(h, o, now);
      TailOfPrefix(h, n, now);
      StaysUnregistered(h1, n - 1, o, now);
      NotCalledAcross(h.delivered, h1.delivered, Steps(h1, n - 1, now).delivered, o);
    }
  }

  /**
   * Jobs run in submission order: no job submitted after `removeObserver(o)`
   * and before any new `addObserver(o, _)` calls `o`, in particular no
   * notification of any key.
   */
  lemma NotifyAfterRemoveSkips<O>(h: Hub<O>, o: O, mid: seq<Job<O>>, job: Job<O>, rest: seq<Job<O>>, now: Date)
    requires h.queue == [RemoveObserverJob(o)] + mid + [job] + rest
    requires NoAdd(mid + [job], o)
    ensures o !in Steps(h, |mid| + 2, now).delivered[|h.delivered|..]
  {
    var h1 := Step(h, now);
    assert h1 == h.(observers := Removed(h.observers, o), queue := mid + [job] + rest);
    RemovedUnderNoKey(h.observers, o);
    assert h1.queue[..|mid| + 1] == mid + [job];
    StaysUnregistered(h1, |mid| + 1, o, now);
    assert Steps(h, |mid| + 2, now) == Steps(h1, |mid| + 1, now);
  }

  /**
   * Wherever `removeObserver(o)` sits in the queue, no job behind it calls
   * `o` until a new `addObserver(o, _)` runs: the calls made by the jobs
   * after the removal, up to job `n`, leave `o` out.
   */
  lemma RemoveAnywhereSkips<O>(h: Hub<O>, o: O, p: nat, n: nat, now: Date)
    requires p < n <= |h.queue|
    requires h.queue[p] == RemoveObserverJob(o)
    requires NoAdd(h.queue[p + 1..n], o)
    ensures var removed, end := Steps(h, p + 1, now), Steps(h, n, now);
            && removed.delivered <= end.delivered
            && o !in end.delivered[|removed.delivered|..]
  {
    StepsReach(h, p, now);
    var before, removed := Steps(h, p, now), Steps(h, p + 1, now);
    assert removed.observers == Removed(before.observers, o);
    RemovedUnderNoKey(before.observers, o);
    StepsSplit(h, p + 1, n, now);
    StepsPending(h, p + 1, n, now);
    StaysUnregistered(removed, n - (p + 1), o, now);
  }

  /** One job that is not a removal of `o` keeps `o` listed under `key`. */
  lemma StepKeepsListed<O>(h: Hub<O>, o: O, key: string, now: Date)
    requires h.queue != [] && h.queue[0] != RemoveObserverJob(o)
    requires o in ObserversFor(h.observers, key)
    ensures o in ObserversFor(Step(h, now).observers, key)
  {
    match h.queue[0] {
      case AddObserverJob(x, k) =>
      case RemoveObserverJob(x) =>
      case NotifyJob(k) =>
      case ExternalChangeJob(reason, keys) =>
      case DeinitJob(x) =>
    }
  }

  /** An observer listed under `key` stays listed there while no job run removes it. */
  lemma {:induction false} StaysRegistered<O>(h: Hub<O>, n: nat, o: O, key: string, now: Date)
    requires n <= |h.queue|
    requires o in ObserversFor(h.observers, key)
    requires NoRemove(h.queue[..n], o)
    ensures o in ObserversFor(Steps(h, n, now).observers, key)
    decreases n
  {
    if n > 0 {
      var h1 := Step(h, now);
      NoRemoveRest(h.queue, n, o);
      StepKeepsListed(h, o, key, now);
      TailOfPrefix(h, n, now);
      StaysRegistered(h1, n - 1, o, key, now);
    }
  }

  /**
   * Jobs run in submission order: a notification of `key` submitted after
   * `addObserver(o, key)`, with no removal of `o` in between, calls `o`.
   */
  lemma NotifyAfterAddInvokes<O>(h: Hub<O>, o: O, key: string, mid: seq<Job<O>>, job: Job<O>, rest: seq<Job<O>>, now: Date)
    requires h.queue == [AddObserverJob(o, key)] + mid + [job] + rest
    requires NoRemove(mid, o)
    requires Notifies(job, key)
    ensures Steps(h, |mid| + 1, now).queue != [] && Steps(h, |mid| + 1, now).queue[0] == job
    ensures var before := Steps(h, |mid| + 1, now);
            o in Step(before, now).delivered[|before.delivered|..]
  {
    var h1 := Step(h, now);
    assert h1.queue == mid + [job] + rest;
    assert o in ObserversFor(h1.observers, key);
    assert h1.queue[..|mid|] == mid;
    StaysRegistered(h1, |mid|, o, key, now);
    var before := Steps(h1, |mid|, now);
    assert h1.queue[|mid|..][0] == job;
    if job.ExternalChangeJob? {
      var i :| 0 <= i < |job.keys| && job.keys[i] == key;
      assert o in Fanout(before.observers, job.keys);
    }
  }

  /** Running `addObserver(o, key)` lists `o` under `key`. */
  lemma StepAddLists<O>(h: Hub<O>, o: O, key: string, now: Date)
    requires h.queue != [] && h.queue[0] == AddObserverJob(o, key)
    ensures o in ObserversFor(Step(h, now).observers, key)
  {
    assert Step(h, now).observers == Appended(h.observers, key, o);
  }

  /**
   * Wherever `addObserver(o, key)` sits in the queue, `o` is listed under
   * `key` once the jobs up to position `q` have run, if none of those after
   * the addition removes it.
   */
  lemma AddAnywhereListed<O>(h: Hub<O>, o: O, key: string, p: nat, q: nat, now: Date)
    requires p < q <= |h.queue|
    requires h.queue[p] == AddObserverJob(o, key)
    requires NoRemove(h.queue[p + 1..q], o)
    ensures o in ObserversFor(Steps(h, q, now).observers, key)
  {
    StepsReach(h, p, now);
    StepAddLists(Steps(h, p, now), o, key, now);
    var added := Steps(h, p + 1, now);
    StepsPending(h, p + 1, q, now);
    StaysRegistered(added, q - (p + 1), o, key, now);
    StepsSplit(h, p + 1, q, now);
  }

  /**
   * Wherever `addObserver(o, key)` sits in the queue, a later notification
   * or external change of `key` at position `q`, with no removal of `o`
   * between the two, calls `o` when it runs.
   */
  lemma AddAnywhereInvokes<O>(h: Hub<O>, o: O, key: string, p: nat, q: nat, now: Date)
    requires p < q < |h.queue|
    requires h.queue[p] == AddObserverJob(o, key)
    requires NoRemove(h.queue[p + 1..q], o)
    requires Notifies(h.queue[q], key)
    ensures var at, after := Steps(h, q, now), Steps(h, q + 1, now);
            && at.delivered <= after.delivered
            && o in after.delivered[|at.delivered|..]
  {
    AddAnywhereListed(h, o, key, p, q, now);
    var at := Steps(h, q, now);
    StepsReach(h, q, now);
    var job := h.queue[q];
    if job.ExternalChangeJob? {
      var i :| 0 <= i < |job.keys| && job.keys[i] == key;
      assert o in Fanout(at.observers, job.keys);
    }
  }

  /**
   * A binding's teardown takes effect: once its deinit job and every job
   * queued before the removal it schedules have run, the observer is listed
   * under no key.
   */
  lemma DeinitRemoves<O>(h: Hub<O>, o: O, rest: seq<Job<O>>, now: Date)
    requires h.queue == [DeinitJob(o)] + rest
    ensures |rest| + 1 <= |Step(h, now).queue|
    ensures Steps(Step(h, now), |rest| + 1, now).observers == Removed(Steps(Step(h, now), |rest|, now).observers, o)
    ensures !Registered(Steps(Step(h, now), |rest| + 1, now).observers, o)
  {
    var h1 := Step(h, now);
    assert h1.queue == rest + [RemoveObserverJob(o)];
    StepsSnoc(h1, |rest|, now);
    var before := Steps(h1, |rest|, now);
    assert h1.queue[|rest|..] == [RemoveObserverJob(o)];
    RemovedUnderNoKey(before.observers, o);
  }

  /**
   * A deinit job anywhere in the queue: once it has run, the removal it
   * schedules sits at the back, behind every job that was queued after it,
   * and once the queue as it then stands has drained, the observer is listed
   * under no key.
   */
  lemma DeinitAnywhereRemoves<O>(h: Hub<O>, o: O, p: nat, now: Date)
    requires p < |h.queue| && h.queue[p] == DeinitJob(o)
    ensures var d := Steps(h, p + 1, now);
            && d.queue != [] && d.queue[|d.queue| - 1] == RemoveObserverJob(o)
            && h.queue[p + 1..] <= d.queue
            && !Registered(Steps(d, |d.queue|, now).observers, o)
  {
    StepsReach(h, p, now);
    var before := Steps(h, p, now);
    DeinitRemoves(before, o, before.queue[1..], now);
    assert Steps(h, p + 1, now).queue == before.queue[1..] + [RemoveObserverJob(o)];
  }
}
