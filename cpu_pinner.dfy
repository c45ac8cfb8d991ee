/**
 * CPUPinner (plugins/CPUPinner.cpp): a module whose worker pins named
 * threads of its own process to CPU sets. Each pass looks every requested
 * thread up by name; the ones found are pinned and erased from the list, so
 * later passes only retry the others.
 *
 * The /proc/self/task scan is given as the list of tasks it would find, and
 * `sched_setaffinity` calls are recorded as a log instead of being made.
 */
module CpuPinning {

  /** One entry of the configuration's `thread_confs`. */
  datatype ThreadConf = ThreadConf(name: string, cpuSet: seq<int>)

  /**
   * One directory of /proc/self/task: the thread id it is named after, and
   * the name `fin >> thread_name` reads from its `comm` file, which is the
   * first whitespace-separated word of that file.
   */
  datatype Task = Task(tid: nat, comm: string)

  /** One `sched_setaffinity(tid, ..., &cpuset)` call. */
  datatype Pin = Pin(tid: int, cpus: set<int>)

  /** glibc's CPU_SETSIZE: CPU_SET leaves a CPU outside 0..CPU_SETSIZE-1 out of the set. */
  const CpuSetSize: int := 1024

  /** What `tid_for_name` returns: the id of the first task with that name, or -1. */
  function TidFor(tasks: seq<Task>, name: string): (tid: int)
    ensures tid >= -1
    ensures tid == -1 <==> forall t :: t in tasks ==> t.comm != name
    ensures tid >= 0 ==> Task(tid as nat, name) in tasks
  {
    if tasks == [] then -1
    else if tasks[0].comm == name then tasks[0].tid
    else TidFor(tasks[1..], name)
  }

  /** The CPUs a `cpu_set` entry puts in the affinity mask. */
  function CpuSetOf(cpus: seq<int>): set<int>
  {
    set c | c in cpus && 0 <= c < CpuSetSize
  }

  /** Whether a pass finds the thread named in `conf`. */
  predicate Found(tasks: seq<Task>, conf: ThreadConf)
  {
    TidFor(tasks, conf.name) >= 0
  }

  /** The affinity call a pass makes for an entry whose thread it finds. */
  function PinOf(tasks: seq<Task>, conf: ThreadConf): Pin
  {
    Pin(TidFor(tasks, conf.name), CpuSetOf(conf.cpuSet))
  }

  /** The entries one pass keeps, in their original order: those whose thread is not found. */
  function Unpinned(confs: seq<ThreadConf>, tasks: seq<Task>): (r: seq<ThreadConf>)
    ensures |r| <= |confs|
  {
    if confs == [] then []
    else (if Found(tasks, confs[0]) then [] else [confs[0]]) + Unpinned(confs[1..], tasks)
  }

  /** The affinity calls one pass makes, in list order: one per entry whose thread is found. */
  function PinsFor(confs: seq<ThreadConf>, tasks: seq<Task>): (r: seq<Pin>)
    ensures |r| <= |confs|
  {
    if confs == [] then []
    else (if Found(tasks, confs[0]) then [PinOf(tasks, confs[0])] else []) + PinsFor(confs[1..], tasks)
  }

  /** Every entry of a pass is either pinned or kept: pinned plus remaining is the number requested. */
  lemma {:induction false} PassCounts(confs: seq<ThreadConf>, tasks: seq<Task>)
    ensures |PinsFor(confs, tasks)| + |Unpinned(confs, tasks)| == |confs|
    decreases |confs|
  {
    if confs != [] {
      PassCounts(confs[1..], tasks);
    }
  }

  /** A pass keeps exactly the entries whose thread it does not find. */
  lemma {:induction false} UnpinnedMembers(confs: seq<ThreadConf>, tasks: seq<Task>)
    ensures forall c :: c in Unpinned(confs, tasks) <==> c in confs && !Found(tasks, c)
    decreases |confs|
  {
    if confs != [] {
      UnpinnedMembers(confs[1..], tasks);
      assert forall c :: c in confs <==> c == confs[0] || c in confs[1..];
    }
  }

  /** Every affinity call of a pass pins a found thread to the CPUs its entry lists. */
  lemma {:induction false} PinsForMembers(confs: seq<ThreadConf>, tasks: seq<Task>)
    ensures forall p :: p in PinsFor(confs, tasks) <==>
      exists c :: c in confs && Found(tasks, c) && p == Pin(TidFor(tasks, c.name), CpuSetOf(c.cpuSet))
    decreases |confs|
  {
    if confs != [] {
      PinsForMembers(confs[1..], tasks);
      assert forall c :: c in confs <==> c == confs[0] || c in confs[1..];
    }
  }

  /**
   * A pass pins each found entry once: run again with the same threads, it
   * pins nothing and keeps everything.
   */
  lemma {:induction false} SecondPassPinsNothing(confs: seq<ThreadConf>, tasks: seq<Task>)
    ensures PinsFor(Unpinned(confs, tasks), tasks) == []
    ensures Unpinned(Unpinned(confs, tasks), tasks) == Unpinned(confs, tasks)
  {
    var kept := Unpinned(confs, tasks);
    UnpinnedMembers(confs, tasks);
    NothingFound(kept, tasks);
  }

  /** A list none of whose threads is found is pinned nowhere and kept whole. */
  lemma {:induction false} NothingFound(confs: seq<ThreadConf>, tasks: seq<Task>)
    requires forall c :: c in confs ==> !Found(tasks, c)
    ensures PinsFor(confs, tasks) == [] && Unpinned(confs, tasks) == confs
    decreases |confs|
  {
    if confs != [] {
      assert forall c :: c in confs[1..] ==> c in confs;
      NothingFound(confs[1..], tasks);
      assert confs == [confs[0]] + confs[1..];
    }
  }

  /** The list after several passes, each with the tasks present at that time. */
  function Remaining(confs: seq<ThreadConf>, passes: seq<seq<Task>>): (r: seq<ThreadConf>)
    ensures |r| <= |confs|
    decreases |passes|
  {
    if passes == [] then confs
    else Remaining(Unpinned(confs, passes[0]), passes[1..])
  }

  /** The affinity calls of several passes, in order. */
  function PinLog(confs: seq<ThreadConf>, passes: seq<seq<Task>>): seq<Pin>
    decreases |passes|
  {
    if passes == [] then []
    else PinsFor(confs, passes[0]) + PinLog(Unpinned(confs, passes[0]), passes[1..])
  }

  /** Across passes, threads pinned plus threads still to pin is the number requested. */
  lemma {:induction false} PassesCount(confs: seq<ThreadConf>, passes: seq<seq<Task>>)
    ensures |PinLog(confs, passes)| + |Remaining(confs, passes)| == |confs|
    decreases |passes|
  {
    if passes != [] {
      PassCounts(confs, passes[0]);
      PassesCount(Unpinned(confs, passes[0]), passes[1..]);
    }
  }

  /** Once the list is empty, further passes neither pin nor keep anything. */
  lemma {:induction false} EmptyStaysEmpty(passes: seq<seq<Task>>)
    ensures Remaining([], passes) == [] && PinLog([], passes) == []
    decreases |passes|
  {
    if passes != [] {
      EmptyStaysEmpty(passes[1..]);
    }
  }

  /**
   * Where a pass stands after visiting the first `k` entries of `orig`:
   * `confs[..i]` is what it kept of them, `log` the calls it made for them,
   * and `confs[i..]` the entries not yet visited.
   */
  predicate PassedUpTo(orig: seq<ThreadConf>, k: nat, tasks: seq<Task>, confs: seq<ThreadConf>, i: nat, log: seq<Pin>)
  {
    k <= |orig| && i <= |confs| && confs[i..] == orig[k..] &&
    Unpinned(orig, tasks) == confs[..i] + Unpinned(orig[k..], tasks) &&
    PinsFor(orig, tasks) == log + PinsFor(orig[k..], tasks)
  }

  /** The entry a pass visits next is pinned and erased when its thread is found. */
  lemma ErasedStep(orig: seq<ThreadConf>, k: nat, tasks: seq<Task>, confs: seq<ThreadConf>, i: nat, log: seq<Pin>, cpuset: set<int>)
    requires PassedUpTo(orig, k, tasks, confs, i, log) && i < |confs|
    requires Found(tasks, confs[i])
    requires forall c :: c in cpuset <==> c in confs[i].cpuSet && 0 <= c < CpuSetSize
    ensures PassedUpTo(orig, k + 1, tasks, confs[..i] + confs[i + 1..], i, log + [Pin(TidFor(tasks, confs[i].name), cpuset)])
  {
    var rest := orig[k..];
    assert rest[0] == confs[i] && rest[1..] == orig[k + 1..];
    assert cpuset == CpuSetOf(confs[i].cpuSet) by {
      assert forall c :: c in cpuset <==> c in CpuSetOf(confs[i].cpuSet);
    }
    var confs' := confs[..i] + confs[i + 1..];
    assert confs'[..i] == confs[..i] && confs'[i..] == confs[i + 1..];
    assert PinsFor(orig, tasks) == (log + [PinOf(tasks, confs[i])]) + PinsFor(orig[k + 1..], tasks);
  }

  /** The entry a pass visits next stays in place when its thread is not found. */
  lemma KeptStep(orig: seq<ThreadConf>, k: nat, tasks: seq<Task>, confs: seq<ThreadConf>, i: nat, log: seq<Pin>)
    requires PassedUpTo(orig, k, tasks, confs, i, log) && i < |confs|
    requires !Found(tasks, confs[i])
    ensures PassedUpTo(orig, k + 1, tasks, confs, i + 1, log)
  {
    var rest := orig[k..];
    assert rest[0] == confs[i] && rest[1..] == orig[k + 1..];
    assert confs[..i + 1] == confs[..i] + [confs[i]];
    assert Unpinned(orig, tasks) == (confs[..i] + [confs[i]]) + Unpinned(orig[k + 1..], tasks);
  }

  /** Appending to a log in two steps is appending once. */
  lemma AppendAssoc<T>(a: seq<T>, b: seq<T>, c: seq<T>)
    ensures (a + b) + c == a + (b + c)
  {
  }

  /** Where a run of passes stands after the first `n`: the list is `confs` and the calls made are `log`. */
  predicate PassesUpTo(orig: seq<ThreadConf>, passes: seq<seq<Task>>, n: nat, confs: seq<ThreadConf>, log: seq<Pin>)
  {
    n <= |passes| &&
    Remaining(orig, passes) == Remaining(confs, passes[n..]) &&
    PinLog(orig, passes) == log + PinLog(confs, passes[n..])
  }

  /** One more pass moves the run one step on. */
  lemma NextPass(orig: seq<ThreadConf>, passes: seq<seq<Task>>, n: nat, confs: seq<ThreadConf>, log: seq<Pin>)
    requires PassesUpTo(orig, passes, n, confs, log) && n < |passes|
    ensures PassesUpTo(orig, passes, n + 1, Unpinned(confs, passes[n]), log + PinsFor(confs, passes[n]))
  {
    var rest := passes[n..];
    assert rest[0] == passes[n] && rest[1..] == passes[n + 1..];
  }

  /** A run whose list is empty after `n` passes ends as if every pass had been made. */
  lemma EndsEarly(orig: seq<ThreadConf>, passes: seq<seq<Task>>, n: nat, log: seq<Pin>)
    requires PassesUpTo(orig, passes, n, [], log)
    ensures Remaining(orig, passes) == [] && PinLog(orig, passes) == log
  {
    EmptyStaysEmpty(passes[n..]);
  }

  /** `tid_for_name`: scans the tasks in order for the first one with the name. */
  method TidForName(tasks: seq<Task>, name: string) returns (tid: int)
    ensures tid == TidFor(tasks, name)
  {
    var i := 0;
    while i < |tasks|
      invariant 0 <= i <= |tasks|
      invariant TidFor(tasks[i..], name) == TidFor(tasks, name)
    {
      assert tasks[i..][1..] == tasks[i + 1..];
      if tasks[i].comm == name {
        return tasks[i].tid;
      }
      i := i + 1;
    }
    tid := -1;
  }

  /** The CPU set `pin_thread` builds: CPU_ZERO, then CPU_SET for every listed CPU. */
  method BuildCpuSet(cpus: seq<int>) returns (cpuset: set<int>)
    ensures forall c :: c in cpuset <==> c in cpus && 0 <= c < CpuSetSize
  {
    cpuset := {};
    var i := 0;
    while i < |cpus|
      invariant 0 <= i <= |cpus|
      invariant forall c :: c in cpuset <==> c in cpus[..i] && 0 <= c < CpuSetSize
    {
      assert cpus[..i + 1] == cpus[..i] + [cpus[i]];
      if 0 <= cpus[i] < CpuSetSize {
        cpuset := cpuset + {cpus[i]};
      }
      i := i + 1;
    }
    assert cpus[..i] == cpus;
  }

  class CPUPinner {
    var threadConfs: seq<ThreadConf>   // m_conf.thread_confs
    var pins: seq<Pin>                 // the affinity calls made so far

    constructor ()
      ensures threadConfs == [] && pins == []
    {
      threadConfs := [];
      pins := [];
    }

    /** `do_conf`: the configuration is replaced as a whole. */
    method DoConf(confs: seq<ThreadConf>)
      modifies this`threadConfs
      ensures threadConfs == confs
    {
      threadConfs := confs;
    }

    /**
     * One pass of `do_work`'s inner loop: each entry whose thread is found
     * is pinned to its CPU set and erased; the others stay, in order.
     * Returns how many were pinned.
     */
    method PinPass(tasks: seq<Task>) returns (pinnedNow: nat)
      modifies this`threadConfs, this`pins
      ensures threadConfs == Unpinned(old(threadConfs), tasks)
      ensures pins == old(pins) + PinsFor(old(threadConfs), tasks)
      ensures pinnedNow + |threadConfs| == |old(threadConfs)|
    {
      ghost var orig := threadConfs;
      ghost var k := 0;
      ghost var log: seq<Pin> := [];
      var i := 0;
      pinnedNow := 0;
      while i < |threadConfs|
        invariant PassedUpTo(orig, k, tasks, threadConfs, i, log)
        invariant pins == old(pins) + log
        invariant pinnedNow + i == k
        decreases |threadConfs| - i
      {
        var entry := threadConfs[i];
        var tid := TidForName(tasks, entry.name);
        if tid >= 0 {
          var cpuset := BuildCpuSet(entry.cpuSet);
          ErasedStep(orig, k, tasks, threadConfs, i, log, cpuset);
          AppendAssoc(old(pins), log, [Pin(tid, cpuset)]);
          log := log + [Pin(tid, cpuset)];
          pins := pins + [Pin(tid, cpuset)];
          threadConfs := threadConfs[..i] + threadConfs[i + 1..];
          pinnedNow := pinnedNow + 1;
        } else {
          KeptStep(orig, k, tasks, threadConfs, i, log);
          i := i + 1;
        }
        k := k + 1;
      }
      assert orig[k..] == [] && threadConfs[..i] == threadConfs;
    }

    /**
     * `do_work`: passes are made while the running flag is up (`passes` are
     * the tasks each of them sees) and stop early once the list is empty.
     * Returns the numbers requested and pinned.
     */
    method DoWork(passes: seq<seq<Task>>) returns (toPin: nat, pinned: nat)
      modifies this`threadConfs, this`pins
      ensures toPin == |old(threadConfs)|
      ensures threadConfs == Remaining(old(threadConfs), passes)
      ensures pins == old(pins) + PinLog(old(threadConfs), passes)
      ensures pinned + |threadConfs| == toPin
    {
      ghost var orig := threadConfs;
      ghost var log: seq<Pin> := [];
      toPin := |threadConfs|;
      pinned := 0;
      var n := 0;
      while n < |passes|
        invariant PassesUpTo(orig, passes, n, threadConfs, log)
        invariant pins == old(pins) + log
        invariant pinned + |threadConfs| == toPin
      {
        ghost var before := threadConfs;
        AppendAssoc(old(pins), log, PinsFor(before, passes[n]));
        var pinnedNow := PinPass(passes[n]);
        NextPass(orig, passes, n, before, log);
        log := log + PinsFor(before, passes[n]);
        pinned := pinned + pinnedNow;
        n := n + 1;
        if threadConfs == [] {
          EndsEarly(orig, passes, n, log);
          return;
        }
      }
      assert passes[n..] == [];
    }
  }
}
