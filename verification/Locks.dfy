/** The per-swap lock (swap/locks.rs): a map of reference-counted mutexes, one atomic step at a time. */
module Locks {
  import opened Wrappers

  type TaskId = nat
  type MutexId = nat

  /** Where a task is between asking for a swap's lock and having let go of everything. `Draining` is
      the guard's drop after its pruning decision: the critical section is over but the semaphore is
      still held; `Dangling` has released the semaphore but not yet its `Arc`. */
  datatype Phase =
    | Waiting(id: string, m: MutexId)
    | Holding(id: string, m: MutexId)
    | Draining(id: string, m: MutexId)
    | Dangling(id: string, m: MutexId)
  {
    predicate OwnsSemaphore() {
      Holding? || Draining?
    }
  }

  /** `strong` is each `Arc`'s count; `home` remembers which id a mutex was made for. */
  datatype State = State(
    entries: map<string, MutexId>,
    strong: map<MutexId, nat>,
    owner: map<MutexId, TaskId>,
    tasks: map<TaskId, Phase>,
    home: map<MutexId, string>,
    next: MutexId)

  datatype Step =
    | Clone(t: TaskId, id: string)
    | Acquire(t: TaskId)
    | Cancel(t: TaskId)
    | Prune(t: TaskId)
    | Release(t: TaskId)
    | DropArc(t: TaskId)

  function Empty(): State {
    State(map[], map[], map[], map[], map[], 0)
  }

  predicate Enabled(s: State, step: Step) {
    match step
    case Clone(t, id) => t !in s.tasks && (id in s.entries ==> s.entries[id] in s.strong)
    case Acquire(t) => t in s.tasks && s.tasks[t].Waiting? && s.tasks[t].m !in s.owner
    case Cancel(t) => t in s.tasks && s.tasks[t].Waiting? && s.tasks[t].m in s.strong
    case Prune(t) =>
      && t in s.tasks && s.tasks[t].Holding?
      && (s.tasks[t].id in s.entries ==> s.entries[s.tasks[t].id] in s.strong)
    case Release(t) => t in s.tasks && s.tasks[t].Draining?
    case DropArc(t) => t in s.tasks && s.tasks[t].Dangling? && s.tasks[t].m in s.strong
  }

  function Less(n: nat): nat {
    if n == 0 then 0 else n - 1
  }

  /** One atomic step. A step on the map happens under the map's own mutex. */
  function Apply(s: State, step: Step): State
    requires Enabled(s, step)
  {
    match step
    case Clone(t, id) =>
      if id in s.entries then
        var m := s.entries[id];
        s.(strong := s.strong[m := s.strong[m] + 1], tasks := s.tasks[t := Waiting(id, m)])
      else
        var m := s.next;
        s.(entries := s.entries[id := m], strong := s.strong[m := 2], home := s.home[m := id],
           tasks := s.tasks[t := Waiting(id, m)], next := m + 1)
    case Acquire(t) =>
      var p := s.tasks[t];
      s.(owner := s.owner[p.m := t], tasks := s.tasks[t := Holding(p.id, p.m)])
    case Cancel(t) =>
      var m := s.tasks[t].m;
      s.(strong := s.strong[m := Less(s.strong[m])], tasks := s.tasks - {t})
    case Prune(t) =>
      var p := s.tasks[t];
      var s1 := s.(tasks := s.tasks[t := Draining(p.id, p.m)]);
      if p.id in s.entries && s.strong[s.entries[p.id]] <= 2 then
        var m := s.entries[p.id];
        s1.(entries := s.entries - {p.id}, strong := s.strong[m := Less(s.strong[m])])
      else s1
    case Release(t) =>
      var p := s.tasks[t];
      s.(owner := s.owner - {p.m}, tasks := s.tasks[t := Dangling(p.id, p.m)])
    case DropArc(t) =>
      var m := s.tasks[t].m;
      s.(strong := s.strong[m := Less(s.strong[m])], tasks := s.tasks - {t})
  }

  // ----- the invariant -----

  /** The tasks holding a clone of the `Arc`. */
  function Refs(s: State, m: MutexId): set<TaskId> {
    set t | t in s.tasks && s.tasks[t].m == m
  }

  predicate Mapped(s: State, m: MutexId) {
    m in s.home && s.home[m] in s.entries && s.entries[s.home[m]] == m
  }

  function MapRef(s: State, m: MutexId): nat {
    if Mapped(s, m) then 1 else 0
  }

  /** Every mutex was made for one id, and is mapped and referenced under no other. */
  predicate Homes(s: State) {
    && s.strong.Keys == s.home.Keys
    && (forall m :: m in s.home ==> m < s.next)
    && (forall id :: id in s.entries ==> s.entries[id] in s.home && s.home[s.entries[id]] == id)
    && (forall t :: t in s.tasks ==> s.tasks[t].m in s.home && s.home[s.tasks[t].m] == s.tasks[t].id)
  }

  /** Waiters and holders refer to the mutex now in the map. */
  predicate Live(s: State) {
    forall t :: t in s.tasks && (s.tasks[t].Waiting? || s.tasks[t].Holding?) ==>
      s.tasks[t].id in s.entries && s.entries[s.tasks[t].id] == s.tasks[t].m
  }

  predicate Owners(s: State) {
    && (forall t :: t in s.tasks && s.tasks[t].OwnsSemaphore() ==>
          s.tasks[t].m in s.owner && s.owner[s.tasks[t].m] == t)
    && (forall m :: m in s.owner ==>
          s.owner[m] in s.tasks && s.tasks[s.owner[m]].OwnsSemaphore() && s.tasks[s.owner[m]].m == m)
  }

  predicate Shape(s: State) {
    Homes(s) && Live(s) && Owners(s)
  }

  /** Each count is the tasks' clones plus the map's own. */
  predicate Counted(s: State) {
    forall m :: m in s.home && m in s.strong ==> s.strong[m] == |Refs(s, m)| + MapRef(s, m)
  }

  predicate Inv(s: State) {
    Shape(s) && Counted(s)
  }

  lemma RefsGrow(s: State, s': State, t: TaskId, m: MutexId)
    requires t !in s.tasks && t in s'.tasks && s'.tasks[t].m == m
    requires forall u :: u != t ==> (u in s.tasks <==> u in s'.tasks)
    requires forall u :: u in s.tasks ==> s'.tasks[u].m == s.tasks[u].m
    ensures |Refs(s', m)| == |Refs(s, m)| + 1
    ensures forall n :: n != m ==> Refs(s', n) == Refs(s, n)
  {
    assert Refs(s', m) == Refs(s, m) + {t};
  }

  lemma SameRefs(s: State, s': State)
    requires s.tasks.Keys == s'.tasks.Keys
    requires forall u :: u in s.tasks ==> s'.tasks[u].m == s.tasks[u].m
    ensures forall n :: Refs(s', n) == Refs(s, n)
  {
  }

  lemma {:induction false} SubsetSize(a: set<TaskId>, b: set<TaskId>)
    requires a <= b
    ensures |a| <= |b|
    decreases a
  {
    if a != {} {
      var x :| x in a;
      SubsetSize(a - {x}, b - {x});
    }
  }

  /** A count of at most two means the map and the dropping task hold the only references. */
  lemma PruneSeesOnlyItself(s: State, t: TaskId)
    requires Inv(s) && Enabled(s, Prune(t))
    ensures s.tasks[t].id in s.entries && s.entries[s.tasks[t].id] == s.tasks[t].m
    ensures s.strong[s.tasks[t].m] <= 2 <==> Refs(s, s.tasks[t].m) == {t}
    ensures t in Refs(s, s.tasks[t].m) && MapRef(s, s.tasks[t].m) == 1
  {
    var m := s.tasks[t].m;
    assert t in Refs(s, m);
    if |Refs(s, m)| <= 1 {
      forall u | u in Refs(s, m) ensures u == t {
        if u != t { SubsetSize({t, u}, Refs(s, m)); }
      }
      assert Refs(s, m) == {t};
    }
  }

  lemma CloneHomes(s: State, t: TaskId, id: string)
    requires Homes(s) && Enabled(s, Clone(t, id))
    ensures Homes(Apply(s, Clone(t, id)))
  {
  }

  lemma CloneLive(s: State, t: TaskId, id: string)
    requires Live(s) && Enabled(s, Clone(t, id))
    ensures Live(Apply(s, Clone(t, id)))
  {
  }

  lemma CloneOwners(s: State, t: TaskId, id: string)
    requires Owners(s) && Enabled(s, Clone(t, id))
    ensures Owners(Apply(s, Clone(t, id)))
  {
  }

  lemma CloneCount(s: State, t: TaskId, id: string)
    requires Homes(s) && Counted(s) && Enabled(s, Clone(t, id))
    ensures Counted(Apply(s, Clone(t, id)))
  {
    var s' := Apply(s, Clone(t, id));
    var m := s'.tasks[t].m;
    RefsGrow(s, s', t, m);
    if id !in s.entries { assert Refs(s, m) == {}; }
    hide Refs;
    forall n | n in s'.home && n in s'.strong ensures s'.strong[n] == |Refs(s', n)| + MapRef(s', n) {
      if n != m {
        assert Mapped(s', n) <==> Mapped(s, n);
        assert Refs(s', n) == Refs(s, n);
      }
    }
  }

  lemma PruneShape(s: State, t: TaskId)
    requires Inv(s) && Enabled(s, Prune(t))
    ensures Shape(Apply(s, Prune(t)))
  {
    hide Counted, Refs;
    PruneSeesOnlyItself(s, t);
    if s.strong[s.tasks[t].m] <= 2 { OthersElsewhere(s, t); }
  }

  lemma OthersElsewhere(s: State, t: TaskId)
    requires Inv(s) && Enabled(s, Prune(t)) && Refs(s, s.tasks[t].m) == {t}
    ensures forall u :: u in s.tasks && u != t ==> s.tasks[u].m != s.tasks[t].m
  {
    forall u | u in s.tasks && u != t ensures s.tasks[u].m != s.tasks[t].m {
      assert u !in Refs(s, s.tasks[t].m);
    }
  }

  lemma PruneCount(s: State, t: TaskId)
    requires Inv(s) && Enabled(s, Prune(t))
    ensures Counted(Apply(s, Prune(t)))
  {
    hide Live, Owners;
    PruneSeesOnlyItself(s, t);
    var s' := Apply(s, Prune(t));
    SameRefs(s, s');
    hide Refs;
    forall n | n in s'.home && n in s'.strong ensures s'.strong[n] == |Refs(s', n)| + MapRef(s', n) {
      assert n in s.home && n in s.strong;
    }
  }

  lemma LeaveShape(s: State, step: Step)
    requires Shape(s) && Enabled(s, step) && (step.Cancel? || step.DropArc?)
    ensures Shape(Apply(s, step))
  {
  }

  lemma LeaveCount(s: State, step: Step)
    requires Inv(s) && Enabled(s, step) && (step.Cancel? || step.DropArc?)
    ensures Counted(Apply(s, step))
  {
    hide Live, Owners;
    var s' := Apply(s, step);
    RefsGrow(s', s, step.t, s.tasks[step.t].m);
    forall n | n in s'.home && n in s'.strong ensures s'.strong[n] == |Refs(s', n)| + MapRef(s', n) {
      assert MapRef(s', n) == MapRef(s, n);
    }
  }

  lemma SemaphoreShape(s: State, step: Step)
    requires Shape(s) && Enabled(s, step) && (step.Acquire? || step.Release?)
    ensures Shape(Apply(s, step))
  {
  }

  lemma SemaphoreCount(s: State, step: Step)
    requires Inv(s) && Enabled(s, step) && (step.Acquire? || step.Release?)
    ensures Counted(Apply(s, step))
  {
    hide Live, Owners;
    var s' := Apply(s, step);
    SameRefs(s, s');
    forall n | n in s'.home && n in s'.strong ensures s'.strong[n] == |Refs(s', n)| + MapRef(s', n) {
      assert MapRef(s', n) == MapRef(s, n);
    }
  }

  lemma StepKeeps(s: State, step: Step)
    requires Inv(s) && Enabled(s, step)
    ensures Inv(Apply(s, step))
  {
    hide Apply, Homes, Live, Owners, Counted;
    match step {
      case Clone(t, id) => CloneHomes(s, t, id); CloneLive(s, t, id); CloneOwners(s, t, id); CloneCount(s, t, id);
      case Prune(t) => PruneShape(s, t); PruneCount(s, t);
      case Cancel(_) => LeaveShape(s, step); LeaveCount(s, step);
      case DropArc(_) => LeaveShape(s, step); LeaveCount(s, step);
      case _ => SemaphoreShape(s, step); SemaphoreCount(s, step);
    }
  }

  // ----- interleavings -----

  predicate Execution(s: State, steps: seq<Step>)
    decreases |steps|
  {
    steps == [] || (Enabled(s, steps[0]) && Execution(Apply(s, steps[0]), steps[1..]))
  }

  function After(s: State, steps: seq<Step>): State
    requires Execution(s, steps)
    decreases |steps|
  {
    if steps == [] then s else After(Apply(s, steps[0]), steps[1..])
  }

  lemma {:induction false} ExecutionKeeps(s: State, steps: seq<Step>)
    requires Inv(s) && Execution(s, steps)
    ensures Inv(After(s, steps))
    decreases |steps|
  {
    if steps != [] {
      StepKeeps(s, steps[0]);
      ExecutionKeeps(Apply(s, steps[0]), steps[1..]);
    }
  }

  /** In every interleaving at most one task is in the critical section of an id. */
  lemma MutualExclusion(steps: seq<Step>, t: TaskId, u: TaskId)
    requires Execution(Empty(), steps)
    requires var s := After(Empty(), steps);
             && t in s.tasks && u in s.tasks && s.tasks[t].Holding? && s.tasks[u].Holding?
             && s.tasks[t].id == s.tasks[u].id
    ensures t == u
  {
    ExecutionKeeps(Empty(), steps);
  }

  /** Every live waiter and every holder refers to the mutex now in the map, so a newcomer queues
      behind them rather than beside them. */
  lemma WaitersShareTheEntry(steps: seq<Step>, t: TaskId)
    requires Execution(Empty(), steps)
    requires var s := After(Empty(), steps); t in s.tasks && (s.tasks[t].Waiting? || s.tasks[t].Holding?)
    ensures var s := After(Empty(), steps);
            s.tasks[t].id in s.entries && s.entries[s.tasks[t].id] == s.tasks[t].m
  {
    ExecutionKeeps(Empty(), steps);
  }

  /** Pruning removes an entry exactly when nobody but the dropping task refers to it. */
  lemma PruneIsExact(steps: seq<Step>, t: TaskId)
    requires Execution(Empty(), steps) && Enabled(After(Empty(), steps), Prune(t))
    ensures var s := After(Empty(), steps);
            var id := s.tasks[t].id;
            id !in Apply(s, Prune(t)).entries <==> forall u :: u in s.tasks && s.tasks[u].m == s.tasks[t].m ==> u == t
  {
    ExecutionKeeps(Empty(), steps);
    var s := After(Empty(), steps);
    PruneSeesOnlyItself(s, t);
    if forall u :: u in s.tasks && s.tasks[u].m == s.tasks[t].m ==> u == t {
      assert Refs(s, s.tasks[t].m) == {t};
    } else {
      var u :| u in s.tasks && s.tasks[u].m == s.tasks[t].m && u != t;
      assert u in Refs(s, s.tasks[t].m);
    }
  }

  // ----- the map is bounded by the work in flight -----

  /** The guard's drop as one step: decide, release, let the `Arc` go. */
  function DropGuard(s: State, t: TaskId): State
    requires Inv(s) && Enabled(s, Prune(t))
  {
    StepKeeps(s, Prune(t));
    var s1 := Apply(s, Prune(t));
    StepKeeps(s1, Release(t));
    Apply(Apply(s1, Release(t)), DropArc(t))
  }

  datatype Coarse = Lock(t: TaskId, id: string) | Enter(t: TaskId) | Leave(t: TaskId)

  ghost predicate CoarseEnabled(s: State, c: Coarse) {
    match c
    case Lock(t, id) => Enabled(s, Clone(t, id))
    case Enter(t) => Enabled(s, Acquire(t))
    case Leave(t) => Enabled(s, Prune(t))
  }

  function CoarseApply(s: State, c: Coarse): State
    requires Inv(s) && CoarseEnabled(s, c)
  {
    match c
    case Lock(t, id) => Apply(s, Clone(t, id))
    case Enter(t) => Apply(s, Acquire(t))
    case Leave(t) => DropGuard(s, t)
  }

  function Wanted(s: State): set<string> {
    set t | t in s.tasks :: s.tasks[t].id
  }

  /** Nobody is between letting go and gone, and every entry is somebody's. */
  predicate Exact(s: State) {
    && (forall t :: t in s.tasks ==> s.tasks[t].Waiting? || s.tasks[t].Holding?)
    && s.entries.Keys == Wanted(s)
  }

  lemma DropGuardEffect(s: State, t: TaskId)
    requires Inv(s) && Enabled(s, Prune(t))
    ensures var s' := DropGuard(s, t);
            && Inv(s') && s'.tasks == s.tasks - {t}
            && s'.entries == if Refs(s, s.tasks[t].m) == {t} then s.entries - {s.tasks[t].id} else s.entries
  {
    hide Inv, Refs;
    PruneSeesOnlyItself(s, t);
    StepKeeps(s, Prune(t));
    var s1 := Apply(s, Prune(t));
    StepKeeps(s1, Release(t));
    var s2 := Apply(s1, Release(t));
    StepKeeps(s2, DropArc(t));
    assert s2.tasks - {t} == s.tasks - {t};
  }

  lemma LeaveStaysExact(s: State, t: TaskId)
    requires Inv(s) && Exact(s) && Enabled(s, Prune(t))
    ensures Inv(DropGuard(s, t)) && Exact(DropGuard(s, t))
  {
    PruneSeesOnlyItself(s, t);
    SameMutexSameId(s, t);
    DropGuardEffect(s, t);
    LeftExact(s, DropGuard(s, t), t, s.tasks[t].id, Refs(s, s.tasks[t].m));
  }

  /** Set reasoning only: dropping task `t`, whose id the tasks in `sharers` want. */
  lemma LeftExact(s: State, s': State, t: TaskId, id: string, sharers: set<TaskId>)
    requires Exact(s) && t in s.tasks && s.tasks[t].id == id
    requires sharers == set u | u in s.tasks && s.tasks[u].id == id
    requires s'.tasks == s.tasks - {t}
    requires s'.entries == if sharers == {t} then s.entries - {id} else s.entries
    ensures Exact(s')
  {
    assert t in sharers;
    forall i ensures i in s'.entries <==> i in Wanted(s') {
      if i in s'.entries {
        assert i in Wanted(s);
        var u :| u in s.tasks && s.tasks[u].id == i;
        if u == t {
          assert sharers != {t};
          var v :| v in sharers && v != t;
          assert v in s'.tasks && s'.tasks[v].id == i;
        } else {
          assert u in s'.tasks && s'.tasks[u].id == i;
        }
      }
      if i in Wanted(s') {
        var u :| u in s'.tasks && s'.tasks[u].id == i;
        assert s.tasks[u].id in Wanted(s);
        if i == id { assert u in sharers; }
      }
    }
  }

  /** With only waiters and holders about, sharing an id is sharing its mutex. */
  lemma SameMutexSameId(s: State, t: TaskId)
    requires Inv(s) && Exact(s) && t in s.tasks && s.tasks[t].id in s.entries
    ensures Refs(s, s.tasks[t].m) == set u | u in s.tasks && s.tasks[u].id == s.tasks[t].id
  {
  }

  lemma LockStaysExact(s: State, t: TaskId, id: string)
    requires Exact(s) && Enabled(s, Clone(t, id))
    ensures Exact(Apply(s, Clone(t, id)))
  {
    var s' := Apply(s, Clone(t, id));
    assert s'.tasks[t].id in Wanted(s');
    forall i ensures i in s'.entries <==> i in Wanted(s') {
      if i in s.entries {
        assert i in Wanted(s);
        var u :| u in s.tasks && s.tasks[u].id == i;
        assert s'.tasks[u].id == i;
      }
      if i in Wanted(s') && i != id {
        var u :| u in s'.tasks && s'.tasks[u].id == i;
        assert s.tasks[u].id in Wanted(s);
      }
    }
  }

  lemma EnterStaysExact(s: State, t: TaskId)
    requires Exact(s) && Enabled(s, Acquire(t))
    ensures Exact(Apply(s, Acquire(t)))
  {
    var s' := Apply(s, Acquire(t));
    forall i ensures i in Wanted(s) <==> i in Wanted(s') {
      if i in Wanted(s) {
        var u :| u in s.tasks && s.tasks[u].id == i;
        assert s'.tasks[u].id == i;
      }
      if i in Wanted(s') {
        var u :| u in s'.tasks && s'.tasks[u].id == i;
        assert s.tasks[u].id == i;
      }
    }
  }

  /** Without cancellation, and with a guard's drop taken as one step, the map holds exactly the ids
      some task is waiting for or holding. */
  lemma CoarseStepStaysExact(s: State, c: Coarse)
    requires Inv(s) && Exact(s) && CoarseEnabled(s, c)
    ensures var s' := CoarseApply(s, c); Inv(s') && Exact(s')
  {
    hide Inv, Exact, Apply, DropGuard;
    match c {
      case Lock(t, id) => StepKeeps(s, Clone(t, id)); LockStaysExact(s, t, id);
      case Enter(t) => StepKeeps(s, Acquire(t)); EnterStaysExact(s, t);
      case Leave(t) => LeaveStaysExact(s, t);
    }
  }

  ghost predicate CoarseExecution(s: State, cs: seq<Coarse>)
    requires Inv(s) && Exact(s)
    decreases |cs|
  {
    cs == [] ||
    (CoarseEnabled(s, cs[0]) &&
     (CoarseStepStaysExact(s, cs[0]); CoarseExecution(CoarseApply(s, cs[0]), cs[1..])))
  }

  ghost function CoarseAfter(s: State, cs: seq<Coarse>): State
    requires Inv(s) && Exact(s) && CoarseExecution(s, cs)
    decreases |cs|
  {
    if cs == [] then s
    else
      CoarseStepStaysExact(s, cs[0]);
      CoarseAfter(CoarseApply(s, cs[0]), cs[1..])
  }

  lemma {:induction false} MapHoldsExactlyTheWantedIds(s: State, cs: seq<Coarse>)
    requires Inv(s) && Exact(s) && CoarseExecution(s, cs)
    ensures CoarseAfter(s, cs).entries.Keys == Wanted(CoarseAfter(s, cs))
    decreases |cs|
  {
    if cs != [] {
      hide CoarseApply, Inv;
      CoarseStepStaysExact(s, cs[0]);
      MapHoldsExactlyTheWantedIds(CoarseApply(s, cs[0]), cs[1..]);
    }
  }

  lemma Cons(s: State, step: Step, rest: seq<Step>)
    requires Enabled(s, step) && Execution(Apply(s, step), rest)
    ensures Execution(s, [step] + rest) && After(s, [step] + rest) == After(Apply(s, step), rest)
  {
    assert ([step] + rest)[1..] == rest;
  }

  // ----- when the map keeps an entry too long -----

  /** Every entry is referenced by some task. */
  predicate AllReferenced(s: State) {
    forall id :: id in s.entries ==> Refs(s, s.entries[id]) != {}
  }

  /** The last reference to a mapped mutex goes without a prune: a cancelled wait, or a clone that a
      dropped guard let go of after somebody else's prune had still counted it. */
  predicate Leaks(s: State, step: Step) {
    && (step.Cancel? || step.DropArc?) && step.t in s.tasks
    && var m := s.tasks[step.t].m; Mapped(s, m) && Refs(s, m) == {step.t}
  }

  /** A step leaves an entry nobody references exactly when it is one of those. */
  lemma LeaksExactly(s: State, step: Step)
    requires Inv(s) && AllReferenced(s) && Enabled(s, step)
    ensures !AllReferenced(Apply(s, step)) <==> Leaks(s, step)
  {
    hide Counted, Live, Owners;
    match step {
      case Clone(t, id) => CloneReferences(s, t, id);
      case Cancel(t) => LeaveReferences(s, step);
      case DropArc(t) => LeaveReferences(s, step);
      case _ => SameRefs(s, Apply(s, step));
    }
  }

  lemma CloneReferences(s: State, t: TaskId, id: string)
    requires Inv(s) && AllReferenced(s) && Enabled(s, Clone(t, id))
    ensures AllReferenced(Apply(s, Clone(t, id)))
  {
    var s' := Apply(s, Clone(t, id));
    var m := s'.tasks[t].m;
    RefsGrow(s, s', t, m);
    assert t in Refs(s', m);
  }

  lemma LeaveReferences(s: State, step: Step)
    requires Inv(s) && AllReferenced(s) && Enabled(s, step) && (step.Cancel? || step.DropArc?)
    ensures !AllReferenced(Apply(s, step)) <==> Leaks(s, step)
  {
    hide Counted, Live, Owners;
    var s' := Apply(s, step);
    var m := s.tasks[step.t].m;
    RefsGrow(s', s, step.t, m);
    assert Refs(s, m) == Refs(s', m) + {step.t};
    if Leaks(s, step) {
      assert Refs(s', m) == {};
      assert s'.entries[s.home[m]] == m;
    } else if Refs(s', m) == {} {
      assert Refs(s, m) == {step.t};
      forall id | id in s'.entries ensures Refs(s', s'.entries[id]) != {} {
        assert s.entries[id] == m ==> Mapped(s, m);
      }
    }
  }

  predicate LeakFree(s: State, steps: seq<Step>)
    requires Execution(s, steps)
    decreases |steps|
  {
    steps == [] || (!Leaks(s, steps[0]) && LeakFree(Apply(s, steps[0]), steps[1..]))
  }

  /** So the map stays bounded by the work in flight through every interleaving without such a step. */
  lemma {:induction false} LeakFreeStaysReferenced(s: State, steps: seq<Step>)
    requires Inv(s) && AllReferenced(s) && Execution(s, steps) && LeakFree(s, steps)
    ensures AllReferenced(After(s, steps))
    decreases |steps|
  {
    if steps != [] {
      hide Inv, AllReferenced, Leaks, Apply;
      LeaksExactly(s, steps[0]);
      StepKeeps(s, steps[0]);
      LeakFreeStaysReferenced(Apply(s, steps[0]), steps[1..]);
    }
  }

  /** An interleaving after which nobody is about and the id is still mapped. */
  ghost predicate LeavesEntry(steps: seq<Step>, id: string) {
    Execution(Empty(), steps) && After(Empty(), steps).tasks == map[] && id in After(Empty(), steps).entries
  }

  /** One task holds the mutex and another waits. */
  function Contended(id: string): State {
    State(map[id := 0], map[0 := 3], map[0 := 0], map[0 := Holding(id, 0), 1 := Waiting(id, 0)], map[0 := id], 1)
  }

  lemma FromEmpty(id: string, rest: seq<Step>)
    requires Execution(Contended(id), rest)
    ensures var steps := [Clone(0, id)] + ([Acquire(0)] + ([Clone(1, id)] + rest));
            Execution(Empty(), steps) && After(Empty(), steps) == After(Contended(id), rest)
  {
    var s1 := Apply(Empty(), Clone(0, id));
    var s2 := Apply(s1, Acquire(0));
    assert Apply(s2, Clone(1, id)) == Contended(id);
    hide Apply, Execution, After;
    Cons(s2, Clone(1, id), rest);
    Cons(s1, Acquire(0), [Clone(1, id)] + rest);
    Cons(Empty(), Clone(0, id), [Acquire(0)] + ([Clone(1, id)] + rest));
  }

  /** A waiter that is cancelled after the holder decided not to prune leaves an entry nobody uses. */
  lemma CancellationLeaks(id: string)
    ensures exists steps :: LeavesEntry(steps, id)
  {
    var s1 := Apply(Contended(id), Prune(0));
    var s2 := Apply(s1, Cancel(1));
    var s3 := Apply(s2, Release(0));
    var s4 := Apply(s3, DropArc(0));
    assert s4.tasks == map[] && id in s4.entries;
    assert Execution(s4, []) && After(s4, []) == s4;
    hide Apply, Execution, After;
    Cons(s3, DropArc(0), []);
    Cons(s2, Release(0), [DropArc(0)] + []);
    Cons(s1, Cancel(1), [Release(0)] + ([DropArc(0)] + []));
    var tail := [Prune(0)] + ([Cancel(1)] + ([Release(0)] + ([DropArc(0)] + [])));
    Cons(Contended(id), Prune(0), [Cancel(1)] + ([Release(0)] + ([DropArc(0)] + [])));
    FromEmpty(id, tail);
    assert LeavesEntry([Clone(0, id)] + ([Acquire(0)] + ([Clone(1, id)] + tail)), id);
  }

  /** Both have held it and decided not to prune, each for the other's reference. */
  function BothDeclined(id: string): State {
    State(map[id := 0], map[0 := 3], map[0 := 1], map[0 := Dangling(id, 0), 1 := Draining(id, 0)], map[0 := id], 1)
  }

  lemma FromBothDeclined(id: string)
    ensures var steps := [Release(1)] + ([DropArc(1)] + ([DropArc(0)] + []));
            && Execution(BothDeclined(id), steps)
            && After(BothDeclined(id), steps).tasks == map[] && id in After(BothDeclined(id), steps).entries
  {
    var s1 := Apply(BothDeclined(id), Release(1));
    var s2 := Apply(s1, DropArc(1));
    var s3 := Apply(s2, DropArc(0));
    assert s3.tasks == map[] && id in s3.entries;
    assert Execution(s3, []) && After(s3, []) == s3;
    hide Apply, Execution, After;
    Cons(s2, DropArc(0), []);
    Cons(s1, DropArc(1), [DropArc(0)] + []);
    Cons(BothDeclined(id), Release(1), [DropArc(1)] + ([DropArc(0)] + []));
  }

  lemma FromContended(id: string, rest: seq<Step>)
    requires Execution(BothDeclined(id), rest)
    ensures var steps := [Prune(0)] + ([Release(0)] + ([Acquire(1)] + ([Prune(1)] + rest)));
            Execution(Contended(id), steps) && After(Contended(id), steps) == After(BothDeclined(id), rest)
  {
    var s1 := Apply(Contended(id), Prune(0));
    var s2 := Apply(s1, Release(0));
    var s3 := Apply(s2, Acquire(1));
    assert Apply(s3, Prune(1)) == BothDeclined(id);
    hide Apply, Execution, After;
    Cons(s3, Prune(1), rest);
    Cons(s2, Acquire(1), [Prune(1)] + rest);
    Cons(s1, Release(0), [Acquire(1)] + ([Prune(1)] + rest));
    Cons(Contended(id), Prune(0), [Release(0)] + ([Acquire(1)] + ([Prune(1)] + rest)));
  }

  /** So does, with no cancellation at all, a second holder that drops its guard while the first has
      released the mutex but not yet its `Arc`. */
  lemma SlowDropLeaks(id: string)
    ensures exists steps: seq<Step> :: (forall step <- steps :: !step.Cancel?) && LeavesEntry(steps, id)
  {
    hide Apply, Execution, After;
    var end := [Release(1)] + ([DropArc(1)] + ([DropArc(0)] + []));
    FromBothDeclined(id);
    FromContended(id, end);
    var middle := [Prune(0)] + ([Release(0)] + ([Acquire(1)] + ([Prune(1)] + end)));
    FromEmpty(id, middle);
    assert LeavesEntry([Clone(0, id)] + ([Acquire(0)] + ([Clone(1, id)] + middle)), id);
  }

  // ----- the object -----

  /** The keyed mutex itself; `tasks` and `home` are bookkeeping for the proof. */
  class SwapLocks {
    var entries: map<string, MutexId>
    var strong: map<MutexId, nat>
    var owner: map<MutexId, TaskId>
    var next: MutexId
    ghost var tasks: map<TaskId, Phase>
    ghost var home: map<MutexId, string>

    ghost function View(): State
      reads this
    {
      State(entries, strong, owner, tasks, home, next)
    }

    constructor ()
      ensures View() == Empty() && Inv(View())
    {
      entries, strong, owner, next := map[], map[], map[], 0;
      tasks, home := map[], map[];
    }

    /** `lock`, up to its await: look the entry up or create it, and clone the `Arc`. */
    method CloneEntry(t: TaskId, id: string) returns (m: MutexId)
      requires Enabled(View(), Clone(t, id))
      modifies this
      ensures View() == Apply(old(View()), Clone(t, id)) && m == View().tasks[t].m
      ensures old(Inv(View())) ==> Inv(View())
    {
      hide Inv;
      ghost var before := View();
      if id in entries {
        m := entries[id];
        strong := strong[m := strong[m] + 1];
      } else {
        m := next;
        entries, strong, home := entries[id := m], strong[m := 2], home[m := id];
        next := next + 1;
      }
      tasks := tasks[t := Waiting(id, m)];
      if Inv(before) { StepKeeps(before, Clone(t, id)); }
    }

    /** The await resolving: the mutex was free. */
    method TakeSemaphore(t: TaskId, m: MutexId)
      requires Enabled(View(), Acquire(t)) && tasks[t].m == m
      modifies this
      ensures View() == Apply(old(View()), Acquire(t))
      ensures old(Inv(View())) ==> Inv(View())
    {
      hide Inv;
      ghost var before := View();
      owner, tasks := owner[m := t], tasks[t := Holding(tasks[t].id, m)];
      if Inv(before) { StepKeeps(before, Acquire(t)); }
    }

    /** `SwapLockGuard::drop`: prune when only the map and this guard hold the `Arc`. */
    method PruneEntry(t: TaskId, id: string)
      requires Enabled(View(), Prune(t)) && tasks[t].id == id
      modifies this
      ensures View() == Apply(old(View()), Prune(t))
      ensures old(Inv(View())) ==> Inv(View())
    {
      hide Inv;
      ghost var before := View();
      if id in entries {
        var m := entries[id];
        if strong[m] <= 2 {
          entries := entries - {id};
          strong := strong[m := Less(strong[m])];
        }
      }
      tasks := tasks[t := Draining(id, tasks[t].m)];
      if Inv(before) { StepKeeps(before, Prune(t)); }
    }

    method ReleaseSemaphore(t: TaskId, m: MutexId)
      requires Enabled(View(), Release(t)) && tasks[t].m == m
      modifies this
      ensures View() == Apply(old(View()), Release(t))
      ensures old(Inv(View())) ==> Inv(View())
    {
      hide Inv;
      ghost var before := View();
      owner, tasks := owner - {m}, tasks[t := Dangling(tasks[t].id, m)];
      if Inv(before) { StepKeeps(before, Release(t)); }
    }

    /** The task's clone of the `Arc` goes away, after a release or because its wait was cancelled. */
    method ForgetArc(t: TaskId, m: MutexId, ghost step: Step)
      requires (step == Cancel(t) || step == DropArc(t)) && Enabled(View(), step) && tasks[t].m == m
      modifies this
      ensures View() == Apply(old(View()), step)
      ensures old(Inv(View())) ==> Inv(View())
    {
      hide Inv;
      ghost var before := View();
      strong, tasks := strong[m := Less(strong[m])], tasks - {t};
      if Inv(before) { StepKeeps(before, step); }
    }
  }
}
