/** Why a run may take each handler as one step: handlers made of any atomic effects, run concurrently
    under the per-swap lock, leave every swap where some run of whole handlers leaves it. */
module Interleaving {
  import opened Wrappers
  import opened Models
  import opened Chain
  import opened Ledger
  import opened Protocol
  import Locks
  import Safety
  import Runs

  type TaskId = Locks.TaskId

  /** A handler as the task that runs it: it starts from nothing but its action, and each effect reads the
      swap as it is at that moment and what the task remembers, until it is done. */
  datatype Machine<!M> = Machine(start: Action -> M, effect: (M, State) -> (M, State), done: M -> bool)

  /** Swap by swap. */
  type Machines<!M> = string -> Machine<M>
  type Envs = string -> Env
  type Swaps = map<string, State>

  /** Up to `k` effects in a row, undisturbed. */
  function Alone<M>(machine: Machine<M>, a: Action, s: State, k: nat): (M, State) {
    if k == 0 then (machine.start(a), s)
    else
      var (memory, now) := Alone(machine, a, s, k - 1);
      if machine.done(memory) then (memory, now) else machine.effect(memory, now)
  }

  /** Left alone, the handlers do what the protocol says. */
  ghost predicate Implements<M>(machine: Machine<M>, env: Env) {
    forall a, s, k: nat :: machine.done(Alone(machine, a, s, k).0) ==> Alone(machine, a, s, k).1 == Step(env, s, a)
  }

  /** The coarsest one: the whole handler is one effect. */
  function WholeHandlers(env: Env): Machine<Option<Action>> {
    Machine(a => Some(a),
            (memory: Option<Action>, s: State) =>
              if memory.Some? then (None, Step(env, s, memory.value)) else (memory, s),
            (memory: Option<Action>) => memory.None?)
  }

  lemma WholeHandlersImplement(env: Env)
    ensures Implements(WholeHandlers(env), env)
  {
    hide Step;
    forall a, s, k: nat
      ensures Alone(WholeHandlers(env), a, s, k) == if k == 0 then (Some(a), s) else (None, Step(env, s, a))
    {
      WholeHandlersAlone(env, a, s, k);
    }
  }

  lemma {:induction false} WholeHandlersAlone(env: Env, a: Action, s: State, k: nat)
    ensures Alone(WholeHandlers(env), a, s, k) == if k == 0 then (Some(a), s) else (None, Step(env, s, a))
  {
    hide Step;
    if k > 0 { WholeHandlersAlone(env, a, s, k - 1); }
  }

  /** `swaps` is what the store and the outside show of each swap; `memory` is what each task in a critical
      section remembers; `begun` is the order in which handlers entered, swap by swap. */
  datatype Conf<!M> = Conf(
    locks: Locks.State,
    swaps: Swaps,
    memory: map<TaskId, M>,
    begun: map<string, seq<Action>>)

  /** `Move` is any step of the lock that neither enters nor leaves a critical section. */
  datatype Event =
    | Move(step: Locks.Step)
    | Enter(t: TaskId, a: Action)
    | Work(t: TaskId)
    | Leave(t: TaskId)

  predicate Possible<M>(machines: Machines<M>, c: Conf<M>, e: Event) {
    match e
    case Move(step) => !step.Acquire? && !step.Prune? && Locks.Enabled(c.locks, step)
    case Enter(t, _) =>
      Locks.Enabled(c.locks, Locks.Acquire(t)) && c.locks.tasks[t].id in c.swaps && c.locks.tasks[t].id in c.begun
    case Work(t) =>
      InSection(c, t) && t in c.memory && !Done(machines, c, t) && c.locks.tasks[t].id in c.swaps
    case Leave(t) =>
      InSection(c, t) && t in c.memory && Done(machines, c, t) && Locks.Enabled(c.locks, Locks.Prune(t))
  }

  predicate InSection<M>(c: Conf<M>, t: TaskId) {
    t in c.locks.tasks && c.locks.tasks[t].Holding?
  }

  predicate Done<M>(machines: Machines<M>, c: Conf<M>, t: TaskId)
    requires InSection(c, t) && t in c.memory
  {
    machines(c.locks.tasks[t].id).done(c.memory[t])
  }

  function Apply<M>(machines: Machines<M>, c: Conf<M>, e: Event): Conf<M>
    requires Possible(machines, c, e)
  {
    match e
    case Move(step) => c.(locks := Locks.Apply(c.locks, step))
    case Enter(t, a) =>
      var id := c.locks.tasks[t].id;
      c.(locks := Locks.Apply(c.locks, Locks.Acquire(t)), memory := c.memory[t := machines(id).start(a)],
         begun := c.begun[id := c.begun[id] + [a]])
    case Work(t) =>
      var id := c.locks.tasks[t].id;
      var (memory, swap) := machines(id).effect(c.memory[t], c.swaps[id]);
      c.(memory := c.memory[t := memory], swaps := c.swaps[id := swap])
    case Leave(t) =>
      c.(locks := Locks.Apply(c.locks, Locks.Prune(t)), memory := c.memory - {t})
  }

  function Begin<M>(swaps: Swaps): Conf<M> {
    Conf(Locks.Empty(), swaps, map[], map id | id in swaps :: [])
  }

  ghost predicate Idle<M>(c: Conf<M>, id: string) {
    forall t :: InSection(c, t) ==> c.locks.tasks[t].id != id
  }

  /** The swap is where the whole handlers begun so far leave it. */
  ghost predicate Settled<M>(envs: Envs, first: Swaps, c: Conf<M>, id: string)
    requires id in first && id in c.swaps && id in c.begun
  {
    c.swaps[id] == Run(envs(id), first[id], c.begun[id])
  }

  /** The swap is where the last handler begun, running alone after the others, has got to. */
  ghost predicate Underway<M>(machines: Machines<M>, envs: Envs, first: Swaps,
                              c: Conf<M>, t: TaskId)
    requires InSection(c, t) && var id := c.locks.tasks[t].id; id in first && id in c.swaps && id in c.begun
  {
    var id := c.locks.tasks[t].id;
    && t in c.memory && c.begun[id] != []
    && exists k: nat :: Progress(machines(id), envs(id), first[id], c.begun[id], k) == (c.memory[t], c.swaps[id])
  }

  function Progress<M>(machine: Machine<M>, env: Env, first: State, begun: seq<Action>, k: nat): (M, State)
    requires begun != []
  {
    Alone(machine, begun[|begun| - 1], Run(env, first, begun[..|begun| - 1]), k)
  }

  ghost predicate Known<M>(first: Swaps, c: Conf<M>) {
    && c.swaps.Keys == first.Keys == c.begun.Keys
    && (forall t :: InSection(c, t) ==> c.locks.tasks[t].id in first)
  }

  ghost predicate Inv<M>(machines: Machines<M>, envs: Envs, first: Swaps, c: Conf<M>) {
    && Locks.Inv(c.locks) && Known(first, c)
    && (forall id :: id in first && Idle(c, id) ==> Settled(envs, first, c, id))
    && (forall t :: InSection(c, t) ==> Underway(machines, envs, first, c, t))
  }

  /** Two tasks in the critical section of one id are the same task. */
  lemma OneInSection<M>(c: Conf<M>, t: TaskId, u: TaskId)
    requires Locks.Inv(c.locks) && InSection(c, t) && InSection(c, u)
    requires c.locks.tasks[t].id == c.locks.tasks[u].id
    ensures t == u
  {
  }

  /** Entering finds the section empty. */
  lemma EntersIdle<M>(c: Conf<M>, t: TaskId)
    requires Locks.Inv(c.locks) && Locks.Enabled(c.locks, Locks.Acquire(t))
    ensures Idle(c, c.locks.tasks[t].id)
  {
  }

  lemma MoveKeepsSections<M>(machines: Machines<M>, c: Conf<M>, step: Locks.Step, t: TaskId)
    requires Possible(machines, c, Move(step))
    ensures var c' := Apply(machines, c, Move(step));
            && (InSection(c', t) <==> InSection(c, t))
            && (InSection(c, t) ==> c'.locks.tasks[t] == c.locks.tasks[t])
  {
  }

  lemma MoveKeeps<M>(machines: Machines<M>, envs: Envs, first: Swaps, c: Conf<M>, step: Locks.Step)
    requires Inv(machines, envs, first, c) && Possible(machines, c, Move(step))
    ensures Inv(machines, envs, first, Apply(machines, c, Move(step)))
  {
    hide Locks.Inv, Locks.Apply, Run, Progress;
    var c' := Apply(machines, c, Move(step));
    Locks.StepKeeps(c.locks, step);
    forall t ensures InSection(c', t) <==> InSection(c, t)
             ensures InSection(c, t) ==> c'.locks.tasks[t] == c.locks.tasks[t] {
      MoveKeepsSections(machines, c, step, t);
    }
    forall id | id in first && Idle(c', id) ensures Settled(envs, first, c', id) {
      assert Idle(c, id);
    }
    forall t | InSection(c', t) ensures Underway(machines, envs, first, c', t) {
      assert Underway(machines, envs, first, c, t);
    }
  }

  /** From `c` to `d` only task `t` and the swap `id` it works on have changed. */
  ghost predicate OnlyAt<M>(c: Conf<M>, d: Conf<M>, t: TaskId, id: string) {
    && d.swaps.Keys == c.swaps.Keys && d.begun.Keys == c.begun.Keys
    && (forall other :: other in c.swaps && other in c.begun && other != id ==>
          d.swaps[other] == c.swaps[other] && d.begun[other] == c.begun[other])
    && (forall u :: u != t ==> (InSection(c, u) <==> InSection(d, u)))
    && (forall u :: u != t && InSection(c, u) ==>
          && d.locks.tasks[u] == c.locks.tasks[u] && c.locks.tasks[u].id != id
          && (u in c.memory ==> u in d.memory && d.memory[u] == c.memory[u]))
    && (InSection(c, t) ==> c.locks.tasks[t].id == id)
    && (InSection(d, t) ==> d.locks.tasks[t].id == id)
  }

  lemma OthersStay<M>(machines: Machines<M>, envs: Envs, first: Swaps, c: Conf<M>, d: Conf<M>,
                      t: TaskId, id: string)
    requires Inv(machines, envs, first, c) && OnlyAt(c, d, t, id) && id in first
    ensures Known(first, d)
    ensures forall u :: u != t && InSection(d, u) ==> Underway(machines, envs, first, d, u)
    ensures forall other :: other in first && other != id && Idle(d, other) ==> Settled(envs, first, d, other)
  {
    hide Locks.Inv, Run, Progress;
    forall u | u != t && InSection(d, u) ensures Underway(machines, envs, first, d, u) {
      assert Underway(machines, envs, first, c, u);
    }
    forall other | other in first && other != id && Idle(d, other) ensures Settled(envs, first, d, other) {
      assert Idle(c, other);
    }
  }

  lemma InvFrom<M>(machines: Machines<M>, envs: Envs, first: Swaps, d: Conf<M>, t: TaskId,
                   id: string)
    requires Locks.Inv(d.locks) && Known(first, d) && id in first
    requires forall u :: u != t && InSection(d, u) ==> Underway(machines, envs, first, d, u)
    requires forall other :: other in first && other != id && Idle(d, other) ==> Settled(envs, first, d, other)
    requires if InSection(d, t) then d.locks.tasks[t].id == id && Underway(machines, envs, first, d, t)
             else Settled(envs, first, d, id)
    ensures Inv(machines, envs, first, d)
  {
    hide Locks.Inv, Run, Progress, Settled, Underway;
  }

  lemma SoleOwner<M>(c: Conf<M>, t: TaskId)
    requires Locks.Inv(c.locks) && InSection(c, t)
    ensures Sole(c, t, c.locks.tasks[t].id)
  {
    forall u | u != t && InSection(c, u) ensures c.locks.tasks[u].id != c.locks.tasks[t].id {
      if c.locks.tasks[u].id == c.locks.tasks[t].id { OneInSection(c, t, u); }
    }
  }

  ghost predicate Sole<M>(c: Conf<M>, t: TaskId, id: string) {
    forall u :: u != t && InSection(c, u) ==> c.locks.tasks[u].id != id
  }

  lemma EnterIsLocal<M>(machines: Machines<M>, c: Conf<M>, t: TaskId, a: Action)
    requires Possible(machines, c, Enter(t, a)) && Sole(c, t, c.locks.tasks[t].id)
    ensures var d := Apply(machines, c, Enter(t, a));
            && OnlyAt(c, d, t, c.locks.tasks[t].id) && InSection(d, t)
            && d.locks == Locks.Apply(c.locks, Locks.Acquire(t))
  {
  }

  lemma WorkIsLocal<M>(machines: Machines<M>, c: Conf<M>, t: TaskId)
    requires Possible(machines, c, Work(t)) && Sole(c, t, c.locks.tasks[t].id) && c.locks.tasks[t].id in c.begun
    ensures var d := Apply(machines, c, Work(t));
            OnlyAt(c, d, t, c.locks.tasks[t].id) && InSection(d, t) && d.locks == c.locks
  {
  }

  lemma LeaveIsLocal<M>(machines: Machines<M>, c: Conf<M>, t: TaskId)
    requires Possible(machines, c, Leave(t)) && Sole(c, t, c.locks.tasks[t].id)
    ensures var d := Apply(machines, c, Leave(t));
            && OnlyAt(c, d, t, c.locks.tasks[t].id) && !InSection(d, t)
            && d.locks == Locks.Apply(c.locks, Locks.Prune(t))
            && d.swaps == c.swaps && d.begun == c.begun
  {
  }

  lemma EnterKeeps<M>(machines: Machines<M>, envs: Envs, first: Swaps, c: Conf<M>,
                      t: TaskId, a: Action)
    requires Inv(machines, envs, first, c) && Possible(machines, c, Enter(t, a))
    ensures Inv(machines, envs, first, Apply(machines, c, Enter(t, a)))
  {
    hide Locks.Inv, Locks.Apply, Run, Underway, Apply;
    var id := c.locks.tasks[t].id;
    EntersIdle(c, t);
    EnterIsLocal(machines, c, t, a);
    Locks.StepKeeps(c.locks, Locks.Acquire(t));
    var d := Apply(machines, c, Enter(t, a));
    OthersStay(machines, envs, first, c, d, t, id);
    assert Settled(envs, first, c, id);
    EnteredIsUnderway(machines, envs, first, c, t, a);
    InvFrom(machines, envs, first, d, t, id);
  }

  lemma EnteredIsUnderway<M>(machines: Machines<M>, envs: Envs, first: Swaps, c: Conf<M>, t: TaskId,
                             a: Action)
    requires Known(first, c) && Possible(machines, c, Enter(t, a)) && Settled(envs, first, c, c.locks.tasks[t].id)
    ensures Underway(machines, envs, first, Apply(machines, c, Enter(t, a)), t)
  {
    hide Run;
    var id := c.locks.tasks[t].id;
    var d := Apply(machines, c, Enter(t, a));
    assert d.begun[id][..|d.begun[id]| - 1] == c.begun[id];
    assert Progress(machines(id), envs(id), first[id], d.begun[id], 0) == (d.memory[t], d.swaps[id]);
  }

  lemma WorkKeeps<M>(machines: Machines<M>, envs: Envs, first: Swaps, c: Conf<M>, t: TaskId)
    requires Inv(machines, envs, first, c) && Possible(machines, c, Work(t))
    ensures Inv(machines, envs, first, Apply(machines, c, Work(t)))
  {
    hide Locks.Inv, Run, Underway, Apply;
    var id := c.locks.tasks[t].id;
    SoleOwner(c, t);
    WorkIsLocal(machines, c, t);
    assert Underway(machines, envs, first, c, t);
    WorkIsUnderway(machines, envs, first, c, t);
    var d := Apply(machines, c, Work(t));
    OthersStay(machines, envs, first, c, d, t, id);
    InvFrom(machines, envs, first, d, t, id);
  }

  lemma WorkIsUnderway<M>(machines: Machines<M>, envs: Envs, first: Swaps, c: Conf<M>, t: TaskId)
    requires Known(first, c) && Possible(machines, c, Work(t)) && Underway(machines, envs, first, c, t)
    ensures Underway(machines, envs, first, Apply(machines, c, Work(t)), t)
  {
    hide Run;
    var id := c.locks.tasks[t].id;
    var d := Apply(machines, c, Work(t));
    var k: nat :| Progress(machines(id), envs(id), first[id], c.begun[id], k) == (c.memory[t], c.swaps[id]);
    assert Progress(machines(id), envs(id), first[id], d.begun[id], k + 1) == (d.memory[t], d.swaps[id]);
  }

  lemma LeaveKeeps<M>(machines: Machines<M>, envs: Envs, first: Swaps, c: Conf<M>, t: TaskId)
    requires Inv(machines, envs, first, c) && Possible(machines, c, Leave(t))
    requires forall id :: Implements(machines(id), envs(id))
    ensures Inv(machines, envs, first, Apply(machines, c, Leave(t)))
  {
    hide Locks.Inv, Locks.Apply, Locks.Enabled, Run, Underway, Implements, Apply;
    var id := c.locks.tasks[t].id;
    SoleOwner(c, t);
    LeaveIsLocal(machines, c, t);
    Locks.StepKeeps(c.locks, Locks.Prune(t));
    assert Underway(machines, envs, first, c, t);
    UnderwayDone(machines, envs, first, c, t);
    var d := Apply(machines, c, Leave(t));
    OthersStay(machines, envs, first, c, d, t, id);
    InvFrom(machines, envs, first, d, t, id);
  }

  lemma UnderwayDone<M>(machines: Machines<M>, envs: Envs, first: Swaps, c: Conf<M>, t: TaskId)
    requires Known(first, c) && InSection(c, t) && Underway(machines, envs, first, c, t) && Done(machines, c, t)
    requires Implements(machines(c.locks.tasks[t].id), envs(c.locks.tasks[t].id))
    ensures Settled(envs, first, c, c.locks.tasks[t].id)
  {
    hide Run, Implements, Progress;
    var id := c.locks.tasks[t].id;
    DoneIsRun(machines(id), envs(id), first[id], c.begun[id], c.memory[t], c.swaps[id]);
  }

  /** A handler that is done has taken the swap where its whole step takes it. */
  lemma DoneIsRun<M>(machine: Machine<M>, env: Env, first: State, begun: seq<Action>, memory: M, swap: State)
    requires Implements(machine, env) && begun != [] && machine.done(memory)
    requires exists k: nat :: Progress(machine, env, first, begun, k) == (memory, swap)
    ensures swap == Run(env, first, begun)
  {
    hide Run, Step;
    var front, a := begun[..|begun| - 1], begun[|begun| - 1];
    var k: nat :| Progress(machine, env, first, begun, k) == (memory, swap);
    assert swap == Step(env, Run(env, first, front), a);
    Runs.RunAppend(env, first, front, [a]);
    Runs.RunOne(env, Run(env, first, front), a);
    assert front + [a] == begun;
  }

  lemma EventKeeps<M>(machines: Machines<M>, envs: Envs, first: Swaps, c: Conf<M>, e: Event)
    requires Inv(machines, envs, first, c) && Possible(machines, c, e)
    requires forall id :: Implements(machines(id), envs(id))
    ensures Inv(machines, envs, first, Apply(machines, c, e))
  {
    hide Inv, Apply, Implements;
    match e {
      case Move(step) => MoveKeeps(machines, envs, first, c, step);
      case Enter(t, a) => EnterKeeps(machines, envs, first, c, t, a);
      case Work(t) => WorkKeeps(machines, envs, first, c, t);
      case Leave(t) => LeaveKeeps(machines, envs, first, c, t);
    }
  }

  predicate Execution<M>(machines: Machines<M>, c: Conf<M>, events: seq<Event>)
    decreases |events|
  {
    events == [] ||
    (Possible(machines, c, events[0]) && Execution(machines, Apply(machines, c, events[0]), events[1..]))
  }

  function After<M>(machines: Machines<M>, c: Conf<M>, events: seq<Event>): Conf<M>
    requires Execution(machines, c, events)
    decreases |events|
  {
    if events == [] then c else After(machines, Apply(machines, c, events[0]), events[1..])
  }

  lemma {:induction false} ExecutionKeeps<M>(machines: Machines<M>, envs: Envs, first: Swaps,
                                             c: Conf<M>, events: seq<Event>)
    requires Inv(machines, envs, first, c) && Execution(machines, c, events)
    requires forall id :: Implements(machines(id), envs(id))
    ensures Inv(machines, envs, first, After(machines, c, events))
    decreases |events|
  {
    if events != [] {
      hide Inv, Apply, Implements;
      EventKeeps(machines, envs, first, c, events[0]);
      ExecutionKeeps(machines, envs, first, Apply(machines, c, events[0]), events[1..]);
    }
  }

  lemma BeginIsOk<M>(machines: Machines<M>, envs: Envs, first: Swaps)
    ensures Inv(machines, envs, first, Begin(first))
  {
  }

  /** However the effects of any number of handlers on any number of swaps interleave: a swap nobody holds
      is where some run of whole handlers leaves it, namely of those that entered, in that order. */
  lemma EveryInterleavingIsARun<M>(machines: Machines<M>, envs: Envs, first: Swaps,
                                   events: seq<Event>, id: string)
    requires Execution(machines, Begin(first), events) && id in first
    requires forall id :: Implements(machines(id), envs(id))
    requires Idle(After(machines, Begin(first), events), id)
    ensures var c := After(machines, Begin(first), events);
            && id in c.swaps && id in c.begun
            && c.swaps[id] == Run(envs(id), first[id], c.begun[id])
  {
    hide Execution, After, Run, Implements;
    BeginIsOk(machines, envs, first);
    ExecutionKeeps(machines, envs, first, Begin(first), events);
  }

  /** So what every run keeps, every interleaving keeps. */
  lemma InterleavingsKeep<M>(machines: Machines<M>, envs: Envs, first: Swaps,
                             events: seq<Event>, id: string)
    requires Execution(machines, Begin(first), events) && id in first
    requires forall id :: Implements(machines(id), envs(id))
    requires Idle(After(machines, Begin(first), events), id)
    requires EnvOk(envs(id)) && Safety.Inv(envs(id), first[id])
    ensures var c := After(machines, Begin(first), events);
            && id in c.swaps && id in c.begun
            && Safety.Inv(envs(id), c.swaps[id]) && Safety.Evolves(envs(id), first[id], c.swaps[id])
            && c.swaps[id].acks <= first[id].acks + Runs.ClaimerCount(c.begun[id])
  {
    hide Execution, After, Run, Implements, Idle, Safety.Inv, Safety.Evolves;
    EveryInterleavingIsARun(machines, envs, first, events, id);
    Runs.RunKeeps(envs(id), first[id], After(machines, Begin(first), events).begun[id]);
  }
}
