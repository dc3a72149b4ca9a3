/** Issuing HD key indices (secrets.rs): concurrent `issue` calls over a store that reads, then writes;
    and the counter file behind it in the CLI (main.rs). */
module KeyIndex {
  import opened Wrappers
  import opened Decimal

  type TaskId = nat

  // ----- the counter as text -----

  /** Unicode white space, which `trim` strips. */
  predicate IsSpace(c: char) {
    || '\t' <= c <= '\r' || c == ' '
    || c in {'\U{85}', '\U{A0}', '\U{1680}', '\U{2028}', '\U{2029}', '\U{202F}', '\U{205F}', '\U{3000}'}
    || '\U{2000}' <= c <= '\U{200A}'
  }

  function Trim(s: string): string {
    if s == "" then s
    else if IsSpace(s[0]) then Trim(s[1..])
    else if IsSpace(s[|s| - 1]) then Trim(s[..|s| - 1])
    else s
  }

  /** A missing file is index zero; unreadable text is an error. */
  function ReadIndex(file: Option<string>): Option<nat> {
    if file.None? then Some(0) else ParseUnsigned(Trim(file.value), U32_MAX)
  }

  lemma WrittenReadsBack(n: nat)
    requires n <= U32_MAX
    ensures ReadIndex(Some(ToDecimal(n))) == Some(n)
  {
    var s := ToDecimal(n);
    assert IsDigit(s[0]) && IsDigit(s[|s| - 1]);
    ParsePrinted(n, U32_MAX);
  }

  ghost predicate AllSpace(s: string) {
    forall i | 0 <= i < |s| :: IsSpace(s[i])
  }

  lemma {:induction false} TrimKeeps(before: string, text: string, after: string)
    requires AllSpace(before) && AllSpace(after) && text != "" && !IsSpace(text[0]) && !IsSpace(text[|text| - 1])
    ensures Trim(before + text + after) == text
    decreases |before| + |after|
  {
    var s := before + text + after;
    if before != "" {
      assert s[1..] == before[1..] + text + after && s[0] == before[0];
      TrimKeeps(before[1..], text, after);
    } else if after != "" {
      assert s[0] == text[0] && s[|s| - 1] == after[|after| - 1];
      assert s[..|s| - 1] == before + text + after[..|after| - 1];
      TrimKeeps(before, text, after[..|after| - 1]);
    } else {
      assert s == text;
    }
  }

  /** A missing file starts at zero; white space around the number does not matter. */
  lemma IndexIsRead(n: nat, before: string, after: string)
    requires n <= 0xFFFF_FFFF && AllSpace(before) && AllSpace(after)
    ensures ReadIndex(None) == Some(0)
    ensures ReadIndex(Some(before + ToDecimal(n) + after)) == Some(n)
  {
    var s := ToDecimal(n);
    assert IsDigit(s[0]) && IsDigit(s[|s| - 1]);
    TrimKeeps(before, s, after);
    ParsePrinted(n, U32_MAX);
  }

  lemma {:induction false} ShorterIsSmaller(n: nat, k: nat)
    requires 0 < k < |ToDecimal(n)|
    ensures Value(ToDecimal(n)[..k]) <= n / 10
    decreases n
  {
    var front := ToDecimal(n / 10);
    if k < |front| {
      assert ToDecimal(n)[..k] == front[..k];
      ShorterIsSmaller(n / 10, k);
    } else {
      assert ToDecimal(n)[..k] == front;
      ToDecimalValue(n / 10);
    }
  }

  /** What the counter reads as when only `kept` characters of `n` were written. */
  function TornCounter(n: nat, kept: nat): Option<nat> {
    var digits := ToDecimal(n);
    ReadIndex(Some(if kept < |digits| then digits[..kept] else digits))
  }

  /** `fs::write` truncates and then writes, so it can leave a prefix of the new text: an empty one cannot
      be read, the whole one is the new counter, and any other reads as at most a tenth of it. */
  lemma TornWriteFallsBack(n: nat, kept: nat)
    requires 0 < n <= U32_MAX
    ensures var torn := TornCounter(n, kept);
            if kept == 0 then torn == None
            else if kept < |ToDecimal(n)| then torn.Some? && torn.value <= n / 10 < n
            else torn == Some(n)
  {
    var digits := ToDecimal(n);
    if 0 < kept < |digits| {
      var s := digits[..kept];
      assert IsDigit(s[0]) && IsDigit(s[kept - 1]);
      ShorterIsSmaller(n, kept);
      ParseDigitsOnly(s, U32_MAX);
    } else if kept > 0 {
      WrittenReadsBack(n);
    }
  }

  // ----- concurrent calls -----

  /** Where an `issue` call is while it holds `index_lock`. */
  datatype Phase =
    | Locked
    | HasRead(seen: nat)
    | Written(index: nat)

  /** `counter` survives the process, and is absent while it cannot be read; `issued` is every index any
      process ever handed out, in order. */
  datatype State = State(counter: Option<nat>, lock: Option<TaskId>, tasks: map<TaskId, Phase>, issued: seq<nat>)

  /** What a write to the store does: all but `Done` report an error or die with the process. */
  datatype Write = Done | Lost | Landed | Torn(kept: nat)

  datatype Step =
    | TakeLock(t: TaskId)
    | Read(t: TaskId, ok: bool)
    | WriteBack(t: TaskId, write: Write)
    | Return(t: TaskId)
    | Cancel(t: TaskId)
    | Crash

  function Start(counter: nat): State {
    State(Some(counter), None, map[], [])
  }

  /** The call ends and its guard is dropped. */
  function Leave(s: State, t: TaskId): State {
    s.(tasks := s.tasks - {t}, lock := if s.lock == Some(t) then None else s.lock)
  }

  /** One step; a step that is not possible in `s` changes nothing. With `guarded` false a call does not
      wait for the lock. */
  function Apply(s: State, step: Step, guarded: bool): State {
    match step
    case TakeLock(t) =>
      if t in s.tasks || (guarded && s.lock.Some?) then s
      else s.(lock := Some(t), tasks := s.tasks[t := Locked])
    case Read(t, ok) =>
      if t !in s.tasks || !s.tasks[t].Locked? then s
      else if ok && s.counter.Some? then s.(tasks := s.tasks[t := HasRead(s.counter.value)])
      else Leave(s, t)
    case WriteBack(t, write) =>
      if t !in s.tasks || !s.tasks[t].HasRead? then s
      else
        var seen := s.tasks[t].seen;
        if seen + 1 > U32_MAX then Leave(s, t)
        else if write.Done? then s.(counter := Some(seen + 1), tasks := s.tasks[t := Written(seen)])
        else if write.Landed? then Leave(s.(counter := Some(seen + 1)), t)
        else if write.Torn? then Leave(s.(counter := TornCounter(seen + 1, write.kept)), t)
        else Leave(s, t)
    case Return(t) =>
      if t !in s.tasks || !s.tasks[t].Written? then s
      else Leave(s.(issued := s.issued + [s.tasks[t].index]), t)
    case Cancel(t) => if t in s.tasks then Leave(s, t) else s
    case Crash => s.(lock := None, tasks := map[])
  }

  function Execute(s: State, steps: seq<Step>, guarded: bool): State
    decreases |steps|
  {
    if steps == [] then s
    else Apply(Execute(s, steps[..|steps| - 1], guarded), steps[|steps| - 1], guarded)
  }

  ghost predicate Rising(issued: seq<nat>) {
    forall i, j | 0 <= i < j < |issued| :: issued[i] < issued[j]
  }

  ghost predicate AllBelow(issued: seq<nat>, counter: Option<nat>) {
    counter.Some? ==> forall i | 0 <= i < |issued| :: issued[i] < counter.value
  }

  ghost predicate Inv(first: nat, s: State) {
    && (s.counter.Some? ==> first <= s.counter.value <= U32_MAX)
    && (forall i | 0 <= i < |s.issued| :: first <= s.issued[i])
    && (forall t <- s.tasks :: s.lock == Some(t))
    && Rising(s.issued) && AllBelow(s.issued, s.counter)
    && (forall t <- s.tasks ::
          && (s.tasks[t].HasRead? ==> s.counter == Some(s.tasks[t].seen))
          && (s.tasks[t].Written? ==>
        && s.counter.Some? && first <= s.tasks[t].index < s.counter.value
                && forall i | 0 <= i < |s.issued| :: s.issued[i] < s.tasks[t].index))
  }

  /** A write that tears keeps nothing or everything of the new text. */
  predicate Whole(s: State, step: Step) {
    step.WriteBack? && step.write.Torn? && step.t in s.tasks && s.tasks[step.t].HasRead? ==>
      step.write.kept == 0 || step.write.kept >= |ToDecimal(s.tasks[step.t].seen + 1)|
  }

  predicate WholeRun(s: State, steps: seq<Step>)
    decreases |steps|
  {
    steps == [] ||
    (WholeRun(s, steps[..|steps| - 1]) && Whole(Execute(s, steps[..|steps| - 1], true), steps[|steps| - 1]))
  }

  lemma StepKeeps(first: nat, s: State, step: Step)
    requires Inv(first, s) && Whole(s, step)
    ensures Inv(first, Apply(s, step, true))
  {
    hide TornCounter, ToDecimal;
    if step.WriteBack? && step.write.Torn? && step.t in s.tasks && s.tasks[step.t].HasRead?
       && s.tasks[step.t].seen + 1 <= U32_MAX {
      TornWriteFallsBack(s.tasks[step.t].seen + 1, step.write.kept);
    }
  }

  lemma {:induction false} RunKeeps(first: nat, s: State, steps: seq<Step>)
    requires Inv(first, s) && WholeRun(s, steps)
    ensures Inv(first, Execute(s, steps, true))
    decreases |steps|
  {
    if steps != [] {
      hide Apply;
      RunKeeps(first, s, steps[..|steps| - 1]);
      StepKeeps(first, Execute(s, steps[..|steps| - 1], true), steps[|steps| - 1]);
    }
  }

  /** However many calls run, whatever they lose to cancellation, crashes, read errors and failed writes,
      as long as no write leaves part of its text: indices are handed out in strictly rising order, so
      no two are equal, and all of them stay below the persisted counter, which never wraps. */
  lemma IndicesNeverRepeat(first: nat, steps: seq<Step>)
    requires first <= U32_MAX && WholeRun(Start(first), steps)
    ensures var s := Execute(Start(first), steps, true);
            && Rising(s.issued) && AllBelow(s.issued, s.counter)
            && (forall i | 0 <= i < |s.issued| :: first <= s.issued[i])
            && (s.counter.Some? ==> s.counter.value <= U32_MAX)
  {
    RunKeeps(first, Start(first), steps);
  }

  predicate Smooth(step: Step) {
    !step.Cancel? && !step.Crash? && (step.WriteBack? ==> step.write.Done?)
  }

  ghost predicate Gapless(first: nat, s: State) {
    && s.counter.Some?
    && (forall i | 0 <= i < |s.issued| :: s.issued[i] == first + i)
    && (if s.lock.Some? then
          && s.lock.value in s.tasks
          && var phase := s.tasks[s.lock.value];
          && s.counter.value == first + |s.issued| + (if phase.Written? then 1 else 0)
          && (phase.Written? ==> phase.index == first + |s.issued|)
        else s.tasks == map[] && s.counter.value == first + |s.issued|)
  }

  lemma SmoothStepKeeps(first: nat, s: State, step: Step)
    requires Inv(first, s) && Gapless(first, s) && Smooth(step)
    ensures Gapless(first, Apply(s, step, true))
  {
  }

  /** Without losses no index is skipped either. */
  lemma {:induction false} SmoothRunsSkipNothing(first: nat, steps: seq<Step>)
    requires first <= U32_MAX && forall step <- steps :: Smooth(step)
    ensures Gapless(first, Execute(Start(first), steps, true)) && WholeRun(Start(first), steps)
    decreases |steps|
  {
    if steps != [] {
      var front := steps[..|steps| - 1];
      SmoothRunsSkipNothing(first, front);
      RunKeeps(first, Start(first), front);
      SmoothStepKeeps(first, Execute(Start(first), front, true), steps[|steps| - 1]);
    }
  }

  lemma Extend(before: seq<Step>, step: Step, guarded: bool)
    ensures Execute(Start(0), before + [step], guarded) == Apply(Execute(Start(0), before, guarded), step, guarded)
  {
    assert (before + [step])[..|before|] == before;
  }

  /** The lock is needed: without it, two calls that overlap on such a store get the same index. */
  lemma UnguardedCallsCollide()
    ensures exists steps :: Execute(Start(0), steps, false).issued == [0, 0]
  {
    var steps := [];
    Extend(steps, TakeLock(0), false);
    steps := steps + [TakeLock(0)];
    Extend(steps, TakeLock(1), false);
    steps := steps + [TakeLock(1)];
    Extend(steps, Read(0, true), false);
    steps := steps + [Read(0, true)];
    Extend(steps, Read(1, true), false);
    steps := steps + [Read(1, true)];
    Extend(steps, WriteBack(0, Done), false);
    steps := steps + [WriteBack(0, Done)];
    Extend(steps, WriteBack(1, Done), false);
    steps := steps + [WriteBack(1, Done)];
    Extend(steps, Return(0), false);
    steps := steps + [Return(0)];
    Extend(steps, Return(1), false);
    steps := steps + [Return(1)];
  }

  // ----- torn writes -----

  lemma {:induction false} ExecuteAppend(s: State, xs: seq<Step>, ys: seq<Step>)
    ensures Execute(s, xs + ys, true) == Execute(Execute(s, xs, true), ys, true)
    ensures WholeRun(s, xs + ys) <==> WholeRun(s, xs) && WholeRun(Execute(s, xs, true), ys)
    decreases |ys|
  {
    hide Apply, Whole;
    if ys == [] {
      assert xs + ys == xs;
    } else {
      assert (xs + ys)[..|xs + ys| - 1] == xs + ys[..|ys| - 1];
      ExecuteAppend(s, xs, ys[..|ys| - 1]);
    }
  }

  const ROUND: seq<Step> := [TakeLock(0), Read(0, true), WriteBack(0, Done), Return(0)]

  /** One undisturbed call. */
  lemma RoundIssues(s: State)
    requires s.tasks == map[] && s.lock.None? && s.counter.Some? && s.counter.value < U32_MAX
    ensures Execute(s, ROUND, true) == State(Some(s.counter.value + 1), None, map[], s.issued + [s.counter.value])
    ensures WholeRun(s, ROUND)
  {
    RoundStates(s);
    hide Apply, Whole;
    ExecuteNothing(s);
    var steps: seq<Step> := [];
    OneMore(s, steps, TakeLock(0));
    steps := steps + [TakeLock(0)];
    OneMore(s, steps, Read(0, true));
    steps := steps + [Read(0, true)];
    OneMore(s, steps, WriteBack(0, Done));
    steps := steps + [WriteBack(0, Done)];
    OneMore(s, steps, Return(0));
    assert steps + [Return(0)] == ROUND;
  }

  lemma RoundStates(s: State)
    requires s.tasks == map[] && s.lock.None? && s.counter.Some? && s.counter.value < U32_MAX
    ensures var s1 := Apply(s, TakeLock(0), true);
            var s2 := Apply(s1, Read(0, true), true);
            var s3 := Apply(s2, WriteBack(0, Done), true);
            && Apply(s3, Return(0), true)
               == State(Some(s.counter.value + 1), None, map[], s.issued + [s.counter.value])
            && Whole(s, TakeLock(0)) && Whole(s1, Read(0, true)) && Whole(s2, WriteBack(0, Done))
            && Whole(s3, Return(0))
  {
    hide TornCounter, ToDecimal;
    var n := s.counter.value;
    var s1 := State(Some(n), Some(0), map[0 := Locked], s.issued);
    assert Apply(s, TakeLock(0), true) == s1;
    var s2 := State(Some(n), Some(0), map[0 := HasRead(n)], s.issued);
    assert Apply(s1, Read(0, true), true) == s2;
    var s3 := State(Some(n + 1), Some(0), map[0 := Written(n)], s.issued);
    assert Apply(s2, WriteBack(0, Done), true) == s3;
    assert Apply(s3, Return(0), true).tasks == map[];
  }

  lemma OneMore(s: State, before: seq<Step>, step: Step)
    ensures Execute(s, before + [step], true) == Apply(Execute(s, before, true), step, true)
    ensures WholeRun(s, before + [step]) <==> WholeRun(s, before) && Whole(Execute(s, before, true), step)
  {
    assert (before + [step])[..|before|] == before;
  }

  function Rounds(n: nat): seq<Step> {
    if n == 0 then [] else Rounds(n - 1) + ROUND
  }

  function UpTo(first: nat, n: nat): (indices: seq<nat>)
    ensures |indices| == n
  {
    seq(n, i => first + i)
  }

  lemma {:induction false} RoundsIssue(s: State, n: nat)
    requires s.tasks == map[] && s.lock.None? && s.counter.Some? && s.counter.value + n <= U32_MAX
    ensures Execute(s, Rounds(n), true)
         == State(Some(s.counter.value + n), None, map[], s.issued + UpTo(s.counter.value, n))
    ensures WholeRun(s, Rounds(n))
  {
    hide Apply;
    if n == 0 {
      assert s.issued + UpTo(s.counter.value, 0) == s.issued;
    } else {
      RoundsIssue(s, n - 1);
      ExecuteAppend(s, Rounds(n - 1), ROUND);
      var s1 := Execute(s, Rounds(n - 1), true);
      RoundIssues(s1);
      assert UpTo(s.counter.value, n) == UpTo(s.counter.value, n - 1) + [s.counter.value + n - 1];
    }
  }

  ghost predicate Repeats(issued: seq<nat>) {
    exists i, j :: 0 <= i < j < |issued| && issued[i] == issued[j]
  }

  /** A torn write is harmless exactly when every index issued so far is below what is left of the
      counter, or nothing is; otherwise undisturbed calls alone go on to issue one of them again. */
  lemma TornWriteIsSafeExactly(s: State, t: TaskId, kept: nat)
    requires Inv(0, s) && t in s.tasks && s.tasks[t].HasRead? && s.tasks[t].seen < U32_MAX
    ensures var torn := Apply(s, WriteBack(t, Torn(kept)), true);
            (forall steps | WholeRun(torn, steps) :: !Repeats(Execute(torn, steps, true).issued))
            <==> AllBelow(s.issued, torn.counter)
  {
    hide TornCounter;
    var torn := Apply(s, WriteBack(t, Torn(kept)), true);
    TornWriteFallsBack(s.tasks[t].seen + 1, kept);
    if AllBelow(s.issued, torn.counter) {
      forall steps | WholeRun(torn, steps) ensures !Repeats(Execute(torn, steps, true).issued) {
        RunKeeps(0, torn, steps);
      }
    } else {
      TornRepeats(torn);
    }
  }

  lemma TornRepeats(torn: State)
    requires torn.tasks == map[] && torn.lock.None? && !AllBelow(torn.issued, torn.counter)
    requires AllBelow(torn.issued, Some(U32_MAX))
    ensures exists steps | WholeRun(torn, steps) :: Repeats(Execute(torn, steps, true).issued)
  {
    hide Apply, WholeRun, Execute;
    var i :| 0 <= i < |torn.issued| && torn.issued[i] >= torn.counter.value;
    var n := torn.issued[i] - torn.counter.value + 1;
    RoundsIssue(torn, n);
    var issued := Execute(torn, Rounds(n), true).issued;
    assert issued[i] == torn.issued[i] && issued[|torn.issued| + n - 1] == torn.issued[i];
    assert Repeats(issued);
  }

  /** Where every index below the counter was issued, that leaves only nothing or everything of the new
      text: any other tear makes an index repeat. */
  lemma PartialWriteRepeatsExactly(n: nat, kept: nat)
    requires n < U32_MAX
    ensures var before := Execute(Start(0), Rounds(n) + [TakeLock(0), Read(0, true)], true);
            var torn := Apply(before, WriteBack(0, Torn(kept)), true);
            (exists steps | WholeRun(torn, steps) :: Repeats(Execute(torn, steps, true).issued))
            <==> 0 < kept < |ToDecimal(n + 1)|
  {
    hide TornCounter, ToDecimal, Execute, WholeRun, Inv, Rounds, Repeats, AllBelow;
    var before := Execute(Start(0), Rounds(n) + [TakeLock(0), Read(0, true)], true);
    HalfCall(n);
    HalfCallIsOk(n);
    TornWriteIsSafeExactly(before, 0, kept);
    AllBelowTorn(n, kept);
    assert Apply(before, WriteBack(0, Torn(kept)), true).counter == TornCounter(n + 1, kept);
  }

  /** After `n` undisturbed calls, the next one has read the counter. */
  lemma HalfCall(n: nat)
    requires n < U32_MAX
    ensures Execute(Start(0), Rounds(n) + [TakeLock(0), Read(0, true)], true)
         == State(Some(n), Some(0), map[0 := HasRead(n)], UpTo(0, n))
  {
    hide Apply, Execute, WholeRun, Rounds, UpTo;
    RoundsIssue(Start(0), n);
    assert [] + UpTo(0, n) == UpTo(0, n);
    ExecuteAppend(Start(0), Rounds(n), [TakeLock(0), Read(0, true)]);
    CounterIsRead(n, UpTo(0, n));
  }

  lemma HalfCallIsOk(n: nat)
    requires n < U32_MAX
    ensures Inv(0, State(Some(n), Some(0), map[0 := HasRead(n)], UpTo(0, n)))
  {
  }

  lemma CounterIsRead(n: nat, issued: seq<nat>)
    ensures Execute(State(Some(n), None, map[], issued), [TakeLock(0), Read(0, true)], true)
         == State(Some(n), Some(0), map[0 := HasRead(n)], issued)
  {
    LockAndRead(State(Some(n), None, map[], issued));
    hide Execute, TornCounter;
    assert Apply(State(Some(n), None, map[], issued), TakeLock(0), true)
        == State(Some(n), Some(0), map[0 := Locked], issued);
  }

  lemma AllBelowTorn(n: nat, kept: nat)
    requires n < U32_MAX
    ensures AllBelow(UpTo(0, n), TornCounter(n + 1, kept)) <==> !(0 < kept < |ToDecimal(n + 1)|)
  {
    hide TornCounter;
    TornWriteFallsBack(n + 1, kept);
    if 0 < kept < |ToDecimal(n + 1)| {
      assert n + 1 >= 10;
      assert UpTo(0, n)[n - 1] == n - 1;
    }
  }

  lemma LockAndRead(s: State)
    ensures Execute(s, [TakeLock(0), Read(0, true)], true) == Apply(Apply(s, TakeLock(0), true), Read(0, true), true)
  {
    hide Apply;
    var steps := [TakeLock(0), Read(0, true)];
    assert steps[..1] == [TakeLock(0)] && [TakeLock(0)][..0] == [];
  }

  lemma ExecuteNothing(s: State)
    ensures Execute(s, [], true) == s && WholeRun(s, [])
  {
  }

  // ----- the CLI's counter file -----

  class FileBoltzStorage {
    var file: Option<string>

    constructor ()
      ensures file == None
    {
      file := None;
    }

    /** A full counter and an unreadable file are errors that leave the file alone; otherwise the index
        read is handed out and the file reads back as the next one. */
    method IncrementKeyIndex() returns (index: Option<nat>)
      modifies this
      ensures index == if ReadIndex(old(file)) == Some(U32_MAX) then None else ReadIndex(old(file))
      ensures index.Some? ==> ReadIndex(file) == Some(index.value + 1) && file == Some(ToDecimal(index.value + 1))
      ensures index.None? ==> file == old(file)
    {
      var current := ReadIndex(file);
      if current.None? || current.value + 1 > U32_MAX { return None; }
      file := Some(ToDecimal(current.value + 1));
      WrittenReadsBack(current.value + 1);
      index := current;
    }
  }
}
