/** What the outside can observe of one execution of the claim executor. */
module ExecutorTrace {
  import opened Wrappers
  import opened Models
  import opened Chain
  import opened Ledger
  import opened Executor
  import opened Safety

  function New(s: State, r: State): seq<Obs>
    requires s.obs <= r.obs
  {
    r.obs[|s.obs|..]
  }

  function AttemptCount(trace: seq<Obs>): nat {
    if trace == [] then 0 else (if trace[0].Attempted? then 1 else 0) + AttemptCount(trace[1..])
  }

  lemma {:induction false} AttemptCountAppend(xs: seq<Obs>, ys: seq<Obs>)
    ensures AttemptCount(xs + ys) == AttemptCount(xs) + AttemptCount(ys)
  {
    if xs == [] { assert xs + ys == ys; }
    else {
      assert (xs + ys)[1..] == xs[1..] + ys;
      AttemptCountAppend(xs[1..], ys);
    }
  }

  predicate SawUnlocked(o: Obs) {
    o.LockSeen? && o.answer == Some(false)
  }

  predicate Acknowledged(o: Obs) {
    o.Submitted? && o.acknowledged
  }

  /** The attempt phase: every submission belongs to an attempt, every further attempt directly follows a
      lock read, and nothing follows an acknowledged submission or a lock read of false. */
  predicate TriesOk(trace: seq<Obs>, budget: nat) {
    && AttemptCount(trace) <= budget
    && (forall k :: 0 <= k < |trace| ==> !trace[k].MarginChecked?)
    && (forall k :: 0 <= k < |trace| && trace[k].Submitted? ==> 0 < k && trace[k - 1].Attempted?)
    && (forall k :: 0 < k < |trace| && trace[k].Attempted? ==> trace[k - 1].LockSeen?)
    && (forall k :: 0 <= k < |trace| && (SawUnlocked(trace[k]) || Acknowledged(trace[k])) ==> k == |trace| - 1)
  }

  lemma TriesAppend(xs: seq<Obs>, ys: seq<Obs>, m: nat, n: nat)
    requires TriesOk(xs, m) && TriesOk(ys, n)
    requires xs == [] || !(SawUnlocked(xs[|xs| - 1]) || Acknowledged(xs[|xs| - 1])) || ys == []
    requires xs == [] || ys == [] || ys[0].LockSeen? || xs[|xs| - 1].LockSeen?
    ensures TriesOk(xs + ys, m + n)
  {
    AttemptCountAppend(xs, ys);
  }

  lemma LookIsNoTry(seen: Obs)
    requires seen.LockSeen?
    ensures TriesOk([], 0) && TriesOk([seen], 0)
  {
  }

  lemma NoTries()
    ensures TriesOk([], 5)
  {
  }

  lemma TriesWiden(xs: seq<Obs>, m: nat, n: nat)
    requires TriesOk(xs, m) && m <= n
    ensures TriesOk(xs, n)
  {
  }

  /** Whether an acknowledged submission closed the trace, and hence how the attempts ended. */
  predicate EndsWith(o: ClaimOutcome, trace: seq<Obs>) {
    o.Won? || o == Lost(Unconfirmed) <==> trace != [] && Acknowledged(trace[|trace| - 1])
  }

  /** The phase goes on after this. */
  predicate StillOpen(trace: seq<Obs>) {
    trace != [] ==> !SawUnlocked(trace[|trace| - 1]) && !Acknowledged(trace[|trace| - 1])
  }

  /** An attempt, and the submission that follows it if one does. */
  lemma OneTry(t: nat, tail: seq<Obs>, o: ClaimOutcome)
    requires tail == [] || (|tail| == 1 && tail[0].Submitted?)
    requires EndsWith(o, tail)
    ensures var trace := [Attempted(t)] + tail;
            && TriesOk(trace, 1) && AttemptCount(trace) == 1 && EndsWith(o, trace)
            && (forall k :: 0 <= k < |trace| ==> !SawUnlocked(trace[k]))
    ensures TriesOk([], 1)
  {
    var trace := [Attempted(t)] + tail;
    assert trace[1..] == tail;
    assert AttemptCount(tail) == 0 by { if tail != [] { assert tail[1..] == []; } }
  }

  lemma SubmitTrace(env: Env, s: State)
    ensures var (o, r) := SubmitClaim(env, s);
            && s.obs <= r.obs && (r.alive ==> s.alive)
            && (New(s, r) == [] || (s.alive && |New(s, r)| == 1 && New(s, r)[0].Submitted?))
            && EndsWith(o, New(s, r)) && o != Lost(NotLocked)
  {
  }

  lemma TryClaimTrace(env: Env, s: State, skipDrift: bool)
    ensures var (o, r) := TryClaim(env, s, skipDrift);
            && s.obs <= r.obs && (r.alive ==> s.alive) && o != Lost(NotLocked)
            && TriesOk(New(s, r), 1) && EndsWith(o, New(s, r))
            && (s.alive ==> AttemptCount(New(s, r)) == 1)
            && (!o.Won? && o != Lost(Unconfirmed) ==> StillOpen(New(s, r)))
  {
    hide TriesOk, SubmitClaim, EndsWith, AttemptCount;
    var (o, r) := TryClaim(env, s, skipDrift);
    var s1 := Later(Observe(s, Attempted(s.now)));
    SubmitTrace(env, s1);
    NewAppend(s, s1, r);
    assert New(s, s1) == if s.alive then [Attempted(s.now)] else [];
    assert EndsWith(o, New(s1, r)) by { if r == s1 { NothingEnds(o); } }
    OneTry(s.now, New(s1, r), o);
    if !o.Won? && o != Lost(Unconfirmed) { UnendedIsOpen(o, New(s, r)); }
  }

  lemma UnendedIsOpen(o: ClaimOutcome, trace: seq<Obs>)
    requires !o.Won? && o != Lost(Unconfirmed) && EndsWith(o, trace)
    requires forall k :: 0 <= k < |trace| ==> !SawUnlocked(trace[k])
    ensures StillOpen(trace)
  {
  }

  lemma NothingEnds(o: ClaimOutcome)
    requires !o.Won? && o != Lost(Unconfirmed)
    ensures EndsWith(o, [])
  {
  }

  lemma NewAppend(s: State, m: State, r: State)
    requires s.obs <= m.obs <= r.obs
    ensures s.obs <= r.obs && New(s, r) == New(s, m) + New(m, r)
  {
  }

  /** Continuing a phase that is still open. */
  lemma Continue(s: State, m: State, r: State, o: ClaimOutcome, budget: nat)
    requires s.obs <= m.obs <= r.obs
    requires TriesOk(New(s, m), 1) && TriesOk(New(m, r), budget) && EndsWith(o, New(m, r))
    requires StillOpen(New(s, m))
    requires New(s, m) == [] || New(m, r) == [] || New(s, m)[|New(s, m)| - 1].LockSeen?
    ensures s.obs <= r.obs && TriesOk(New(s, r), budget + 1) && EndsWith(o, New(s, r))
  {
    NewAppend(s, m, r);
    TriesAppend(New(s, m), New(m, r), 1, budget);
    hide New, TriesOk;
  }

  /** One more lock read after an attempt that has not ended the phase. */
  lemma LookTrace(s: State, s1: State, seen: Obs, o: ClaimOutcome, budget: nat)
    requires !o.Won? && o != Lost(Unconfirmed)
    requires s.obs <= s1.obs && seen.LockSeen? && TriesOk(New(s, s1), budget)
    requires StillOpen(New(s, s1))
    ensures var s2 := Later(Observe(s1, seen));
            && s.obs <= s2.obs && TriesOk(New(s, s2), budget)
            && (s1.alive ==> New(s, s2) != [] && New(s, s2)[|New(s, s2)| - 1] == seen)
            && (!SawUnlocked(seen) ==> StillOpen(New(s, s2)))
            && EndsWith(o, New(s, s2))
  {
    hide TriesOk;
    var s2 := Later(Observe(s1, seen));
    var look := New(s1, s2);
    assert look == [] || look == [seen];
    LookIsNoTry(seen);
    TriesAppend(New(s, s1), look, budget, 0);
    NewAppend(s, s1, s2);
  }

  lemma {:induction false} DeadAttemptsAreSilent(env: Env, s: State, skipDrift: bool, attempt: nat)
    requires attempt < MAX_CLAIM_RETRIES && !s.alive
    ensures Attempts(env, s, skipDrift, attempt).1.obs == s.obs
    decreases MAX_CLAIM_RETRIES - attempt
  {
    var (o, s1) := TryClaim(env, s, skipDrift);
    if !(o.Won? || o.error.Drifted? || o.error.Unconfirmed?) && attempt + 1 < MAX_CLAIM_RETRIES {
      DeadAttemptsAreSilent(env, Later(Observe(s1, LockSeen(s1.now, LockRead(env, s1.now)))), skipDrift, attempt + 1);
    }
  }

  lemma {:induction false} AttemptsTrace(env: Env, s: State, skipDrift: bool, attempt: nat)
    requires attempt < MAX_CLAIM_RETRIES
    ensures var (o, r) := Attempts(env, s, skipDrift, attempt);
            && s.obs <= r.obs
            && TriesOk(New(s, r), MAX_CLAIM_RETRIES - attempt) && EndsWith(o, New(s, r)) && o != Lost(NotLocked)
    decreases MAX_CLAIM_RETRIES - attempt
  {
    hide TryClaim, TriesOk, LockRead, AttemptCount, EndsWith, StillOpen, Acknowledged;
    TryClaimTrace(env, s, skipDrift);
    var (o, s1) := TryClaim(env, s, skipDrift);
    TriesWiden(New(s, s1), 1, MAX_CLAIM_RETRIES - attempt);
    if !(o.Won? || o.error.Drifted? || o.error.Unconfirmed?) {
      var answer := LockRead(env, s1.now);
      var seen := LockSeen(s1.now, answer);
      LookTrace(s, s1, seen, o, 1);
      var s2 := Later(Observe(s1, seen));
      TriesWiden(New(s, s2), 1, MAX_CLAIM_RETRIES - attempt);
      if !(answer == Some(false) || attempt + 1 >= MAX_CLAIM_RETRIES) {
        AttemptsTrace(env, s2, skipDrift, attempt + 1);
        var r := Attempts(env, s2, skipDrift, attempt + 1).1;
        if !s2.alive { DeadAttemptsAreSilent(env, s2, skipDrift, attempt + 1); }
        Continue(s, s2, r, Attempts(env, s2, skipDrift, attempt + 1).0, MAX_CLAIM_RETRIES - attempt - 1);
      }
    }
  }

  /** `budget` attempts were made, or the lockup was seen gone. */
  predicate Exhausted(trace: seq<Obs>, budget: nat) {
    AttemptCount(trace) == budget || (trace != [] && SawUnlocked(trace[|trace| - 1]))
  }

  lemma ExhaustedLater(xs: seq<Obs>, seen: Obs, ys: seq<Obs>, budget: nat)
    requires AttemptCount(xs) == 1 && seen.LockSeen? && Exhausted(ys, budget)
    ensures Exhausted(xs + [seen] + ys, budget + 1)
  {
    NoTryInLook(xs, seen);
    AttemptCountAppend(xs + [seen], ys);
  }

  lemma ExhaustedNow(xs: seq<Obs>, seen: Obs, budget: nat)
    requires AttemptCount(xs) == 1 && seen.LockSeen? && (SawUnlocked(seen) || budget == 1)
    ensures Exhausted(xs + [seen], budget)
  {
    NoTryInLook(xs, seen);
  }

  /** The loop gives up no sooner: a rejection means that every attempt was made, or that the lockup was
      seen gone. */
  lemma {:induction false} RejectionIsEarned(env: Env, s: State, skipDrift: bool, attempt: nat)
    requires attempt < MAX_CLAIM_RETRIES
    ensures var (o, r) := Attempts(env, s, skipDrift, attempt);
            && s.obs <= r.obs && (r.alive ==> s.alive)
            && (r.alive && o == Lost(Rejected) ==> Exhausted(New(s, r), 5 - attempt))
    decreases MAX_CLAIM_RETRIES - attempt
  {
    hide TryClaim, TriesOk, LockRead, AttemptCount, EndsWith, Exhausted;
    TryClaimTrace(env, s, skipDrift);
    var (o, s1) := TryClaim(env, s, skipDrift);
    if !(o.Won? || o.error.Drifted? || o.error.Unconfirmed?) {
      var answer := LockRead(env, s1.now);
      var seen := LockSeen(s1.now, answer);
      var s2 := Later(Observe(s1, seen));
      NewAppend(s, s1, s2);
      if answer == Some(false) || attempt + 1 >= MAX_CLAIM_RETRIES {
        if s1.alive { ExhaustedNow(New(s, s1), seen, MAX_CLAIM_RETRIES - attempt); }
      } else {
        RejectionIsEarned(env, s2, skipDrift, attempt + 1);
        var (p, r) := Attempts(env, s2, skipDrift, attempt + 1);
        NewAppend(s, s2, r);
        if r.alive && p == Lost(Rejected) {
          ExhaustedLater(New(s, s1), seen, New(s2, r), MAX_CLAIM_RETRIES - attempt - 1);
        }
      }
    }
  }

  lemma NoTryInLook(before: seq<Obs>, seen: Obs)
    requires seen.LockSeen?
    ensures AttemptCount(before + [seen]) == AttemptCount(before)
  {
    AttemptCountAppend(before, [seen]);
    assert [seen][1..] == [];
  }

  // ----- a degraded quote -----

  ghost predicate NothingSubmitted(trace: seq<Obs>) {
    forall x <- trace :: !x.Submitted?
  }

  /** No attempt of the trace got as far as handing a transaction over. */
  ghost predicate NoneReady(env: Env, trace: seq<Obs>) {
    forall x <- trace :: x.Attempted? ==> !env.attempt(x.at).Ready?
  }

  lemma TryOrNothing(env: Env, s: State, skipDrift: bool)
    ensures var (o, r) := TryClaim(env, s, skipDrift);
            && s.obs <= r.obs && (r.alive ==> s.alive)
            && (r.alive && !skipDrift ==> (NothingSubmitted(New(s, r)) <==> !env.attempt(s.now).Ready?))
            && (s.alive ==> (NoneReady(env, New(s, r)) <==> !env.attempt(s.now).Ready?))
  {
    hide SubmitClaim, New, Observe, NothingSubmitted, NoneReady;
    var r := TryClaim(env, s, skipDrift).1;
    var s1 := Later(Observe(s, Attempted(s.now)));
    ObserveAdds(s, Attempted(s.now));
    SubmitTrace(env, s1);
    SubmissionShows(env, s1);
    NothingNew(s1);
    NewAppend(s, s1, r);
    AttemptShows(env, s.now);
    SubmissionIsTold(env, New(s1, r));
    JoinTraces(env, New(s, s1), New(s1, r));
  }

  lemma AttemptShows(env: Env, t: nat)
    ensures NothingSubmitted([Attempted(t)]) && (NoneReady(env, [Attempted(t)]) <==> !env.attempt(t).Ready?)
  {
    assert Attempted(t) in [Attempted(t)];
  }

  lemma SubmissionIsTold(env: Env, tail: seq<Obs>)
    requires tail == [] || (|tail| == 1 && tail[0].Submitted?)
    ensures NoneReady(env, tail) && (NothingSubmitted(tail) <==> tail == [])
  {
    if tail != [] { assert tail[0] in tail; }
  }

  lemma SubmissionShows(env: Env, s: State)
    ensures var r := SubmitClaim(env, s).1; s.obs <= r.obs && (r.alive ==> |New(s, r)| == 1 && New(s, r)[0].Submitted?)
  {
  }

  lemma {:induction false} DriftIsSilentExactly(env: Env, s: State, skipDrift: bool, attempt: nat)
    requires attempt < MAX_CLAIM_RETRIES
    ensures var (o, r) := Attempts(env, s, skipDrift, attempt);
            && s.obs <= r.obs && (r.alive ==> s.alive)
            && (r.alive && o == Lost(Drifted) ==> (NothingSubmitted(New(s, r)) <==> NoneReady(env, New(s, r))))
    decreases MAX_CLAIM_RETRIES - attempt
  {
    hide TryClaim, LockRead, NothingSubmitted, NoneReady;
    TryOrNothing(env, s, skipDrift);
    if skipDrift { AttemptsKeep(env, s, skipDrift, attempt); }
    var (o, s1) := TryClaim(env, s, skipDrift);
    if !(o.Won? || o.error.Drifted? || o.error.Unconfirmed?) {
      var answer := LockRead(env, s1.now);
      var seen := LockSeen(s1.now, answer);
      var s2 := Later(Observe(s1, seen));
      NewAppend(s, s1, s2);
      if s1.alive { AddsNothing(env, New(s, s1), [seen]); }
      if !(answer == Some(false) || attempt + 1 >= MAX_CLAIM_RETRIES) {
        DriftIsSilentExactly(env, s2, skipDrift, attempt + 1);
        var r := Attempts(env, s2, skipDrift, attempt + 1).1;
        NewAppend(s, s2, r);
        JoinTraces(env, New(s, s2), New(s2, r));
      }
    }
  }

  lemma AddsNothing(env: Env, xs: seq<Obs>, ys: seq<Obs>)
    requires forall y <- ys :: y.LockSeen? || y.MarginChecked?
    ensures NothingSubmitted(xs + ys) <==> NothingSubmitted(xs)
    ensures NoneReady(env, xs + ys) <==> NoneReady(env, xs)
  {
    JoinTraces(env, xs, ys);
  }

  lemma JoinTraces(env: Env, xs: seq<Obs>, ys: seq<Obs>)
    ensures NothingSubmitted(xs + ys) <==> NothingSubmitted(xs) && NothingSubmitted(ys)
    ensures NoneReady(env, xs + ys) <==> NoneReady(env, xs) && NoneReady(env, ys)
  {
    forall x <- xs ensures x in xs + ys {}
    forall y <- ys ensures y in xs + ys {}
  }

  /** A claim that ends on a degraded quote, in a process that lives, handed nothing over exactly when none
      of its attempts got that far: a retry can drift after a submission that was not acknowledged. */
  lemma DegradedIsSilentExactly(env: Env, s: State, timeoutHeight: nat, skipDrift: bool)
    ensures var (o, r) := ClaimAndSwap(env, s, timeoutHeight, skipDrift);
            && s.obs <= r.obs
            && (r.alive && o == Lost(Drifted) ==> (NothingSubmitted(New(s, r)) <==> NoneReady(env, New(s, r))))
  {
    hide VerifyLockup, Attempts, NothingSubmitted, NoneReady;
    VerifyTrace(env, s, LOCKUP_CHECK_MAX_ATTEMPTS);
    var (ok, s1) := VerifyLockup(env, s, LOCKUP_CHECK_MAX_ATTEMPTS);
    if ok && L1Read(env, s1.now).Some? {
      var margin := MarginChecked(s1.now, MarginOk(timeoutHeight, L1Read(env, s1.now).value));
      var s2 := Later(Observe(s1, margin));
      NewAppend(s, s1, s2);
      assert New(s1, s2) == [margin] || New(s1, s2) == [];
      if margin.enough && env.answers(s2.now) {
        DriftIsSilentExactly(env, Later(s2), skipDrift, 0);
        var r := Attempts(env, Later(s2), skipDrift, 0).1;
        NewAppend(s, s2, r);
        AddsNothing(env, [], New(s, s2));
        assert [] + New(s, s2) == New(s, s2);
        NothingInNothing(env);
        JoinTraces(env, New(s, s2), New(s2, r));
      }
    }
  }

  lemma NothingInNothing(env: Env)
    ensures NothingSubmitted([]) && NoneReady(env, [])
  {
  }

  /** A claim whose checks pass comes down to its attempts, three instants later. */
  lemma ChecksPass(env: Env, s: State, timeoutHeight: nat, skipDrift: bool)
    requires LockRead(env, s.now) == Some(true) && env.answers(s.now + 1) && env.answers(s.now + 2)
    requires env.world(s.now + 1).l1Height + 60 <= timeoutHeight
    ensures var looked := Observe(s, LockSeen(s.now, Some(true)));
            var checked := Observe(looked, MarginChecked(s.now + 1, true));
            ClaimAndSwap(env, s, timeoutHeight, skipDrift) == Attempts(env, At(checked, s.now + 3), skipDrift, 0)
  {
    hide Attempts;
    assert VerifyLockup(env, s, LOCKUP_CHECK_MAX_ATTEMPTS).0;
  }

  /** The checking phase: at most `left` lock reads, of which only the last can say locked, and it does
      exactly if the check succeeds; it gives up only when they are used up. */
  ghost predicate ChecksOk(env: Env, trace: seq<Obs>, left: nat, ok: bool) {
    && |trace| <= left
    && (forall k :: 0 <= k < |trace| ==> trace[k].LockSeen?)
    && (forall k :: 0 <= k < |trace| - 1 ==> trace[k].answer != Some(true))
    && (ok ==> |trace| > 0 && var last := trace[|trace| - 1]; last.answer == Some(true) && LockedAt(env, last.at))
    && (!ok ==> |trace| == left && (left > 0 ==> trace[left - 1].answer != Some(true)))
  }

  lemma OneMoreCheck(env: Env, first: Obs, rest: seq<Obs>, left: nat, ok: bool)
    requires first.LockSeen? && first.answer != Some(true) && ChecksOk(env, rest, left, ok)
    ensures ChecksOk(env, [first] + rest, left + 1, ok)
  {
  }

  lemma {:induction false} VerifyTrace(env: Env, s: State, left: nat)
    ensures var (ok, r) := VerifyLockup(env, s, left);
            && s.obs <= r.obs && r.alive == s.alive
            && (if s.alive then ChecksOk(env, New(s, r), left, ok) else New(s, r) == [])
    decreases left
  {
    hide ChecksOk, New, Observe;
    if left == 0 {
      NothingNew(s);
      NoCheckLeft(env);
    } else {
      var answer := LockRead(env, s.now);
      var seen := LockSeen(s.now, answer);
      var s1 := Later(Observe(s, seen));
      ObserveAdds(s, seen);
      if answer == Some(true) {
        LastCheck(env, seen, left);
      } else {
        VerifyTrace(env, s1, left - 1);
        var (ok, r) := VerifyLockup(env, s1, left - 1);
        NewAppend(s, s1, r);
        if s.alive { OneMoreCheck(env, seen, New(s1, r), left - 1, ok); }
      }
    }
  }

  lemma ObserveAdds(s: State, seen: Obs)
    ensures var r := Later(Observe(s, seen));
            && s.obs <= r.obs && r.alive == s.alive && r.now == s.now + 1
            && New(s, r) == if s.alive then [seen] else []
  {
  }

  lemma NothingNew(s: State)
    ensures New(s, s) == []
  {
  }

  lemma NoCheckLeft(env: Env)
    ensures ChecksOk(env, [], 0, false)
  {
  }

  lemma LastCheck(env: Env, seen: Obs, left: nat)
    requires left > 0 && seen.LockSeen? && seen.answer == Some(true) && LockedAt(env, seen.at)
    ensures ChecksOk(env, [seen], left, true)
  {
  }

  /** The whole execution, cut after its `v` lock checks: no submission without a lock read of true
      followed by a sufficient margin, both true of the chain when read; at most ten checks, five
      attempts and one acknowledged submission, after which nothing follows. */
  ghost predicate ClaimTraceOk(env: Env, timeoutHeight: nat, trace: seq<Obs>, v: nat) {
    && v <= 10 && v <= |trace|
    && (forall k :: 0 <= k < v ==> trace[k].LockSeen?)
    && (forall k :: 0 <= k < v - 1 ==> trace[k].answer != Some(true))
    && (|trace| > v ==>
          && v > 0 && trace[v - 1].answer == Some(true) && LockedAt(env, trace[v - 1].at)
          && trace[v].MarginChecked? && TriesOk(trace[v + 1..], 5))
    && (|trace| > v + 1 ==>
          trace[v].enough && env.world(trace[v].at).l1Height + 60 <= timeoutHeight)
  }

  lemma ClaimTrace(env: Env, s: State, timeoutHeight: nat, skipDrift: bool) returns (v: nat)
    requires s.alive
    ensures var (o, r) := ClaimAndSwap(env, s, timeoutHeight, skipDrift);
            && s.obs <= r.obs
            && ClaimTraceOk(env, timeoutHeight, New(s, r), v)
            && EndsWith(o, New(s, r))
            && (o == Lost(NotLocked) ==>
                  |New(s, r)| == v == 10 && New(s, r)[v - 1].answer != Some(true))
  {
    hide VerifyLockup, Attempts, TriesOk;
    VerifyTrace(env, s, LOCKUP_CHECK_MAX_ATTEMPTS);
    var (ok, s1) := VerifyLockup(env, s, LOCKUP_CHECK_MAX_ATTEMPTS);
    v := |New(s, s1)|;
    if ok && L1Read(env, s1.now).Some? {
      var enough := MarginOk(timeoutHeight, L1Read(env, s1.now).value);
      var margin := MarginChecked(s1.now, enough);
      var s2 := Later(Observe(s1, margin));
      assert New(s1, s2) == [margin];
      NewAppend(s, s1, s2);
      NoTries();
      assert New(s, s2)[v + 1..] == [];
      if enough && env.answers(s2.now) {
        AttemptsTrace(env, Later(s2), skipDrift, 0);
        var r := Attempts(env, Later(s2), skipDrift, 0).1;
        NewAppend(s, s2, r);
        assert New(s, r)[v + 1..] == New(s2, r);
      }
    }
  }

  /** Read off the shape: what comes before any submission, and what never comes after. */
  lemma SubmissionIsGuarded(env: Env, timeoutHeight: nat, trace: seq<Obs>, v: nat, k: nat)
    requires ClaimTraceOk(env, timeoutHeight, trace, v) && k < |trace| && trace[k].Submitted?
    ensures exists i, j :: 0 <= i < j < k && trace[i] == LockSeen(trace[i].at, Some(true))
                           && LockedAt(env, trace[i].at)
                           && trace[j] == MarginChecked(trace[j].at, true)
                           && env.world(trace[j].at).l1Height + 60 <= timeoutHeight
    ensures forall m :: v < m < k ==> !SawUnlocked(trace[m]) && !Acknowledged(trace[m])
  {
    assert trace[v].MarginChecked?;
    assert trace[v + 1..][k - v - 1] == trace[k];
    assert 0 <= v - 1 < v < k && trace[v - 1] == LockSeen(trace[v - 1].at, Some(true));
    forall m | v < m < k ensures !SawUnlocked(trace[m]) && !Acknowledged(trace[m]) {
      assert trace[v + 1..][m - v - 1] == trace[m];
    }
  }
}
