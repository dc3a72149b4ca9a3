/** The client's state for one swap, and the three effects a handler can have on it. */
module Ledger {
  import opened Wrappers
  import opened Models
  import opened Chain

  /** One remote interaction of the claim executor, as the outside sees it. */
  datatype Obs =
    | LockSeen(at: nat, answer: Option<bool>)
    | MarginChecked(at: nat, enough: bool)
    | Attempted(at: nat)
    | Submitted(at: nat, acknowledged: bool)

  /** A poll pass works from the record it listed and the L1 height it read after that. */
  datatype Snapshot = Snapshot(swap: Swap, l1: Option<nat>)

  /** `rec` is the persisted row; `now` counts the instants at which this swap's handlers touched the
      outside; `alive` turns false when the process dies inside a handler, or the handler's caller
      abandons it. */
  datatype State = State(
    rec: Swap,
    now: nat,
    alive: bool,
    events: seq<Event>,
    obs: seq<Obs>,
    acks: nat,
    polls: seq<Snapshot>)

  function At(s: State, t: nat): State {
    s.(now := t)
  }

  function Later(s: State): State {
    s.(now := s.now + 1)
  }

  /** The process may have died by now; a dead process has no further effect. */
  function Touch(env: Env, s: State): State {
    s.(alive := s.alive && env.lives(s.now))
  }

  /** What a pass that lists the row at `t` will work from; the height is read `delay` instants later,
      and only for a swap that is claiming with a hash. */
  function Listing(env: Env, t: nat, swap: Swap, delay: nat): Snapshot {
    Snapshot(swap, if swap.status.Claiming? && swap.claimTx.Some? then L1Read(env, t + delay) else None)
  }

  /** Passes list without the swap's lock, so a row is seen even if its handler writes on. */
  function Overheard(env: Env, t: nat, swap: Swap): seq<Snapshot> {
    var delays := env.listed(t);
    if swap.status.Terminal() then []
    else seq(|delays|, i requires 0 <= i < |delays| => Listing(env, t, swap, delays[i]))
  }

  /** `upsert_swap`: the whole row is overwritten. */
  function Put(env: Env, s: State, swap: Swap): State {
    var s1 := Touch(env, s).(now := s.now + 1);
    if s1.alive then s1.(rec := swap, polls := s1.polls + Overheard(env, s.now, swap)) else s1
  }

  function Emit(env: Env, s: State, event: Event): State {
    var s1 := Touch(env, s);
    s1.(events := if s1.alive then s1.events + [event] else s1.events, now := s1.now + 1)
  }

  function Observe(s: State, o: Obs): State {
    s.(obs := if s.alive then s.obs + [o] else s.obs)
  }

  /** `update_swap_status`: persist, then announce. */
  function UpdateStatus(env: Env, s: State, swap: Swap, status: Status): State {
    var updated := swap.(status := status);
    Emit(env, Put(env, s, updated), SwapUpdated(updated))
  }
}
