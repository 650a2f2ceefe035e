/** The hub's burst fields and the methods that update them. */
module BurstHub {
  import opened Burst
  import opened Options

  class BurstBoard {
    var state: BurstState
    var holds: Holds
    const policy: Policy

    constructor (policy: Policy)
      ensures this.policy == policy && state == START.state && holds == map[]
    {
      this.policy, state, holds := policy, START.state, map[];
    }

    /** sweepBurstHoldsLocked. */
    method Sweep(now: int)
      modifies this`holds
      ensures holds == Swept(old(holds), now)
    {
      var ids := holds.Keys;
      while ids != {}
        invariant ids <= old(holds).Keys
        invariant holds == map id | id in old(holds) && (id in ids || !RunsOut(old(holds)[id], now)) :: old(holds)[id]
        decreases ids
      {
        var id :| id in ids;
        if RunsOut(holds[id], now) { holds := holds - {id}; }
        ids := ids - {id};
      }
    }

    /** markBurstHoldsLostLocked. */
    method MarkLost(target: string)
      modifies this`holds
      ensures holds == MarkedLost(old(holds), target)
    {
      var ids := holds.Keys;
      while ids != {}
        invariant ids <= old(holds).Keys && holds.Keys == old(holds).Keys
        invariant forall id | id in holds :: holds[id] == (if id in ids then old(holds)[id] else MarkedLost(old(holds), target)[id])
        decreases ids
      {
        var id :| id in ids;
        if holds[id].target == target && holds[id].status == Active {
          holds := holds[id := holds[id].(status := Lost)];
        }
        ids := ids - {id};
      }
    }

    /** holdsActiveLocked. */
    method HoldsActive(target: string, now: int) returns (active: bool)
      modifies this`holds
      ensures holds == Swept(old(holds), now) && active == ActiveFor(holds, target)
    {
      Sweep(now);
      var ids := holds.Keys;
      active := false;
      while ids != {} && !active
        invariant ids <= holds.Keys && holds == Swept(old(holds), now)
        invariant forall id | id in holds && id !in ids :: holds[id].target == target && holds[id].status == Active ==> active
        invariant active ==> ActiveFor(holds, target)
        decreases ids
      {
        var id :| id in ids;
        active := holds[id].target == target && holds[id].status == Active;
        ids := ids - {id};
      }
    }

    /** handleBurstRelease's transition. */
    method Release(id: HoldId) returns (found: bool)
      modifies this`holds
      ensures found <==> id in old(holds)
      ensures holds == if IsActive(old(holds), id) then old(holds)[id := old(holds)[id].(status := Released)] else old(holds)
    {
      found := id in holds;
      if found && holds[id].status == Active {
        holds := holds[id := holds[id].(status := Released)];
      }
    }

    /** observeBurstLocked. */
    method Observe(now: int, machine: string, l: Load) returns (d: Option<Phase>)
      modifies this`state, this`holds
      ensures var looked := machine == policy.target && !GoesUp(policy, old(state), machine, now, l);
        holds == (if looked then Swept(old(holds), now) else old(holds)) &&
        var held := ActiveFor(holds, machine);
        state == Observed(policy, old(state), machine, now, l, held) &&
        d == Decision(policy, old(state), machine, now, l, held)
    {
      if machine == policy.source {
        state := state.(sourceRuns := if Pressed(policy, l) then state.sourceRuns + 1 else 0);
        if state.sourceRuns >= policy.consecutive && Cooled(state.lastUp, now, policy.cooldown) {
          state := state.(lastUp := Some(now));
          return Some(Up);
        }
      }
      assert state == AfterSource(policy, old(state), machine, now, l);
      if machine == policy.target {
        d := ObserveTarget(now, l);
        return;
      }
      return None;
    }

    method ObserveTarget(now: int, l: Load) returns (d: Option<Phase>)
      modifies this`state, this`holds
      ensures holds == Swept(old(holds), now)
      ensures var held := ActiveFor(holds, policy.target);
        state == AfterTarget(policy, old(state), policy.target, now, l, held) &&
        d == if Sleeps(old(state), now, l, held) then Some(Down) else None
    {
      var held := HoldsActive(policy.target, now);
      if held {
        state := state.(idleRuns := 0, idleSince := None);
        return None;
      }
      var since := state.idleSince;
      if l.workers == 0 {
        if state.idleRuns == 0 { since := Some(now); }
        state := state.(idleRuns := state.idleRuns + 1, idleSince := since);
      } else {
        state := state.(idleRuns := 0, idleSince := None);
      }
      if l.workers == 0 && state.idleSince.Some? && now - state.idleSince.value >= policy.idle &&
         Cooled(state.lastDown, now, policy.cooldown) {
        state := state.(lastDown := Some(now));
        return Some(Down);
      }
      return None;
    }

    predicate Sleeps(s: BurstState, now: int, l: Load, held: bool) {
      var since := IdleSince(s, now, l, held);
      since.Some? && now - since.value >= policy.idle && Cooled(s.lastDown, now, policy.cooldown)
    }
  }
}
