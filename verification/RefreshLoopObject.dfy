/** The refresh loop as the object its callbacks update. */
module RefreshLoopObject {
  import opened Common
  import opened Database
  import opened RefreshLoop

  class OrderRefreshLoop {
    var stopped: bool
    var timer: Option<Timer>
    var planFailures: nat
    var inFlight: bool
    var lastPlan: Option<nat>
    var refreshFailures: map<Group, Failure>
    ghost var requests: multiset<Call>

    ghost function State(): Loop
      reads this
    {
      Loop(stopped, timer, planFailures, inFlight, lastPlan, refreshFailures, requests)
    }

    ghost predicate Sound()
      reads this
    {
      RefreshLoop.Valid(State())
    }

    /** Starting the loop loads the first plan. */
    constructor (active: bool)
      ensures Sound() && State() == StartLoad(IDLE, active)
    {
      stopped, timer, planFailures, inFlight, lastPlan, refreshFailures, requests :=
        false, None, 0, false, None, map[], multiset{};
      new;
      LoadAndSchedule(active);
      assert Quiet(IDLE);
      StartLoadIsValid(IDLE, active);
    }

    method LoadAndSchedule(active: bool)
      modifies this`inFlight, this`requests
      ensures State() == StartLoad(old(State()), active)
    {
      if stopped || !active {
        return;
      }
      inFlight := true;
      requests := requests + multiset{Loading};
    }

    method Schedule(now: int, delay: int, pending: Pending, active: bool)
      modifies this`timer
      ensures State() == Arm(old(State()), now, delay, pending, active)
    {
      if stopped || !active {
        return;
      }
      timer := Some(Timer(now, now + Max(1000, delay), pending));
    }

    /** The loop over the groups of a plan. */
    method SchedulePlan(plan: Plan, receivedAt: int, now: int, active: bool)
      modifies this`timer
      ensures State() == RefreshLoop.SchedulePlan(old(State()), plan, receivedAt, now, active)
    {
      var next := if plan.submitting then Some(Reload(receivedAt + 2000)) else None;
      for i := 0 to |plan.groups|
        invariant next == Select(plan, i, receivedAt, refreshFailures)
      {
        var g := plan.groups[i];
        if g.target.None? || g.target.value == "" {
          continue;
        }
        if g.remaining.None? {
          continue;
        }
        var at := Max(receivedAt + Max(0, g.remaining.value),
                      if g.key in refreshFailures then refreshFailures[g.key].retryAt else 0);
        if next.None? || at < next.value.at {
          next := Some(Ask(at, g.key, g.target.value));
        }
      }
      if next.None? {
        return;
      }
      Schedule(now, next.value.at - now, Act(next.value), active);
    }

    method PlanArrived(plan: Plan, receivedAt: int, now: int, active: bool)
      requires Sound() && Possible(State(), Happening.PlanArrived(plan, receivedAt, now))
      modifies this
      ensures Sound() && State() == Next(old(State()), Happening.PlanArrived(plan, receivedAt, now), active)
    {
      StepKeepsValid(State(), Happening.PlanArrived(plan, receivedAt, now), active);
      hide RefreshLoop.Valid, RefreshLoop.SchedulePlan;
      requests := requests - multiset{Loading};
      if stopped || !active {
        return;
      }
      inFlight := false;
      lastPlan := Some(plan.page);
      planFailures := 0;
      SchedulePlan(plan, receivedAt, now, active);
    }

    method PlanFailed(now: int, active: bool)
      requires Sound() && Possible(State(), Happening.PlanFailed(now))
      modifies this
      ensures Sound() && State() == Next(old(State()), Happening.PlanFailed(now), active)
    {
      StepKeepsValid(State(), Happening.PlanFailed(now), active);
      hide RefreshLoop.Valid, RetryDelay;
      requests := requests - multiset{Loading};
      if stopped || !active {
        return;
      }
      inFlight := false;
      planFailures := planFailures + 1;
      Schedule(now, RetryDelay(planFailures), LoadPlan, active);
    }

    /** The catch block of a refresh, and the reload after it. */
    method HandleFailure(key: Group, onError: Callback, now: int, active: bool)
      modifies this
      ensures State() == AfterFailure(old(State()), key, onError, now, active)
    {
      hide RetryDelay;
      var attempts := (if key in refreshFailures then refreshFailures[key].attempts else 0) + 1;
      refreshFailures := refreshFailures[key := Failure(attempts, now + RetryDelay(attempts))];
      match onError {
        case Returns => LoadAndSchedule(active);
        case Throws =>
        case Stops => Halt();
      }
    }

    method Halt()
      modifies this`stopped, this`timer
      ensures State() == Halted(old(State()))
    {
      stopped := true;
      timer := None;
    }

    method RefreshArrived(key: Group, orderId: Id, observed: bool, onRefresh: Callback, onError: Callback, now: int,
                          active: bool)
      requires Sound() && Possible(State(), Happening.RefreshArrived(key, orderId, observed, onRefresh, onError, now))
      modifies this
      ensures Sound() && State()
              == Next(old(State()), Happening.RefreshArrived(key, orderId, observed, onRefresh, onError, now), active)
    {
      StepKeepsValid(State(), Happening.RefreshArrived(key, orderId, observed, onRefresh, onError, now), active);
      hide RefreshLoop.Valid, AfterFailure;
      requests := requests - multiset{Refreshing(key, orderId)};
      if stopped || !active {
        return;
      }
      if observed {
        refreshFailures := refreshFailures - {key};
        if onRefresh.Throws? {
          HandleFailure(key, onError, now, active);
          return;
        }
        if onRefresh.Stops? {
          Halt();
          return;
        }
      }
      LoadAndSchedule(active);
    }

    method RefreshFailed(key: Group, orderId: Id, onError: Callback, now: int, active: bool)
      requires Sound() && Possible(State(), Happening.RefreshFailed(key, orderId, onError, now))
      modifies this
      ensures Sound() && State() == Next(old(State()), Happening.RefreshFailed(key, orderId, onError, now), active)
    {
      StepKeepsValid(State(), Happening.RefreshFailed(key, orderId, onError, now), active);
      hide RefreshLoop.Valid, AfterFailure;
      requests := requests - multiset{Refreshing(key, orderId)};
      if stopped || !active {
        return;
      }
      HandleFailure(key, onError, now, active);
    }

    method TimerFired(now: int, active: bool)
      requires Sound() && Possible(State(), Happening.TimerFired(now))
      modifies this
      ensures Sound() && State() == Next(old(State()), Happening.TimerFired(now), active)
    {
      StepKeepsValid(State(), Happening.TimerFired(now), active);
      hide RefreshLoop.Valid;
      var fired := timer.value;
      timer := None;
      if stopped || !active {
        return;
      }
      match fired.pending {
        case LoadPlan => LoadAndSchedule(active);
        case Act(Reload(_)) => LoadAndSchedule(active);
        case Act(Ask(_, key, orderId)) =>
          inFlight := true;
          requests := requests + multiset{Refreshing(key, orderId)};
      }
    }

    method Wake(page: nat, active: bool)
      requires Sound()
      modifies this
      ensures Sound() && State() == Next(old(State()), Happening.Wake(page), active)
    {
      StepKeepsValid(State(), Happening.Wake(page), active);
      hide RefreshLoop.Valid;
      if stopped || !active || inFlight || lastPlan == Some(page) {
        return;
      }
      timer := None;
      LoadAndSchedule(active);
    }

    method Stop(active: bool)
      requires Sound()
      modifies this
      ensures Sound() && State() == Next(old(State()), Happening.Stop, active)
    {
      StepKeepsValid(State(), Happening.Stop, active);
      hide RefreshLoop.Valid;
      Halt();
    }
  }
}
