/** The dashboard's refresh loop: one timer, one request at a time, and a backoff for each group. Every
    callback is one step; `active` says whether the page still wants the loop during that step. */
module RefreshLoop {
  import opened Common
  import opened Database

  // ---------- Plans ----------

  /** A group of a plan: its target, and how long the server says to wait (None when that is not a number). */
  datatype PlanGroup = PlanGroup(key: Group, target: Option<Id>, remaining: Option<int>)

  /** `page` is the identity of the plan object. */
  datatype Plan = Plan(page: nat, submitting: bool, groups: seq<PlanGroup>)

  datatype NextAction = Reload(at: int) | Ask(at: int, key: Group, orderId: Id)

  datatype Failure = Failure(attempts: nat, retryAt: int)

  function Min(a: int, b: int): int {
    if a < b then a else b
  }

  function Power2(n: nat): nat {
    if n == 0 then 1 else 2 * Power2(n - 1)
  }

  function RetryDelay(attempts: nat): int
    requires attempts >= 1
  {
    Min(30_000, 2000 * Power2(Min(attempts - 1, 4)))
  }

  /** The backoff stays between two and thirty seconds and never shortens as failures add up. */
  lemma BackoffGrowsWithinBounds(a: nat, b: nat)
    requires 1 <= a <= b
    ensures 2000 <= RetryDelay(a) <= RetryDelay(b) <= 30_000
  {
    assert Power2(0) == 1 && Power2(1) == 2 && Power2(2) == 4 && Power2(3) == 8 && Power2(4) == 16;
  }

  function RetryAt(failures: map<Group, Failure>, key: Group): int {
    if key in failures then failures[key].retryAt else 0
  }

  predicate Askable(g: PlanGroup) {
    g.target.Some? && g.target.value != "" && g.remaining.Some?
  }

  /** As soon as the server's wait and the group's backoff are both over. */
  function AskTime(g: PlanGroup, receivedAt: int, failures: map<Group, Failure>): (at: int)
    requires Askable(g)
    ensures at >= receivedAt && at >= receivedAt + g.remaining.value
    ensures g.key in failures ==> at >= failures[g.key].retryAt
    ensures at == receivedAt || at == receivedAt + g.remaining.value || at == RetryAt(failures, g.key)
  {
    Max(receivedAt + Max(0, g.remaining.value), RetryAt(failures, g.key))
  }

  /** The earliest action; of several equally early ones the reload, then the first group. */
  function Select(p: Plan, count: nat, receivedAt: int, failures: map<Group, Failure>): (next: Option<NextAction>)
    requires count <= |p.groups|
  {
    if count == 0 then if p.submitting then Some(Reload(receivedAt + 2000)) else None
    else
      var next := Select(p, count - 1, receivedAt, failures);
      var g := p.groups[count - 1];
      if Askable(g) && (next.None? || AskTime(g, receivedAt, failures) < next.value.at)
      then Some(Ask(AskTime(g, receivedAt, failures), g.key, g.target.value)) else next
  }

  lemma {:induction false} SelectIsEarliest(p: Plan, count: nat, receivedAt: int, failures: map<Group, Failure>)
    requires count <= |p.groups|
    ensures var next := Select(p, count, receivedAt, failures);
            && (next.None? <==> !p.submitting && forall i :: 0 <= i < count ==> !Askable(p.groups[i]))
            && (p.submitting ==> next.value.at <= receivedAt + 2000)
            && (forall i :: 0 <= i < count && Askable(p.groups[i]) ==>
                next.value.at <= AskTime(p.groups[i], receivedAt, failures))
            && (next.Some? && next.value.Ask? ==>
                  && (p.submitting ==> next.value.at < receivedAt + 2000)
                  && exists i :: 0 <= i < count && Askable(p.groups[i])
                       && next.value == Ask(AskTime(p.groups[i], receivedAt, failures), p.groups[i].key,
                                            p.groups[i].target.value)
                       && forall j :: 0 <= j < i && Askable(p.groups[j]) ==>
                            next.value.at < AskTime(p.groups[j], receivedAt, failures))
            && (next.Some? && next.value.Reload? ==> p.submitting && next.value.at == receivedAt + 2000)
    decreases count
  {
    hide AskTime;
    if count > 0 {
      SelectIsEarliest(p, count - 1, receivedAt, failures);
    }
  }

  // ---------- The loop's state ----------

  datatype Pending = LoadPlan | Act(next: NextAction)
  datatype Timer = Timer(armedAt: int, due: int, pending: Pending)
  datatype Call = Loading | Refreshing(key: Group, orderId: Id)

  /** `requests` holds the requests sent and not answered yet. */
  datatype Loop = Loop(stopped: bool, timer: Option<Timer>, planFailures: nat, inFlight: bool, lastPlan: Option<nat>,
                       failures: map<Group, Failure>, requests: multiset<Call>)

  const IDLE := Loop(false, None, 0, false, None, map[], multiset{})

  /** How a caller's callback ends. */
  datatype Callback = Returns | Throws | Stops

  datatype Happening =
    | PlanArrived(plan: Plan, receivedAt: int, now: int)
    | PlanFailed(now: int)
    | RefreshArrived(key: Group, orderId: Id, observed: bool, onRefresh: Callback, onError: Callback, now: int)
    | RefreshFailed(key: Group, orderId: Id, onError: Callback, now: int)
    | TimerFired(now: int)
    | Wake(page: nat)
    | Stop

  predicate Done(l: Loop, active: bool) {
    l.stopped || !active
  }

  function StartLoad(l: Loop, active: bool): Loop {
    if Done(l, active) then l else l.(inFlight := true, requests := l.requests + multiset{Loading})
  }

  function Arm(l: Loop, now: int, delay: int, pending: Pending, active: bool): Loop {
    if Done(l, active) then l else l.(timer := Some(Timer(now, now + Max(1000, delay), pending)))
  }

  function SchedulePlan(l: Loop, plan: Plan, receivedAt: int, now: int, active: bool): Loop {
    var next := Select(plan, |plan.groups|, receivedAt, l.failures);
    if next.None? then l else Arm(l, now, next.value.at - now, Act(next.value), active)
  }

  function Halted(l: Loop): Loop {
    l.(stopped := true, timer := None)
  }

  function NoteFailure(l: Loop, key: Group, now: int): Loop {
    var attempts := (if key in l.failures then l.failures[key].attempts else 0) + 1;
    l.(failures := l.failures[key := Failure(attempts, now + RetryDelay(attempts))])
  }

  /** A failed refresh: note it, tell the caller, and reload the plan. */
  function AfterFailure(l: Loop, key: Group, onError: Callback, now: int, active: bool): Loop {
    var noted := NoteFailure(l, key, now);
    match onError
    case Returns => StartLoad(noted, active)
    case Throws => noted
    case Stops => Halted(noted)
  }

  /** Which steps can happen: answers come only to requests, and timers do not fire early. */
  predicate Possible(l: Loop, e: Happening) {
    match e
    case PlanArrived(_, receivedAt, now) => Loading in l.requests && receivedAt <= now
    case PlanFailed(_) => Loading in l.requests
    case RefreshArrived(key, orderId, _, _, _, _) => Refreshing(key, orderId) in l.requests
    case RefreshFailed(key, orderId, _, _) => Refreshing(key, orderId) in l.requests
    case TimerFired(now) => l.timer.Some? && l.timer.value.due <= now
    case Wake(_) => true
    case Stop => true
  }

  function Next(l: Loop, e: Happening, active: bool): Loop {
    match e
    case PlanArrived(plan, receivedAt, now) =>
      var answered := l.(requests := l.requests - multiset{Loading});
      if Done(l, active) then answered
      else SchedulePlan(answered.(inFlight := false, lastPlan := Some(plan.page), planFailures := 0), plan, receivedAt,
                        now, active)
    case PlanFailed(now) =>
      var answered := l.(requests := l.requests - multiset{Loading});
      if Done(l, active) then answered
      else Arm(answered.(inFlight := false, planFailures := l.planFailures + 1), now, RetryDelay(l.planFailures + 1),
               LoadPlan, active)
    case RefreshArrived(key, orderId, observed, onRefresh, onError, now) =>
      var answered := l.(requests := l.requests - multiset{Refreshing(key, orderId)});
      if Done(l, active) then answered
      else if !observed then StartLoad(answered, active)
      else
        var cleared := answered.(failures := l.failures - {key});
        (match onRefresh
         case Returns => StartLoad(cleared, active)
         case Throws => AfterFailure(cleared, key, onError, now, active)
         case Stops => Halted(cleared))
    case RefreshFailed(key, orderId, onError, now) =>
      var answered := l.(requests := l.requests - multiset{Refreshing(key, orderId)});
      if Done(l, active) then answered else AfterFailure(answered, key, onError, now, active)
    case TimerFired(_) =>
      if l.timer.None? then l
      else
        var fired := l.(timer := None);
        if Done(l, active) then fired
        else (match l.timer.value.pending
              case LoadPlan => StartLoad(fired, active)
              case Act(Reload(_)) => StartLoad(fired, active)
              case Act(Ask(_, key, orderId)) =>
                fired.(inFlight := true, requests := l.requests + multiset{Refreshing(key, orderId)}))
    case Wake(page) =>
      if Done(l, active) || l.inFlight || l.lastPlan == Some(page) then l else StartLoad(l.(timer := None), active)
    case Stop => Halted(l)
  }

  // ---------- What every state satisfies ----------

  predicate OnTime(t: Timer, failures: map<Group, Failure>) {
    && t.armedAt + 1000 <= t.due
    && (t.pending.Act? && t.pending.next.Ask? && t.pending.next.key in failures ==>
        failures[t.pending.next.key].retryAt <= t.due)
  }

  predicate Counted(failures: map<Group, Failure>) {
    forall key <- failures :: failures[key].attempts >= 1
  }

  /** One request at a time, and never one beside an armed timer; an armed timer waits at least a second
      and does not reach a failing group before its backoff ends. */
  predicate Valid(l: Loop) {
    && |l.requests| <= 1
    && (l.requests != multiset{} ==> l.inFlight && l.timer.None?)
    && (l.timer.Some? ==> !l.inFlight && OnTime(l.timer.value, l.failures))
    && Counted(l.failures)
  }

  /** No request is out and no timer is armed. */
  predicate Quiet(l: Loop) {
    l.requests == multiset{} && l.timer.None? && Counted(l.failures)
  }

  lemma QuietIsValid(l: Loop)
    requires Quiet(l)
    ensures Valid(l)
  {
  }

  lemma StartLoadIsValid(l: Loop, active: bool)
    requires Quiet(l)
    ensures Valid(StartLoad(l, active))
  {
    assert multiset{} + multiset{Loading} == multiset{Loading};
  }

  lemma ArmIsValid(l: Loop, now: int, delay: int, pending: Pending, active: bool)
    requires Quiet(l) && !l.inFlight
    requires pending.Act? && pending.next.Ask? ==> RetryAt(l.failures, pending.next.key) <= now + delay
    ensures Valid(Arm(l, now, delay, pending, active))
  {
  }

  lemma AfterFailureIsValid(l: Loop, key: Group, onError: Callback, now: int, active: bool)
    requires Quiet(l)
    ensures Valid(AfterFailure(l, key, onError, now, active))
  {
    hide StartLoad, RetryDelay;
    var noted := NoteFailure(l, key, now);
    assert Quiet(noted);
    StartLoadIsValid(noted, active);
    QuietIsValid(noted);
    QuietIsValid(Halted(noted));
  }

  /** The only request, once answered. */
  lemma AnsweredIsQuiet(l: Loop, r: Call)
    requires Valid(l) && r in l.requests
    ensures l.timer.None? && Quiet(l.(requests := l.requests - multiset{r}))
  {
    var rest := l.requests - multiset{r};
    assert l.requests == multiset{r} + rest;
    assert |l.requests| == 1 + |rest|;
  }

  lemma SelectRespectsBackoff(p: Plan, receivedAt: int, failures: map<Group, Failure>)
    ensures var next := Select(p, |p.groups|, receivedAt, failures);
            next.Some? && next.value.Ask? ==> RetryAt(failures, next.value.key) <= next.value.at
  {
    SelectIsEarliest(p, |p.groups|, receivedAt, failures);
  }

  lemma AnswerKeepsValid(l: Loop, e: Happening, active: bool)
    requires Valid(l) && Possible(l, e) && !e.TimerFired? && !e.Wake? && !e.Stop?
    ensures Valid(Next(l, e, active))
  {
    hide Select, RetryDelay, Valid, StartLoad, Arm, AfterFailure;
    var r := if e.PlanArrived? || e.PlanFailed? then Loading else Refreshing(e.key, e.orderId);
    AnsweredIsQuiet(l, r);
    var answered := l.(requests := l.requests - multiset{r});
    QuietIsValid(answered);
    if !Done(l, active) {
      match e
      case PlanArrived(plan, receivedAt, now) =>
        var ready := answered.(inFlight := false, lastPlan := Some(plan.page), planFailures := 0);
        SelectRespectsBackoff(plan, receivedAt, l.failures);
        var next := Select(plan, |plan.groups|, receivedAt, l.failures);
        QuietIsValid(ready);
        if next.Some? {
          ArmIsValid(ready, now, next.value.at - now, Act(next.value), active);
        }
      case PlanFailed(now) =>
        ArmIsValid(answered.(inFlight := false, planFailures := l.planFailures + 1), now,
                   RetryDelay(l.planFailures + 1), LoadPlan, active);
      case RefreshArrived(key, _, _, _, onError, now) =>
        var cleared := answered.(failures := l.failures - {key});
        assert Quiet(cleared);
        StartLoadIsValid(answered, active);
        StartLoadIsValid(cleared, active);
        AfterFailureIsValid(cleared, key, onError, now, active);
        QuietIsValid(Halted(cleared));
      case RefreshFailed(key, _, onError, now) => AfterFailureIsValid(answered, key, onError, now, active);
    }
  }

  lemma WithoutAnswerKeepsValid(l: Loop, e: Happening, active: bool)
    requires Valid(l) && Possible(l, e) && (e.TimerFired? || e.Wake? || e.Stop?)
    ensures Valid(Next(l, e, active))
  {
    hide StartLoad;
    if !l.inFlight {
      IdleIsQuiet(l);
      StartLoadIsValid(l.(timer := None), active);
    }
    if e.TimerFired? && l.timer.value.pending.Act? && l.timer.value.pending.next.Ask? {
      var r := Refreshing(l.timer.value.pending.next.key, l.timer.value.pending.next.orderId);
      assert l.requests + multiset{r} == multiset{r};
    }
  }

  /** Every possible step keeps the loop valid. */
  lemma StepKeepsValid(l: Loop, e: Happening, active: bool)
    requires Valid(l) && Possible(l, e)
    ensures Valid(Next(l, e, active))
  {
    if !e.TimerFired? && !e.Wake? && !e.Stop? {
      hide Next, Valid;
      AnswerKeepsValid(l, e, active);
    } else {
      WithoutAnswerKeepsValid(l, e, active);
    }
  }

  lemma IdleIsQuiet(l: Loop)
    requires Valid(l) && !l.inFlight
    ensures Quiet(l.(timer := None))
  {
  }

  // ---------- Runs ----------

  datatype Step = Step(event: Happening, active: bool)

  function TimeOf(e: Happening): Option<int> {
    match e
    case PlanArrived(_, _, now) => Some(now)
    case PlanFailed(now) => Some(now)
    case RefreshArrived(_, _, _, _, _, now) => Some(now)
    case RefreshFailed(_, _, _, now) => Some(now)
    case TimerFired(now) => Some(now)
    case _ => None
  }

  /** A run of one loop: the clock never goes back. */
  ghost predicate IsLoopRun(ls: seq<Loop>, steps: seq<Step>, active: bool) {
    && |ls| == |steps| + 1
    && ls[0] == StartLoad(IDLE, active)
    && (forall i :: 0 <= i < |steps| ==>
        Possible(ls[i], steps[i].event) && ls[i + 1] == Next(ls[i], steps[i].event, steps[i].active))
    && (forall i, j :: 0 <= i < j < |steps| && TimeOf(steps[i].event).Some? && TimeOf(steps[j].event).Some? ==>
          TimeOf(steps[i].event).value <= TimeOf(steps[j].event).value)
  }

  /** Single flight: at every moment of every run at most one request is out, none while a timer is
      armed, and every armed delay is at least a second. */
  lemma {:induction false} SingleFlight(ls: seq<Loop>, steps: seq<Step>, active: bool, n: nat)
    requires IsLoopRun(ls, steps, active) && n < |ls|
    ensures Valid(ls[n])
    ensures |ls[n].requests| <= 1 && !(ls[n].timer.Some? && ls[n].requests != multiset{})
    ensures ls[n].timer.Some? ==> ls[n].timer.value.due - ls[n].timer.value.armedAt >= 1000
    decreases n
  {
    hide Next, StartLoad, Possible, TimeOf;
    if n == 0 {
      assert Quiet(IDLE);
      StartLoadIsValid(IDLE, active);
    } else {
      SingleFlight(ls, steps, active, n - 1);
      StepKeepsValid(ls[n - 1], steps[n - 1].event, steps[n - 1].active);
    }
  }

  /** The step notes a failed refresh of key. */
  predicate FailsFor(l: Loop, s: Step, key: Group) {
    && !Done(l, s.active)
    && ((s.event.RefreshFailed? && s.event.key == key)
        || (s.event.RefreshArrived? && s.event.key == key && s.event.observed && s.event.onRefresh.Throws?))
  }

  /** The step asks the server to refresh key. */
  predicate AsksFor(l: Loop, s: Step, key: Group) {
    && !Done(l, s.active) && s.event.TimerFired? && l.timer.Some?
    && l.timer.value.pending.Act? && l.timer.value.pending.next.Ask? && l.timer.value.pending.next.key == key
  }

  /** key waits until `until`, and no request for it is out. */
  predicate Waits(l: Loop, key: Group, until: int) {
    key in l.failures && l.failures[key].retryAt >= until && NoneFor(l.requests, key)
  }

  predicate NoneFor(requests: multiset<Call>, key: Group) {
    forall r <- requests :: r.Refreshing? ==> r.key != key
  }

  lemma NoneForChanges(requests: multiset<Call>, key: Group, r: Call)
    requires NoneFor(requests, key)
    ensures NoneFor(requests - multiset{r}, key)
    ensures r.Loading? || r.key != key ==> NoneFor(requests + multiset{r}, key)
    ensures r in requests && r.Refreshing? ==> r.key != key
  {
  }

  lemma StartLoadWaits(l: Loop, active: bool, key: Group, until: int)
    requires Waits(l, key, until)
    ensures Waits(StartLoad(l, active), key, until)
  {
    NoneForChanges(l.requests, key, Loading);
    hide NoneFor;
  }

  lemma AfterFailureWaits(l: Loop, other: Group, onError: Callback, now: int, active: bool, key: Group, until: int)
    requires Waits(l, key, until) && other != key
    ensures Waits(AfterFailure(l, other, onError, now, active), key, until)
  {
    hide NoneFor, StartLoad, RetryDelay;
    StartLoadWaits(NoteFailure(l, other, now), active, key, until);
  }

  /** Answers to other requests leave a wait as it is. */
  lemma AnswerContinues(l: Loop, s: Step, key: Group, until: int)
    requires Possible(l, s.event) && Waits(l, key, until)
    requires !s.event.TimerFired? && !s.event.Wake? && !s.event.Stop?
    ensures Waits(Next(l, s.event, s.active), key, until)
  {
    hide NoneFor, RetryDelay, Select, StartLoad, AfterFailure;
    var e := s.event;
    var r := if e.PlanArrived? || e.PlanFailed? then Loading else Refreshing(e.key, e.orderId);
    NoneForChanges(l.requests, key, r);
    var answered := l.(requests := l.requests - multiset{r});
    assert Waits(answered, key, until);
    if e.RefreshArrived? {
      var cleared := answered.(failures := l.failures - {e.key});
      assert Waits(cleared, key, until);
      StartLoadWaits(answered, s.active, key, until);
      StartLoadWaits(cleared, s.active, key, until);
      AfterFailureWaits(cleared, e.key, e.onError, e.now, s.active, key, until);
    } else if e.RefreshFailed? {
      AfterFailureWaits(answered, e.key, e.onError, e.now, s.active, key, until);
    }
  }

  lemma FailureStartsWait(l: Loop, s: Step, key: Group)
    requires Valid(l) && Possible(l, s.event) && FailsFor(l, s, key)
    ensures var l' := Next(l, s.event, s.active);
            && key in l'.failures && l'.failures[key].attempts >= 1
            && l'.failures[key].retryAt == s.event.now + RetryDelay(l'.failures[key].attempts)
            && Waits(l', key, l'.failures[key].retryAt)
  {
    hide RetryDelay;
    AnsweredIsQuiet(l, Refreshing(key, s.event.orderId));
  }

  lemma WaitContinues(l: Loop, s: Step, key: Group, until: int)
    requires Valid(l) && Possible(l, s.event) && Waits(l, key, until)
    ensures Waits(Next(l, s.event, s.active), key, until) || (AsksFor(l, s, key) && until <= s.event.now)
    ensures AsksFor(l, s, key) ==> until <= s.event.now
  {
    hide NoneFor, StartLoad;
    if !s.event.TimerFired? && !s.event.Wake? && !s.event.Stop? {
      hide Next;
      AnswerContinues(l, s, key, until);
    } else {
      StartLoadWaits(l.(timer := None), s.active, key, until);
      if s.event.TimerFired? && l.timer.value.pending.Act? && l.timer.value.pending.next.Ask? {
        NoneForChanges(l.requests, key, Refreshing(l.timer.value.pending.next.key, l.timer.value.pending.next.orderId));
      }
    }
  }

  /** Somewhere between steps i and n the clock read `until` or more. */
  ghost predicate Passed(steps: seq<Step>, i: nat, n: nat, until: int)
    requires n <= |steps|
  {
    exists m | i < m < n :: TimeOf(steps[m].event).Some? && until <= TimeOf(steps[m].event).value
  }

  lemma {:induction false} WaitsOrPassed(ls: seq<Loop>, steps: seq<Step>, active: bool, i: nat, n: nat, key: Group)
    requires IsLoopRun(ls, steps, active) && i < n <= |steps| && FailsFor(ls[i], steps[i], key)
    ensures key in ls[i + 1].failures
    ensures var until := ls[i + 1].failures[key].retryAt; Waits(ls[n], key, until) || Passed(steps, i, n, until)
    decreases n
  {
    hide Next, StartLoad, Valid, Waits, AsksFor;
    SingleFlight(ls, steps, active, i);
    FailureStartsWait(ls[i], steps[i], key);
    var until := ls[i + 1].failures[key].retryAt;
    if n > i + 1 {
      WaitsOrPassed(ls, steps, active, i, n - 1, key);
      if Waits(ls[n - 1], key, until) {
        SingleFlight(ls, steps, active, n - 1);
        WaitContinues(ls[n - 1], steps[n - 1], key, until);
        if !Waits(ls[n], key, until) {
          AsksAreTimed(ls[n - 1], steps[n - 1], key);
          assert Passed(steps, i, n, until);
        }
      } else {
        var m :| i < m < n - 1 && TimeOf(steps[m].event).Some? && until <= TimeOf(steps[m].event).value;
      }
    }
  }

  lemma AsksAreTimed(l: Loop, s: Step, key: Group)
    requires AsksFor(l, s, key)
    ensures TimeOf(s.event) == Some(s.event.now)
  {
  }

  /** Backoff is honoured: after a failed refresh of a group, however many plans, wakes, timers and other
      refreshes come in between, the group is not asked again before its backoff time, which lies two to
      thirty seconds after the failure. */
  lemma NoAskBeforeBackoff(ls: seq<Loop>, steps: seq<Step>, active: bool, i: nat, j: nat, key: Group)
    requires IsLoopRun(ls, steps, active) && i < j < |steps|
    requires FailsFor(ls[i], steps[i], key) && AsksFor(ls[j], steps[j], key)
    ensures key in ls[i + 1].failures
    ensures steps[i].event.now + 2000 <= ls[i + 1].failures[key].retryAt <= steps[i].event.now + 30_000
    ensures ls[i + 1].failures[key].retryAt <= steps[j].event.now
  {
    hide Next, StartLoad, Valid, Waits, RetryDelay;
    SingleFlight(ls, steps, active, i);
    FailureStartsWait(ls[i], steps[i], key);
    var failure := ls[i + 1].failures[key];
    BackoffGrowsWithinBounds(failure.attempts, failure.attempts);
    WaitsOrPassed(ls, steps, active, i, j, key);
    AsksAreTimed(ls[j], steps[j], key);
    if Waits(ls[j], key, failure.retryAt) {
      SingleFlight(ls, steps, active, j);
      WaitContinues(ls[j], steps[j], key, failure.retryAt);
    } else {
      var m :| i < m < j && TimeOf(steps[m].event).Some? && failure.retryAt <= TimeOf(steps[m].event).value;
    }
  }

  // ---------- Backoff and progress ----------

  /** The backoff doubles: two, four, eight and sixteen seconds, then thirty. */
  lemma BackoffDoubles(n: nat)
    requires n >= 1
    ensures RetryDelay(1) == 2000 && RetryDelay(2) == 4000 && RetryDelay(3) == 8000 && RetryDelay(4) == 16_000
    ensures n <= 3 ==> RetryDelay(n + 1) == 2 * RetryDelay(n)
    ensures n >= 5 ==> RetryDelay(n) == 30_000
  {
    assert Power2(0) == 1 && Power2(1) == 2 && Power2(2) == 4 && Power2(3) == 8 && Power2(4) == 16;
  }

  /** Failures in a row of a group's refresh in the first n steps. A refresh that was observed ends the row,
      even when showing it then fails. */
  function Streak(ls: seq<Loop>, steps: seq<Step>, n: nat, key: Group): nat
    requires n <= |steps| < |ls|
  {
    if n == 0 then 0 else CountAfter(Streak(ls, steps, n - 1, key), ls[n - 1], steps[n - 1], key)
  }

  /** Failures in a row of loading the plan. */
  function PlanStreak(ls: seq<Loop>, steps: seq<Step>, n: nat): nat
    requires n <= |steps| < |ls|
  {
    if n == 0 then 0 else PlanCountAfter(PlanStreak(ls, steps, n - 1), ls[n - 1], steps[n - 1])
  }

  lemma StartLoadKeepsCounts(l: Loop, active: bool)
    ensures StartLoad(l, active).failures == l.failures && StartLoad(l, active).planFailures == l.planFailures
  {
  }

  lemma ArmKeepsCounts(l: Loop, now: int, delay: int, pending: Pending, active: bool)
    ensures var l' := Arm(l, now, delay, pending, active);
            l'.failures == l.failures && l'.planFailures == l.planFailures
  {
  }

  lemma AfterFailureCounts(l: Loop, key: Group, onError: Callback, now: int, active: bool)
    ensures var l' := AfterFailure(l, key, onError, now, active);
            && l'.planFailures == l.planFailures
            && l'.failures.Keys == l.failures.Keys + {key}
            && l'.failures[key].attempts == (if key in l.failures then l.failures[key].attempts else 0) + 1
            && forall other <- l.failures :: other != key ==> l'.failures[other] == l.failures[other]
  {
    hide StartLoad, RetryDelay;
    StartLoadKeepsCounts(NoteFailure(l, key, now), active);
  }

  function AttemptsFor(l: Loop, key: Group): nat {
    if key in l.failures then l.failures[key].attempts else 0
  }

  /** One step's effect on the count of a group. */
  function CountAfter(before: nat, l: Loop, s: Step, key: Group): nat {
    if Done(l, s.active) then before
    else if s.event.RefreshFailed? && s.event.key == key then before + 1
    else if s.event.RefreshArrived? && s.event.key == key && s.event.observed then
      (if s.event.onRefresh.Throws? then 1 else 0)
    else before
  }

  /** And on the count of the plan. */
  function PlanCountAfter(before: nat, l: Loop, s: Step): nat {
    if Done(l, s.active) then before
    else if s.event.PlanFailed? then before + 1
    else if s.event.PlanArrived? then 0
    else before
  }

  predicate Counts(l: Loop, s: Step, key: Group) {
    && AttemptsFor(Next(l, s.event, s.active), key) == CountAfter(AttemptsFor(l, key), l, s, key)
    && Next(l, s.event, s.active).planFailures == PlanCountAfter(l.planFailures, l, s)
  }

  lemma PlanStepCounts(l: Loop, s: Step, key: Group)
    requires s.event.PlanArrived? || s.event.PlanFailed?
    ensures Counts(l, s, key)
  {
    hide StartLoad, Arm, AfterFailure, Select, RetryDelay;
    var e, active := s.event, s.active;
    var answered := l.(requests := l.requests - multiset{Loading});
    match e
    case PlanArrived(plan, receivedAt, now) =>
      var ready := answered.(inFlight := false, lastPlan := Some(plan.page), planFailures := 0);
      var next := Select(plan, |plan.groups|, receivedAt, l.failures);
      if next.Some? {
        ArmKeepsCounts(ready, now, next.value.at - now, Act(next.value), active);
      }
    case PlanFailed(now) =>
      ArmKeepsCounts(answered.(inFlight := false, planFailures := l.planFailures + 1), now,
                     RetryDelay(l.planFailures + 1), LoadPlan, active);
  }

  lemma FailureStepCounts(l: Loop, other: Group, onError: Callback, now: int, active: bool, key: Group)
    ensures AttemptsFor(AfterFailure(l, other, onError, now, active), key)
            == AttemptsFor(l, key) + if other == key then 1 else 0
  {
    hide AfterFailure;
    AfterFailureCounts(l, other, onError, now, active);
  }

  lemma RefreshStepCounts(l: Loop, s: Step, key: Group)
    requires s.event.RefreshArrived? || s.event.RefreshFailed?
    ensures Counts(l, s, key)
  {
    hide StartLoad, AfterFailure;
    var e, active := s.event, s.active;
    var answered := l.(requests := l.requests - multiset{Refreshing(e.key, e.orderId)});
    var cleared := answered.(failures := l.failures - {e.key});
    StartLoadKeepsCounts(answered, active);
    StartLoadKeepsCounts(cleared, active);
    AfterFailureCounts(answered, e.key, e.onError, e.now, active);
    AfterFailureCounts(cleared, e.key, e.onError, e.now, active);
    FailureStepCounts(answered, e.key, e.onError, e.now, active, key);
    FailureStepCounts(cleared, e.key, e.onError, e.now, active, key);
    hide AttemptsFor;
    assert AttemptsFor(answered, key) == AttemptsFor(l, key) by { SameFailures(answered, l, key); }
    assert AttemptsFor(cleared, key) == if e.key
           == key then 0 else AttemptsFor(l, key) by { ClearedFailures(l, e.key, cleared, key); }
    SameFailures(StartLoad(answered, active), answered, key);
    SameFailures(StartLoad(cleared, active), cleared, key);
    SameFailures(Halted(cleared), cleared, key);
  }

  lemma SameFailures(a: Loop, b: Loop, key: Group)
    requires a.failures == b.failures
    ensures AttemptsFor(a, key) == AttemptsFor(b, key)
  {
  }

  lemma ClearedFailures(l: Loop, other: Group, cleared: Loop, key: Group)
    requires cleared.failures == l.failures - {other}
    ensures AttemptsFor(cleared, key) == if other == key then 0 else AttemptsFor(l, key)
  {
  }

  lemma OtherStepCounts(l: Loop, s: Step, key: Group)
    requires s.event.TimerFired? || s.event.Wake? || s.event.Stop?
    ensures Counts(l, s, key)
  {
    hide StartLoad;
    StartLoadKeepsCounts(l.(timer := None), s.active);
  }

  lemma StepCounts(l: Loop, s: Step, key: Group)
    ensures Counts(l, s, key)
  {
    hide Counts;
    if s.event.PlanArrived? || s.event.PlanFailed? {
      PlanStepCounts(l, s, key);
    } else if s.event.RefreshArrived? || s.event.RefreshFailed? {
      RefreshStepCounts(l, s, key);
    } else {
      OtherStepCounts(l, s, key);
    }
  }

  /** In every run failures in a row are counted one by one, for each group and for the plan. */
  lemma {:induction false} FailuresAreCounted(ls: seq<Loop>, steps: seq<Step>, active: bool, n: nat, key: Group)
    requires IsLoopRun(ls, steps, active) && n <= |steps|
    ensures AttemptsFor(ls[n], key) == Streak(ls, steps, n, key)
    ensures ls[n].planFailures == PlanStreak(ls, steps, n)
    decreases n
  {
    hide Next, Possible, StartLoad, AttemptsFor, TimeOf;
    if n == 0 {
      StartCounts(active, key);
    } else {
      FailuresAreCounted(ls, steps, active, n - 1, key);
      StepCounts(ls[n - 1], steps[n - 1], key);
    }
  }

  lemma StartCounts(active: bool, key: Group)
    ensures AttemptsFor(StartLoad(IDLE, active), key) == 0 && StartLoad(IDLE, active).planFailures == 0
  {
  }

  /** So the n-th failure in a row of loading the plan is followed by a wait of the n-th backoff, and the n-th of
      a group's refresh holds the group back for as long. */
  lemma FailuresWaitTheirTurn(ls: seq<Loop>, steps: seq<Step>, active: bool, i: nat, key: Group)
    requires IsLoopRun(ls, steps, active) && i < |steps| && !Done(ls[i], steps[i].active)
    ensures steps[i].event.PlanFailed? ==>
              var n, now := PlanStreak(ls, steps, i + 1), steps[i].event.now;
              n >= 1 && ls[i + 1].timer == Some(Timer(now, now + RetryDelay(n), LoadPlan))
    ensures FailsFor(ls[i], steps[i], key) ==>
              var n, now := Streak(ls, steps, i + 1, key), steps[i].event.now;
              n >= 1 && key in ls[i + 1].failures && ls[i + 1].failures[key].retryAt == now + RetryDelay(n)
  {
    hide StartLoad, RetryDelay, Valid, Waits, Streak, PlanStreak, Select;
    FailuresAreCounted(ls, steps, active, i + 1, key);
    SingleFlight(ls, steps, active, i);
    if steps[i].event.PlanFailed? {
      BackoffGrowsWithinBounds(ls[i].planFailures + 1, ls[i].planFailures + 1);
    }
    if FailsFor(ls[i], steps[i], key) {
      FailureStartsWait(ls[i], steps[i], key);
    }
  }

  /** Nothing will happen by itself any more: no request is out and no timer is armed. */
  predicate Idle(l: Loop) {
    l.requests == multiset{} && l.timer.None?
  }

  /** The plan asks for nothing. */
  predicate NothingToDo(p: Plan) {
    !p.submitting && forall g <- p.groups :: !Askable(g)
  }

  /** While the page wants it, the loop goes on: a step leaves it idle only when the plan asks for nothing, or the
      caller's own error callback throws or stops it. */
  lemma LoopGoesOn(l: Loop, e: Happening)
    requires Valid(l) && Possible(l, e) && !l.stopped && !Idle(l)
    ensures Idle(Next(l, e, true)) ==>
              || (e.PlanArrived? && NothingToDo(e.plan))
              || ((e.RefreshArrived? || e.RefreshFailed?) && e.onError != Returns)
              || (e.RefreshArrived? && e.onRefresh.Stops?)
              || e.Stop?
  {
    hide RetryDelay, AskTime, Select, OnTime, Counted;
    if e.PlanArrived? {
      SelectIsEarliest(e.plan, |e.plan.groups|, e.receivedAt, l.failures);
      if Select(e.plan, |e.plan.groups|, e.receivedAt, l.failures).None? {
        forall g <- e.plan.groups ensures !Askable(g) {
          var i :| 0 <= i < |e.plan.groups| && e.plan.groups[i] == g;
        }
      }
    }
  }

  /** A timer does what it was armed for, and a wake with another page loads the plan at once unless a request
      is out; the page the loop already knows changes nothing. */
  lemma TimersAndWakes(l: Loop, e: Happening)
    requires Valid(l) && Possible(l, e) && !l.stopped
    ensures e.TimerFired? ==>
              var l' := Next(l, e, true);
              && l'.timer.None?
              && l'.requests == match l.timer.value.pending
                                case Act(Ask(_, key, orderId)) => multiset{Refreshing(key, orderId)}
                                case _ => multiset{Loading}
    ensures e.PlanArrived? ==>
              var next := Select(e.plan, |e.plan.groups|, e.receivedAt, l.failures);
              Next(l, e, true).timer == if next.None? then None
                                        else Some(Timer(e.now, Max(e.now + 1000, next.value.at), Act(next.value)))
    ensures e.Wake? && !l.inFlight && l.lastPlan != Some(e.page) ==>
              Next(l, e, true).requests == multiset{Loading} && Next(l, e, true).timer.None?
    ensures e.Wake? && (l.inFlight || l.lastPlan == Some(e.page)) ==> Next(l, e, true) == l
  {
    hide OnTime, Counted, Select;
    assert l.requests == multiset{} ==> l.requests + multiset{Loading} == multiset{Loading};
    if e.TimerFired? && l.timer.value.pending.Act? && l.timer.value.pending.next.Ask? {
      var r := Refreshing(l.timer.value.pending.next.key, l.timer.value.pending.next.orderId);
      assert l.requests + multiset{r} == multiset{r};
    }
  }
}
