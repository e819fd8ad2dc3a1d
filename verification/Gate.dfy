// Admission to speech-to-text: counters beside an asyncio.Semaphore (that of
// CPython 3.12).  A waiter that was granted a slot, or cancelled, stays in the
// semaphore's queue until its task runs again.
module Gate {
  import opened Wrappers

  // Granted: its future has a result.  Cancelled: its future was cancelled.
  // Revoked: granted, then its task was cancelled before it ran.
  datatype State = Pending | Granted | Cancelled | Revoked

  // checked: it was admitted under the queue limit
  datatype Waiter = Waiter(task: nat, ms: nat, checked: bool, state: State)

  datatype Gate = Gate(maxParallel: nat, queueMaxMs: nat,
                       value: nat, waiters: seq<Waiter>,          // the semaphore
                       running: nat, waiting: nat, waitingMs: nat, // the counters
                       inside: set<nat>)                           // tasks that hold a slot
  {
    predicate MustWait() { running + waiting >= maxParallel }

    // Semaphore.locked(): acquire would suspend.
    predicate Locked() { SemLocked(value, waiters) }
  }

  predicate SemLocked(value: nat, waiters: seq<Waiter>) {
    value == 0 || exists i :: 0 <= i < |waiters| && !waiters[i].state.Cancelled?
  }

  // ------------------------------------------------------------ sums over waiters

  function Total(ws: seq<Waiter>, f: Waiter -> nat): nat {
    if ws == [] then 0 else Total(ws[..|ws| - 1], f) + f(ws[|ws| - 1])
  }

  const ONE: Waiter -> nat := (w: Waiter) => 1
  const MS: Waiter -> nat := (w: Waiter) => w.ms
  const CHECKED_MS: Waiter -> nat := (w: Waiter) => if w.checked then w.ms else 0
  const HOLDS: Waiter -> nat := (w: Waiter) => if w.state.Granted? || w.state.Revoked? then 1 else 0
  const PENDING: Waiter -> nat := (w: Waiter) => if w.state.Pending? then 1 else 0
  const CANCELLED: Waiter -> nat := (w: Waiter) => if w.state.Cancelled? then 1 else 0

  lemma {:induction false} TotalConcat(a: seq<Waiter>, b: seq<Waiter>, f: Waiter -> nat)
    ensures Total(a + b, f) == Total(a, f) + Total(b, f)
  {
    if b == [] {
      assert a + b == a;
    } else {
      assert (a + b)[..|a + b| - 1] == a + b[..|b| - 1];
      TotalConcat(a, b[..|b| - 1], f);
    }
  }

  lemma TotalSplit(ws: seq<Waiter>, i: nat, f: Waiter -> nat)
    requires i < |ws|
    ensures Total(ws, f) == Total(ws[..i], f) + f(ws[i]) + Total(ws[i + 1..], f)
  {
    var one := [ws[i]];
    assert one[..0] == [];
    assert ws == ws[..i] + one + ws[i + 1..];
    TotalConcat(ws[..i] + one, ws[i + 1..], f);
    TotalConcat(ws[..i], one, f);
  }

  function Without(ws: seq<Waiter>, i: nat): seq<Waiter>
    requires i < |ws|
  {
    ws[..i] + ws[i + 1..]
  }

  lemma TotalWithout(ws: seq<Waiter>, i: nat, f: Waiter -> nat)
    requires i < |ws|
    ensures Total(Without(ws, i), f) == Total(ws, f) - f(ws[i])
  {
    TotalSplit(ws, i, f);
    TotalConcat(ws[..i], ws[i + 1..], f);
  }

  lemma TotalUpdate(ws: seq<Waiter>, i: nat, w: Waiter, f: Waiter -> nat)
    requires i < |ws|
    ensures Total(ws[i := w], f) == Total(ws, f) - f(ws[i]) + f(w)
  {
    TotalSplit(ws, i, f);
    TotalSplit(ws[i := w], i, f);
    assert ws[i := w][..i] == ws[..i] && ws[i := w][i + 1..] == ws[i + 1..];
  }

  lemma TotalAppend(ws: seq<Waiter>, w: Waiter, f: Waiter -> nat)
    ensures Total(ws + [w], f) == Total(ws, f) + f(w)
  {
    assert (ws + [w])[..|ws|] == ws;
  }

  lemma {:induction false} TotalZero(ws: seq<Waiter>, f: Waiter -> nat)
    ensures Total(ws, f) == 0 <==> forall i :: 0 <= i < |ws| ==> f(ws[i]) == 0
  {
    if ws != [] {
      TotalZero(ws[..|ws| - 1], f);
    }
  }

  lemma {:induction false} TotalOfOnes(ws: seq<Waiter>)
    ensures Total(ws, ONE) == |ws|
  {
    if ws != [] {
      TotalOfOnes(ws[..|ws| - 1]);
    }
  }

  lemma {:induction false} TotalLeq(ws: seq<Waiter>, f: Waiter -> nat, g: Waiter -> nat)
    requires forall w :: w in ws ==> f(w) <= g(w)
    ensures Total(ws, f) <= Total(ws, g)
  {
    if ws != [] {
      TotalLeq(ws[..|ws| - 1], f, g);
    }
  }

  // ------------------------------------------------------------ the semaphore

  // The first waiter whose future is not done, or the number of waiters.
  function FirstPending(ws: seq<Waiter>): (i: nat)
    ensures i <= |ws|
    ensures i < |ws| ==> ws[i].state.Pending?
    ensures forall k :: 0 <= k < i ==> !ws[k].state.Pending?
  {
    if ws == [] then 0
    else if ws[0].state.Pending? then 0
    else FirstPending(ws[1..]) + 1
  }

  // _wake_up_next
  function WakeOne(g: Gate): Gate {
    var i := FirstPending(g.waiters);
    if g.value == 0 || i == |g.waiters| then g
    else g.(value := g.value - 1, waiters := g.waiters[i := g.waiters[i].(state := Granted)])
  }

  // What a task does when it leaves acquire: wake as many as there are slots.
  function WakeAll(g: Gate): Gate
    decreases g.value
  {
    if g.value == 0 || FirstPending(g.waiters) == |g.waiters| then g else WakeAll(WakeOne(g))
  }

  // ------------------------------------------------------------ steps

  datatype Step =
    | Arrive(task: nat, ms: nat)
    | Resume(i: nat)  // a granted waiter runs
    | Cancel(i: nat)  // a waiter's task is cancelled
    | Unwind(i: nat)  // a cancelled waiter's task runs
    | Finish(task: nat)

  predicate Enabled(g: Gate, step: Step) {
    match step
    case Arrive(task, _) => task !in g.inside && forall i :: 0 <= i < |g.waiters| ==> g.waiters[i].task != task
    case Resume(i) => i < |g.waiters| && g.waiters[i].state.Granted?
    case Cancel(i) => i < |g.waiters| && (g.waiters[i].state.Pending? || g.waiters[i].state.Granted?)
    case Unwind(i) => i < |g.waiters| && (g.waiters[i].state.Cancelled? || g.waiters[i].state.Revoked?)
    case Finish(task) => task in g.inside
  }

  predicate Refused(g: Gate, ms: nat) {
    g.MustWait() && g.waitingMs + ms > g.queueMaxMs
  }

  // A waiter leaves the queue and the counters.
  function Leave(g: Gate, i: nat): Gate
    requires i < |g.waiters| && g.waiting > 0 && g.waitingMs >= g.waiters[i].ms
  {
    g.(waiters := Without(g.waiters, i), waiting := g.waiting - 1, waitingMs := g.waitingMs - g.waiters[i].ms)
  }

  function Do(g: Gate, step: Step): Gate
    requires Enabled(g, step) && Inv(g)
  {
    match step
    case Arrive(task, ms) =>
      if Refused(g, ms) then g
      else if !g.Locked() then g.(value := g.value - 1, running := g.running + 1, inside := g.inside + {task})
      else g.(waiters := g.waiters + [Waiter(task, ms, g.MustWait(), Pending)],
              waiting := g.waiting + 1, waitingMs := g.waitingMs + ms)
    case Resume(i) =>
      CountersCover(g, i);
      var w := WakeAll(Leave(g, i));
      w.(running := g.running + 1, inside := g.inside + {g.waiters[i].task})
    case Cancel(i) =>
      var w := g.waiters[i];
      g.(waiters := g.waiters[i := w.(state := if w.state.Pending? then Cancelled else Revoked)])
    case Unwind(i) =>
      CountersCover(g, i);
      var back := if g.waiters[i].state.Revoked? then 1 else 0;
      WakeAll(Leave(g, i).(value := g.value + back))
    case Finish(task) =>
      WakeOne(g.(running := g.running - 1, inside := g.inside - {task}, value := g.value + 1))
  }

  // ------------------------------------------------------------ invariant

  // The counters count, and no slot is lost or invented.
  ghost predicate Counted(g: Gate) {
    && g.running == |g.inside|
    && g.waiting == |g.waiters|
    && g.waitingMs == Total(g.waiters, MS)
    && g.value + g.running + Total(g.waiters, HOLDS) == g.maxParallel
    && Total(g.waiters, CHECKED_MS) <= g.queueMaxMs
  }

  // No task is in two places.
  ghost predicate Apart(g: Gate) {
    && (forall i :: 0 <= i < |g.waiters| ==> g.waiters[i].task !in g.inside)
    && (forall i, j :: 0 <= i < j < |g.waiters| ==> g.waiters[i].task != g.waiters[j].task)
  }

  // Slots are granted in order of arrival.
  ghost predicate Ordered(ws: seq<Waiter>) {
    forall i, j :: 0 <= i < j < |ws| ==>
      !(ws[i].state.Pending? && (ws[j].state.Granted? || ws[j].state.Revoked?))
  }

  // While a slot is free nobody waits for nothing: a task that will wake the
  // others is about to run.
  ghost predicate Awake(g: Gate) {
    g.value > 0 && Total(g.waiters, PENDING) > 0 ==> Total(g.waiters, HOLDS) > 0
  }

  ghost predicate Inv(g: Gate) {
    Counted(g) && Apart(g) && Ordered(g.waiters) && Awake(g)
  }

  lemma CountersCover(g: Gate, i: nat)
    requires Counted(g) && i < |g.waiters|
    ensures g.waiting > 0 && g.waitingMs >= g.waiters[i].ms
  {
    TotalSplit(g.waiters, i, MS);
  }

  lemma NonePending(ws: seq<Waiter>)
    ensures FirstPending(ws) == |ws| <==> Total(ws, PENDING) == 0
  {
    TotalZero(ws, PENDING);
  }

  lemma WakeOneKeeps(g: Gate)
    requires Counted(g) && Apart(g) && Ordered(g.waiters)
    ensures var g' := WakeOne(g);
      && Counted(g') && Apart(g') && Ordered(g'.waiters)
      && g' == g.(value := g'.value, waiters := g'.waiters)
      && (g.value > 0 && FirstPending(g.waiters) < |g.waiters| ==>
            g'.value == g.value - 1 && Total(g'.waiters, HOLDS) == Total(g.waiters, HOLDS) + 1)
  {
    hide Total, FirstPending;
    var i := FirstPending(g.waiters);
    if g.value > 0 && i < |g.waiters| {
      var w := g.waiters[i].(state := Granted);
      TotalUpdate(g.waiters, i, w, MS);
      TotalUpdate(g.waiters, i, w, CHECKED_MS);
      TotalUpdate(g.waiters, i, w, HOLDS);
    }
  }

  lemma {:induction false} WakeAllKeeps(g: Gate)
    requires Counted(g) && Apart(g) && Ordered(g.waiters)
    ensures var g' := WakeAll(g);
      && Counted(g') && Apart(g') && Ordered(g'.waiters) && Awake(g')
      && g' == g.(value := g'.value, waiters := g'.waiters)
    decreases g.value
  {
    NonePending(g.waiters);
    if g.value > 0 && FirstPending(g.waiters) < |g.waiters| {
      WakeOneKeeps(g);
      WakeAllKeeps(WakeOne(g));
    }
  }

  lemma LeaveKeeps(g: Gate, i: nat)
    requires Inv(g) && i < |g.waiters|
    ensures g.waiting > 0 && g.waitingMs >= g.waiters[i].ms
    ensures var g' := Leave(g, i); var ws := g'.waiters;
      && |ws| == |g.waiters| - 1 && Apart(g') && Ordered(ws)
      && Total(ws, MS) == g'.waitingMs
      && Total(ws, CHECKED_MS) <= g.queueMaxMs
      && Total(ws, HOLDS) == Total(g.waiters, HOLDS) - HOLDS(g.waiters[i])
      && (forall k :: 0 <= k < |ws| ==> ws[k].task != g.waiters[i].task)
  {
    hide Total;
    CountersCover(g, i);
    TotalWithout(g.waiters, i, MS);
    TotalWithout(g.waiters, i, CHECKED_MS);
    TotalWithout(g.waiters, i, HOLDS);
    var ws := Without(g.waiters, i);
    forall k | 0 <= k < |ws| ensures ws[k] == g.waiters[if k < i then k else k + 1] {
    }
  }

  // ------------------------------------------------------------ runs

  lemma ArriveKeeps(g: Gate, task: nat, ms: nat)
    requires Inv(g) && Enabled(g, Arrive(task, ms))
    ensures Inv(Do(g, Arrive(task, ms)))
  {
    LockedMeans(g);
    if !Refused(g, ms) && g.Locked() {
      QueueKeeps(g, Waiter(task, ms, g.MustWait(), Pending));
    }
  }

  lemma QueueKeeps(g: Gate, w: Waiter)
    requires Inv(g) && Enabled(g, Arrive(w.task, w.ms)) && !Refused(g, w.ms) && g.Locked()
    requires w.checked == g.MustWait() && w.state.Pending?
    ensures Inv(g.(waiters := g.waiters + [w], waiting := g.waiting + 1, waitingMs := g.waitingMs + w.ms))
  {
    LockedMeans(g);
    CheckedFits(g, w);
    hide Refused, Gate.Locked, Gate.MustWait, Total;
    TotalAppend(g.waiters, w, MS);
    TotalAppend(g.waiters, w, CHECKED_MS);
    TotalAppend(g.waiters, w, HOLDS);
  }

  // A checked waiter fits the limit together with everybody who waits.
  lemma CheckedFits(g: Gate, w: Waiter)
    requires Counted(g) && !Refused(g, w.ms) && w.checked == g.MustWait()
    ensures Total(g.waiters, CHECKED_MS) + CHECKED_MS(w) <= g.queueMaxMs
  {
    TotalLeq(g.waiters, CHECKED_MS, MS);
  }

  // acquire suspends exactly when no slot is free or one is promised to a
  // task that has not run yet.
  lemma LockedMeans(g: Gate)
    requires Awake(g)
    ensures g.Locked() <==> g.value == 0 || Total(g.waiters, HOLDS) > 0
    ensures g.value > 0 && Total(g.waiters, HOLDS) == 0 ==> Total(g.waiters, PENDING) == 0
  {
    TotalZero(g.waiters, HOLDS);
    TotalZero(g.waiters, PENDING);
  }

  lemma ResumeKeeps(g: Gate, i: nat)
    requires Inv(g) && Enabled(g, Resume(i))
    ensures Inv(Do(g, Resume(i)))
  {
    LeaveKeeps(g, i);
    var left := Leave(g, i);
    // the slot of the waiter that left is the one its task now holds
    var task := g.waiters[i].task;
    var in_ := left.(running := g.running + 1, inside := g.inside + {task});
    assert Counted(in_) && Apart(in_);
    WakeAllKeeps(in_);
    WakeAllFrame(left, left);
    WakeAllFrame(left, in_);
  }

  // Waking does not look at the counters.
  lemma {:induction false} WakeAllFrame(g: Gate, h: Gate)
    requires g.value == h.value && g.waiters == h.waiters
    ensures WakeAll(h) == h.(value := WakeAll(g).value, waiters := WakeAll(g).waiters)
    decreases g.value
  {
    if g.value > 0 && FirstPending(g.waiters) < |g.waiters| {
      WakeAllFrame(WakeOne(g), WakeOne(h));
    }
  }

  lemma CancelKeeps(g: Gate, i: nat)
    requires Inv(g) && Enabled(g, Cancel(i))
    ensures Inv(Do(g, Cancel(i)))
  {
    hide Total;
    var w := g.waiters[i];
    var w' := w.(state := if w.state.Pending? then Cancelled else Revoked);
    TotalUpdate(g.waiters, i, w', MS);
    TotalUpdate(g.waiters, i, w', CHECKED_MS);
    TotalUpdate(g.waiters, i, w', HOLDS);
    TotalUpdate(g.waiters, i, w', PENDING);
  }

  lemma UnwindKeeps(g: Gate, i: nat)
    requires Inv(g) && Enabled(g, Unwind(i))
    ensures Inv(Do(g, Unwind(i)))
  {
    hide Total, WakeAll, Without, Ordered;
    LeaveKeeps(g, i);
    var back := if g.waiters[i].state.Revoked? then 1 else 0;
    WakeAllKeeps(Leave(g, i).(value := g.value + back));
  }

  lemma FinishKeeps(g: Gate, task: nat)
    requires Inv(g) && Enabled(g, Finish(task))
    ensures Inv(Do(g, Finish(task)))
  {
    var freed := g.(running := g.running - 1, inside := g.inside - {task}, value := g.value + 1);
    assert Counted(freed) && Apart(freed);
    WakeOneKeeps(freed);
    NonePending(freed.waiters);
  }

  lemma StepKeeps(g: Gate, step: Step)
    requires Inv(g) && Enabled(g, step)
    ensures Inv(Do(g, step))
  {
    hide *;
    match step
    case Arrive(task, ms) => ArriveKeeps(g, task, ms);
    case Resume(i) => ResumeKeeps(g, i);
    case Cancel(i) => CancelKeeps(g, i);
    case Unwind(i) => UnwindKeeps(g, i);
    case Finish(task) => FinishKeeps(g, task);
  }

  function Start(maxParallel: nat, queueMaxMs: nat): Gate {
    Gate(maxParallel, queueMaxMs, maxParallel, [], 0, 0, 0, {})
  }

  // The gate after these steps, None if one was not possible.
  function Run(start: Gate, steps: seq<Step>): (r: Option<Gate>)
    requires Inv(start)
    ensures r.Some? ==> Inv(r.value)
  {
    if steps == [] then Some(start)
    else
      var g := Run(start, steps[..|steps| - 1]);
      var step := steps[|steps| - 1];
      if g.Some? && Enabled(g.value, step) then
        StepKeeps(g.value, step);
        Some(Do(g.value, step))
      else None
  }

  // ------------------------------------------------------------ main results

  // At most maxParallel requests run, the counters are exact, slots are
  // granted in order of arrival, and the audio of the waiters that were
  // admitted under the limit never exceeds it.
  lemma GateOfARun(maxParallel: nat, queueMaxMs: nat, steps: seq<Step>)
    requires Run(Start(maxParallel, queueMaxMs), steps).Some?
    ensures var g := Run(Start(maxParallel, queueMaxMs), steps).value;
      && |g.inside| <= g.maxParallel
      && g.running == |g.inside| && g.waiting == |g.waiters| && g.waitingMs == Total(g.waiters, MS)
      && g.value + |g.inside| + Total(g.waiters, HOLDS) == g.maxParallel
      && Total(g.waiters, CHECKED_MS) <= g.queueMaxMs
      && Ordered(g.waiters)
  {
  }

  // The admission check against the semaphore: it says "must wait" exactly
  // when acquire would suspend, except in two windows.  Either a slot is free
  // and promised to a task that has not run yet, and the check lets a request
  // through that has to wait; or nothing is promised, and as many cancelled
  // waiters are still counted as slots are free, and the check holds back a
  // request that could run.
  lemma CheckAgrees(g: Gate)
    requires Inv(g)
    ensures g.MustWait() <==> g.value <= Total(g.waiters, PENDING) + Total(g.waiters, CANCELLED)
    ensures (g.MustWait() <==> g.Locked()) <==> !(LetsThrough(g) || HoldsBack(g))
    ensures Total(g.waiters, HOLDS) == 0 && Total(g.waiters, CANCELLED) == 0 ==> (g.MustWait() <==> g.Locked())
  {
    Kinds(g.waiters);
    LockedMeans(g);
  }

  ghost predicate LetsThrough(g: Gate) {
    && Total(g.waiters, HOLDS) > 0
    && g.value > Total(g.waiters, PENDING) + Total(g.waiters, CANCELLED)
  }

  ghost predicate HoldsBack(g: Gate) {
    Total(g.waiters, HOLDS) == 0 && 0 < g.value <= Total(g.waiters, CANCELLED)
  }

  lemma {:induction false} Kinds(ws: seq<Waiter>)
    ensures |ws| == Total(ws, PENDING) + Total(ws, HOLDS) + Total(ws, CANCELLED)
  {
    if ws != [] {
      Kinds(ws[..|ws| - 1]);
    }
  }

  // The windows are where the check and the semaphore differ, one each way.
  lemma Windows(g: Gate)
    requires Inv(g)
    ensures LetsThrough(g) <==> g.Locked() && !g.MustWait()
    ensures HoldsBack(g) <==> g.MustWait() && !g.Locked()
  {
    Kinds(g.waiters);
    LockedMeans(g);
  }

  // A request that could run is refused exactly when the second window is open
  // and its audio does not fit beside the audio that is counted as waiting; and
  // a request that comes to wait escaped the check exactly when the first is.
  lemma RefusalsAreJust(g: Gate, task: nat, ms: nat)
    requires Inv(g)
    ensures Refused(g, ms) && !g.Locked() <==> HoldsBack(g) && g.waitingMs + ms > g.queueMaxMs
    ensures Enabled(g, Arrive(task, ms)) ==>
      var g' := Do(g, Arrive(task, ms));
      |g'.waiters| > |g.waiters| ==> (g'.waiters[|g.waiters|].checked <==> !LetsThrough(g))
  {
    Windows(g);
  }

  // A request that arrives in the first window and does not fit.
  ghost predicate Overflows(g: Gate, step: Step) {
    step.Arrive? && LetsThrough(g) && g.waitingMs + step.ms > g.queueMaxMs
  }

  // The waiting audio comes to exceed the limit with such a request and with
  // no other step.
  lemma OverflowStep(g: Gate, step: Step)
    requires Inv(g) && Enabled(g, step) && g.waitingMs <= g.queueMaxMs
    ensures Do(g, step).waitingMs > g.queueMaxMs <==> Overflows(g, step)
  {
    match step
    case Arrive(task, ms) =>
      Windows(g);
      hide Inv, LetsThrough, HoldsBack, Gate.Locked, Gate.MustWait;
    case Resume(i) =>
      LeaveKeeps(g, i);
      WakeAllFrame(Leave(g, i), Leave(g, i));
    case Unwind(i) =>
      LeaveKeeps(g, i);
      var left := Leave(g, i).(value := g.value + if g.waiters[i].state.Revoked? then 1 else 0);
      WakeAllFrame(left, left);
    case _ =>
  }

  // The waiting audio is within the limit after each step of the run.
  ghost predicate LimitKept(start: Gate, steps: seq<Step>)
    requires Inv(start) && Run(start, steps).Some?
  {
    && Run(start, steps).value.waitingMs <= start.queueMaxMs
    && (steps != [] ==> LimitKept(start, steps[..|steps| - 1]))
  }

  // No request of the run arrives in the first window without fitting.
  ghost predicate NoneOverflows(start: Gate, steps: seq<Step>)
    requires Inv(start) && Run(start, steps).Some?
  {
    steps != [] ==>
      var front := steps[..|steps| - 1];
      NoneOverflows(start, front) && !Overflows(Run(start, front).value, steps[|steps| - 1])
  }

  // The limit is kept all through a run exactly when no request of the run
  // arrives in the first window without fitting.
  lemma {:induction false} LimitKeptExactly(start: Gate, steps: seq<Step>)
    requires Inv(start) && start.waitingMs <= start.queueMaxMs && Run(start, steps).Some?
    ensures Run(start, steps).value.queueMaxMs == start.queueMaxMs
    ensures LimitKept(start, steps) <==> NoneOverflows(start, steps)
  {
    hide Inv, Do, Overflows;
    if steps != [] {
      var front, last := steps[..|steps| - 1], steps[|steps| - 1];
      var g := Run(start, front).value;
      LimitKeptExactly(start, front);
      QueueMaxStays(g, last);
      if g.waitingMs <= g.queueMaxMs {
        OverflowStep(g, last);
      }
    }
  }

  lemma QueueMaxStays(g: Gate, step: Step)
    requires Inv(g) && Enabled(g, step)
    ensures Do(g, step).queueMaxMs == g.queueMaxMs
  {
    match step
    case Resume(i) =>
      LeaveKeeps(g, i);
      WakeAllFrame(Leave(g, i), Leave(g, i));
    case Unwind(i) =>
      LeaveKeeps(g, i);
      var left := Leave(g, i).(value := g.value + if g.waiters[i].state.Revoked? then 1 else 0);
      WakeAllFrame(left, left);
    case _ =>
  }

  lemma Then(start: Gate, steps: seq<Step>, g: Gate, step: Step)
    requires Inv(start) && Run(start, steps) == Some(g) && Enabled(g, step)
    ensures Run(start, steps + [step]) == Some(Do(g, step))
  {
    assert (steps + [step])[..|steps|] == steps;
  }

  // The steps of the two runs below, spelled out.
  lemma ArriveRuns(g: Gate, task: nat, ms: nat)
    requires Inv(g) && Enabled(g, Arrive(task, ms)) && g.waiters == [] && g.value > 0
    ensures Do(g, Arrive(task, ms)) == g.(value := g.value - 1, running := g.running + 1, inside := g.inside + {task})
  {
    CheckAgrees(g);
  }

  lemma ArriveWaits(g: Gate, task: nat, ms: nat)
    requires Inv(g) && Enabled(g, Arrive(task, ms)) && g.value == 0 && g.waitingMs + ms <= g.queueMaxMs
    ensures Do(g, Arrive(task, ms)) ==
      g.(waiters := g.waiters + [Waiter(task, ms, true, Pending)], waiting := g.waiting + 1, waitingMs := g.waitingMs + ms)
  {
    CheckAgrees(g);
  }

  lemma FinishGrants(g: Gate, task: nat, w: Waiter)
    requires Inv(g) && Enabled(g, Finish(task)) && g.value == 0 && g.waiters == [w]
    ensures Do(g, Finish(task)) ==
      if w.state.Pending? then
        g.(running := g.running - 1, inside := g.inside - {task}, waiters := [w.(state := Granted)])
      else g.(running := g.running - 1, inside := g.inside - {task}, value := 1)
  {
    assert FirstPending(g.waiters) == if w.state.Pending? then 0 else 1;
    assert g.waiters[0 := w.(state := Granted)] == [w.(state := Granted)];
  }

  lemma StartInv(maxParallel: nat, limit: nat)
    ensures Inv(Start(maxParallel, limit)) && Run(Start(maxParallel, limit), []) == Some(Start(maxParallel, limit))
  {
  }

  // Shorter audio is answered before the gate.
  const MIN_AUDIO_MS := 100

  // A run of two slots in which the first window opens, whatever the durations:
  // both requests finish before the waiter that was granted a slot runs.  The
  // next request is not checked, has to wait, and the waiting audio exceeds the
  // limit if the two do not fit together.
  lemma WindowLetsThrough(limit: nat, first: nat, second: nat, waiter: nat, last: nat) returns (steps: seq<Step>, g: Gate)
    requires first >= MIN_AUDIO_MS && second >= MIN_AUDIO_MS && last >= MIN_AUDIO_MS
    requires MIN_AUDIO_MS <= waiter <= limit && waiter + last > limit
    ensures Run(Start(2, limit), steps) == Some(g)
    ensures forall k :: 0 <= k < |steps| && steps[k].Arrive? ==> steps[k].ms in {first, second, waiter}
    ensures LetsThrough(g) && !g.MustWait() && g.Locked() && g.waitingMs <= limit
    ensures Enabled(g, Arrive(4, last))
    ensures Do(g, Arrive(4, last)).waitingMs > limit
  {
    hide Do, Run, Inv, LetsThrough, Total, Gate.Locked, Gate.MustWait;
    var s := Start(2, limit);
    StartInv(2, limit);
    ArriveRuns(s, 1, first);
    g, steps := Go(s, [], s, Arrive(1, first));
    ArriveRuns(g, 2, second);
    g, steps := Go(s, steps, g, Arrive(2, second));
    ArriveWaits(g, 3, waiter);
    g, steps := Go(s, steps, g, Arrive(3, waiter));
    FinishGrants(g, 1, Waiter(3, waiter, true, Pending));
    g, steps := Go(s, steps, g, Finish(1));
    FinishGrants(g, 2, Waiter(3, waiter, true, Granted));
    g, steps := Go(s, steps, g, Finish(2));
    assert g.inside == {};
    PromisedSlotIsLocked(limit, waiter, last);
  }

  function PromisedSlot(limit: nat, ms: nat): Gate {
    Gate(2, limit, 1, [Waiter(3, ms, true, Granted)], 0, 1, ms, {})
  }

  lemma PromisedSlotIsLocked(limit: nat, ms: nat, last: nat)
    requires ms + last > limit
    ensures var g := PromisedSlot(limit, ms);
      && LetsThrough(g) && !g.MustWait() && g.Locked()
      && Enabled(g, Arrive(4, last))
      && (Inv(g) ==> Do(g, Arrive(4, last)).waitingMs > limit)
  {
    var g := PromisedSlot(limit, ms);
    OneGranted(Waiter(3, ms, true, Granted));
    hide Total;
  }

  lemma OneGranted(w: Waiter)
    requires w.state.Granted?
    ensures Total([w], HOLDS) == 1
    ensures Total([w], PENDING) == 0
    ensures Total([w], CANCELLED) == 0
  {
    assert [w][..0] == [];
  }

  lemma Go(start: Gate, steps: seq<Step>, g: Gate, step: Step) returns (g': Gate, steps': seq<Step>)
    requires Inv(start) && Run(start, steps) == Some(g) && Enabled(g, step)
    ensures Inv(g') && g' == Do(g, step) && steps' == steps + [step] && Run(start, steps') == Some(g')
  {
    StepKeeps(g, step);
    Then(start, steps, g, step);
    g', steps' := Do(g, step), steps + [step];
  }

  lemma OneCancelled(w: Waiter)
    requires w.state.Cancelled?
    ensures Total([w], HOLDS) == 0 && Total([w], CANCELLED) == 1
  {
    assert [w][..0] == [];
  }

  // The second window, whatever the durations: the only waiter is cancelled,
  // and the running request finishes before the cancelled task runs.  The slot
  // is free and promised to nobody, but a request that does not fit beside the
  // cancelled one is refused.
  lemma WindowHoldsBack(limit: nat, first: nat, waiter: nat) returns (steps: seq<Step>, g: Gate)
    requires first >= MIN_AUDIO_MS && MIN_AUDIO_MS <= waiter <= limit
    ensures Run(Start(1, limit), steps) == Some(g)
    ensures forall k :: 0 <= k < |steps| && steps[k].Arrive? ==> steps[k].ms in {first, waiter}
    ensures HoldsBack(g) && g.MustWait() && !g.Locked()
    ensures forall ms :: waiter + ms > limit <==> Refused(g, ms)
  {
    var w := Waiter(2, waiter, true, Cancelled);
    OneCancelled(w);
    var s := Start(1, limit);
    StartInv(1, limit);
    ArriveRuns(s, 1, first);
    hide Run, Inv, Total;
    g, steps := Go(s, [], s, Arrive(1, first));
    ArriveWaits(g, 2, waiter);
    g, steps := Go(s, steps, g, Arrive(2, waiter));
    CancelFirst(g, w);
    hide Do, Refused, Gate.MustWait, Gate.Locked;
    g, steps := Go(s, steps, g, Cancel(0));
    FinishGrants(g, 1, w);
    g, steps := Go(s, steps, g, Finish(1));
    FreeSlotIsRefused(g, w);
  }

  lemma CancelFirst(g: Gate, w: Waiter)
    requires Inv(g) && w.state.Cancelled? && g.waiters == [w.(state := Pending)]
    ensures Enabled(g, Cancel(0)) && Do(g, Cancel(0)) == g.(waiters := [w])
  {
    assert g.waiters[0 := w] == [w];
  }

  lemma FreeSlotIsRefused(g: Gate, w: Waiter)
    requires g.waiters == [w] && w.state.Cancelled? && g.waitingMs == w.ms
    requires g.maxParallel == 1 == g.value == g.waiting && g.running == 0
    ensures HoldsBack(g) && g.MustWait() && !g.Locked()
    ensures forall ms :: w.ms + ms > g.queueMaxMs <==> Refused(g, ms)
  {
    OneCancelled(w);
  }

  // ------------------------------------------------------------ in place

  // The gate and its semaphore as fields that the tasks update.
  class SttGate {
    const maxParallel: nat
    const queueMaxMs: nat
    var value: nat
    var waiters: seq<Waiter>
    var running: nat
    var waiting: nat
    var waitingMs: nat
    var inside: set<nat>

    function State(): Gate
      reads this
    {
      Gate(maxParallel, queueMaxMs, value, waiters, running, waiting, waitingMs, inside)
    }

    constructor (maxParallel: nat, queueMaxMs: nat)
      ensures State() == Start(maxParallel, queueMaxMs) && Inv(State())
    {
      this.maxParallel, this.queueMaxMs := maxParallel, queueMaxMs;
      value, waiters := maxParallel, [];
      running, waiting, waitingMs, inside := 0, 0, 0, {};
    }

    // What Enter does, field by field.
    static lemma EnterStep(g: Gate, task: nat, ms: nat)
      requires Inv(g) && Enabled(g, Arrive(task, ms))
      ensures Refused(g, ms) <==> g.running + g.waiting >= g.maxParallel && g.waitingMs + ms > g.queueMaxMs
      ensures Do(g, Arrive(task, ms)) ==
        if g.running + g.waiting >= g.maxParallel && g.waitingMs + ms > g.queueMaxMs then g
        else if SemLocked(g.value, g.waiters) then
          g.(waiters := g.waiters + [Waiter(task, ms, g.running + g.waiting >= g.maxParallel, Pending)],
             waiting := g.waiting + 1, waitingMs := g.waitingMs + ms)
        else g.(value := g.value - 1, running := g.running + 1, inside := g.inside + {task})
    {
      hide Inv, SemLocked;
    }

    // A request enters slot(): refused, inside, or suspended in acquire.
    method Enter(task: nat, ms: nat) returns (busy: bool)
      requires Inv(State()) && Enabled(State(), Arrive(task, ms))
      modifies this
      ensures Inv(State()) && State() == Do(old(State()), Arrive(task, ms))
      ensures busy <==> Refused(old(State()), ms)
      ensures busy ==> State() == old(State())
    {
      hide Do, Inv, SemLocked, Refused, Enabled, Gate.MustWait, Gate.Locked;
      StepKeeps(State(), Arrive(task, ms));
      EnterStep(State(), task, ms);
      var mustWait := running + waiting >= maxParallel;
      if mustWait && waitingMs + ms > queueMaxMs {
        return true;
      }
      waiting, waitingMs := waiting + 1, waitingMs + ms;
      if SemLocked(value, waiters) {
        waiters := waiters + [Waiter(task, ms, mustWait, Pending)];
      } else {
        value, waiting, waitingMs := value - 1, waiting - 1, waitingMs - ms;
        running, inside := running + 1, inside + {task};
      }
      return false;
    }

    // What LeaveQueue does, field by field.
    static lemma LeaveQueueStep(g: Gate, i: nat)
      requires Inv(g) && i < |g.waiters| && !g.waiters[i].state.Pending?
      ensures g.waiting > 0 && g.waitingMs >= g.waiters[i].ms
      ensures var w := g.waiters[i];
        var woken := WakeAll(g.(waiters := Without(g.waiters, i), value := g.value + if w.state.Revoked? then 1 else 0));
        var left := woken.(waiting := g.waiting - 1, waitingMs := g.waitingMs - w.ms);
        && woken.waiting == g.waiting && woken.waitingMs == g.waitingMs && woken.running == g.running && woken.inside == g.inside
        && Do(g, if w.state.Granted? then Resume(i) else Unwind(i)) ==
             if w.state.Granted? then left.(running := g.running + 1, inside := g.inside + {w.task}) else left
    {
      CountersCover(g, i);
      var w := g.waiters[i];
      var g1 := g.(waiters := Without(g.waiters, i), value := g.value + if w.state.Revoked? then 1 else 0);
      WakeAllFrame(g1, g1);
      WakeAllFrame(g1, Leave(g, i).(value := g1.value));
      hide Inv, WakeAll, Without;
    }

    method WakeNext() returns (woken: bool)
      requires value > 0
      modifies this`value, this`waiters
      ensures State() == WakeOne(old(State()))
      ensures woken <==> FirstPending(old(waiters)) < |old(waiters)|
    {
      var i := FirstPending(waiters);
      if i == |waiters| {
        return false;
      }
      value := value - 1;
      waiters := waiters[i := waiters[i].(state := Granted)];
      return true;
    }

    method WakeOthers()
      modifies this`value, this`waiters
      ensures State() == WakeAll(old(State()))
    {
      while value > 0
        invariant WakeAll(State()) == WakeAll(old(State()))
        decreases value
      {
        var woken := WakeNext();
        if !woken {
          break;
        }
      }
    }

    // A waiter's task runs: it has its slot, or it was cancelled.
    method LeaveQueue(i: nat)
      requires Inv(State()) && i < |waiters| && !waiters[i].state.Pending?
      modifies this
      ensures var w := old(waiters)[i];
        && Inv(State())
        && State() == Do(old(State()), if w.state.Granted? then Resume(i) else Unwind(i))
    {
      hide Do, Inv, WakeAll, Without;
      var w := waiters[i];
      StepKeeps(State(), if w.state.Granted? then Resume(i) else Unwind(i));
      LeaveQueueStep(State(), i);
      waiters := Without(waiters, i);
      if w.state.Revoked? {
        value := value + 1;
      }
      WakeOthers();
      waiting := waiting - 1;
      waitingMs := waitingMs - w.ms;
      if w.state.Granted? {
        running := running + 1;
        inside := inside + {w.task};
      }
    }

    // The request leaves slot(): the slot is released.
    method Exit(task: nat)
      requires Inv(State()) && task in inside
      modifies this
      ensures Inv(State()) && State() == Do(old(State()), Finish(task))
    {
      StepKeeps(State(), Finish(task));
      running := running - 1;
      inside := inside - {task};
      value := value + 1;
      var woken := WakeNext();
    }
  }
}
