// The announcement clips: concurrent `get` calls for one clip share a lock
// from a table that the successful call empties again (asyncio.Lock as in
// CPython 3.12).  Retention may delete the clip at any time.
module TtsCache {
  import opened Wrappers

  // Woken: the waiter's future has a result.  Dropped: its future was
  // cancelled.  Doomed: woken, then its task was cancelled before it ran.
  datatype Mark = Idle | Woken | Doomed | Dropped
  datatype Waiter = Waiter(call: nat, mark: Mark)

  // `holder` is the call inside `async with`; `_locked` is holder.Some?.
  datatype Lock = Lock(holder: Option<nat>, queue: seq<Waiter>)

  // Where a call is suspended, or how it ended.  Stray: it was cancelled while
  // its writer thread was at work.
  datatype Phase = Waiting(on: nat) | Synth(on: nat) | Convert(on: nat) | Write(on: nat, landed: bool)
                 | Stray | Returned | Failed
  {
    predicate Active() { Synth? || Convert? || Write? }
  }

  datatype Cache = Cache(clip: bool, table: Option<nat>, locks: seq<Lock>, calls: seq<Phase>)

  const START := Cache(false, None, [], [])

  // ------------------------------------------------------------ the lock

  predicate Alive(w: Waiter) { w.mark.Idle? || w.mark.Woken? }

  // A newcomer does not wait.
  predicate FreeToTake(l: Lock) {
    l.holder.None? && forall k :: 0 <= k < |l.queue| ==> l.queue[k].mark.Dropped?
  }

  function WakeFirst(l: Lock): Lock {
    if l.queue != [] && l.queue[0].mark.Idle? then l.(queue := l.queue[0 := l.queue[0].(mark := Woken)]) else l
  }

  function Release(l: Lock): Lock {
    WakeFirst(l.(holder := None))
  }

  function Without(q: seq<Waiter>, k: nat): seq<Waiter>
    requires k < |q|
  {
    q[..k] + q[k + 1..]
  }

  // ------------------------------------------------------------ steps

  datatype Answer = Ogg | Wave | Error

  datatype Step =
    | Get(up: bool)                    // a call starts; is tier 2 up?
    | Resume(lock: nat, k: nat)        // a waiter's task runs
    | Answered(call: nat, a: Answer)   // the synthesis ends
    | Converted(call: nat, ok: bool)
    | Land(call: nat)                  // the writer thread puts the clip in place
    | Spoiled(call: nat)               // the writer thread fails
    | Finish(call: nat)                // the task runs after its writer
    | CancelWaiter(lock: nat, k: nat)
    | Cancel(call: nat)                // any other suspended call
    | Delete                           // retention

  predicate Enabled(s: Cache, step: Step) {
    match step
    case Get(_) => true
    case Resume(l, k) => l < |s.locks| && k < |s.locks[l].queue| && !s.locks[l].queue[k].mark.Idle?
    case Answered(i, _) => i < |s.calls| && s.calls[i].Synth?
    case Converted(i, _) => i < |s.calls| && s.calls[i].Convert?
    case Land(i) => i < |s.calls| && (s.calls[i].Stray? || (s.calls[i].Write? && !s.calls[i].landed))
    case Spoiled(i) => i < |s.calls| && (s.calls[i].Stray? || (s.calls[i].Write? && !s.calls[i].landed))
    case Finish(i) => i < |s.calls| && s.calls[i].Write? && s.calls[i].landed
    case CancelWaiter(l, k) => l < |s.locks| && k < |s.locks[l].queue|
    case Cancel(i) => i < |s.calls| && s.calls[i].Active()
    case Delete => true
  }

  // The call leaves its lock and ends.
  function Leave(s: Cache, i: nat, phase: Phase): Cache
    requires i < |s.calls| && s.calls[i].Active() && s.calls[i].on < |s.locks|
  {
    var l := s.calls[i].on;
    s.(locks := s.locks[l := Release(s.locks[l])], calls := s.calls[i := phase])
  }

  // A call that has the lock looks for the clip again.
  function Inside(s: Cache, l: nat, i: nat): Cache
    requires l < |s.locks| && i < |s.calls|
  {
    if s.clip then s.(locks := s.locks[l := Release(s.locks[l])], calls := s.calls[i := Returned])
    else s.(locks := s.locks[l := s.locks[l].(holder := Some(i))], calls := s.calls[i := Synth(l)])
  }

  function Start(s: Cache, up: bool): Cache
    requires s.table.Some? ==> s.table.value < |s.locks|
  {
    var i := |s.calls|;
    if s.clip then s.(calls := s.calls + [Returned])
    else if !up then s.(calls := s.calls + [Failed])
    else
      var l := if s.table.Some? then s.table.value else |s.locks|;
      var locks := if s.table.Some? then s.locks else s.locks + [Lock(None, [])];
      if FreeToTake(locks[l]) then Inside(s.(table := Some(l), locks := locks, calls := s.calls + [Failed]), l, i)
      else s.(table := Some(l), calls := s.calls + [Waiting(l)],
              locks := locks[l := locks[l].(queue := locks[l].queue + [Waiter(i, Idle)])])
  }

  function Wake(s: Cache, l: nat, k: nat): Cache
    requires Enabled(s, Resume(l, k)) && s.locks[l].queue[k].call < |s.calls|
  {
    var w := s.locks[l].queue[k];
    var lock := s.locks[l].(queue := Without(s.locks[l].queue, k));
    if w.mark.Woken? then Inside(s.(locks := s.locks[l := lock]), l, w.call)
    else s.(locks := s.locks[l := if lock.holder.None? then WakeFirst(lock) else lock], calls := s.calls[w.call := Failed])
  }

  predicate InRange(l: Lock, calls: nat) { forall k :: 0 <= k < |l.queue| ==> l.queue[k].call < calls }

  // Every reference is in range.
  predicate Shape(s: Cache) {
    && (s.table.Some? ==> s.table.value < |s.locks|)
    && (forall l :: 0 <= l < |s.locks| ==> InRange(s.locks[l], |s.calls|))
    && (forall i :: 0 <= i < |s.calls| && s.calls[i].Active() ==> s.calls[i].on < |s.locks|)
  }

  function Do(s: Cache, step: Step): Cache
    requires Shape(s) && Enabled(s, step)
  {
    match step
    case Get(up) => Start(s, up)
    case Resume(l, k) => Wake(s, l, k)
    case Answered(i, a) =>
      if a.Error? then Leave(s, i, Failed)
      else s.(calls := s.calls[i := if a.Ogg? then Write(s.calls[i].on, false) else Convert(s.calls[i].on)])
    case Converted(i, ok) =>
      if ok then s.(calls := s.calls[i := Write(s.calls[i].on, false)]) else Leave(s, i, Failed)
    case Land(i) =>
      s.(clip := true, calls := s.calls[i := if s.calls[i].Stray? then Failed else Write(s.calls[i].on, true)])
    case Spoiled(i) => if s.calls[i].Stray? then s.(calls := s.calls[i := Failed]) else Leave(s, i, Failed)
    case Finish(i) => Leave(s, i, Returned).(table := None)
    case CancelWaiter(l, k) =>
      var w := s.locks[l].queue[k];
      var w' := w.(mark := if w.mark.Idle? then Dropped else if w.mark.Woken? then Doomed else w.mark);
      s.(locks := s.locks[l := s.locks[l].(queue := s.locks[l].queue[k := w'])])
    case Cancel(i) => Leave(s, i, if s.calls[i].Write? && !s.calls[i].landed then Stray else Failed)
    case Delete => s.(clip := false)
  }

  // ------------------------------------------------------------ the invariant

  // One lock: only the first waiter may be woken, and only while the lock is
  // free; and a free lock with waiters has its first one about to run.
  predicate LockInv(l: Lock) {
    && (forall k :: 0 <= k < |l.queue| && (l.queue[k].mark.Woken? || l.queue[k].mark.Doomed?) ==> k == 0 && l.holder.None?)
    && (l.holder.None? && l.queue != [] ==> !l.queue[0].mark.Idle?)
  }

  predicate Held(s: Cache, l: nat)
    requires l < |s.locks|
  {
    s.locks[l].holder.Some? ==>
      var i := s.locks[l].holder.value;
      i < |s.calls| && s.calls[i].Active() && s.calls[i].on == l && s.table == Some(l)
  }

  predicate Queued(s: Cache, l: nat)
    requires l < |s.locks|
  {
    var q := s.locks[l].queue;
    && (forall k :: 0 <= k < |q| ==> q[k].call < |s.calls| && s.calls[q[k].call] == Waiting(l))
    && (forall j, k :: 0 <= j < k < |q| ==> q[j].call != q[k].call)
  }

  // Somebody who will still take the lock waits for it.
  predicate Wanted(l: Lock) {
    exists k :: 0 <= k < |l.queue| && Alive(l.queue[k])
  }

  // A lock that is wanted is in the table, or the clip is there.
  predicate Listed(s: Cache, l: nat)
    requires l < |s.locks|
  {
    Wanted(s.locks[l]) ==> s.table == Some(l) || (s.table == None && s.clip)
  }

  predicate LockOk(s: Cache, l: nat)
    requires l < |s.locks|
  {
    LockInv(s.locks[l]) && Held(s, l) && Queued(s, l) && Listed(s, l)
  }

  predicate Inv(s: Cache) {
    && (s.table.Some? ==> s.table.value < |s.locks|)
    && (forall l {:trigger s.locks[l]} :: 0 <= l < |s.locks| ==> LockOk(s, l))
    && (forall i :: 0 <= i < |s.calls| && s.calls[i].Active() ==>
          s.calls[i].on < |s.locks| && s.locks[s.calls[i].on].holder == Some(i))
    && (forall i :: 0 <= i < |s.calls| && s.calls[i].Write? && s.calls[i].landed ==> s.clip)
  }

  // When retention may delete the clip: no writer is about to return, and no
  // call still waits for a lock that has left the table.
  predicate SafeToDelete(s: Cache) {
    && (forall i :: 0 <= i < |s.calls| ==> !(s.calls[i].Write? && s.calls[i].landed))
    && (forall l :: 0 <= l < |s.locks| && Wanted(s.locks[l]) ==> s.table == Some(l))
  }

  predicate On(p: Phase, l: nat) { (p.Waiting? || p.Active()) && p.on == l }

  // Most steps touch one lock and one call that is on it.
  lemma OneLock(s: Cache, s': Cache, l: nat, i: nat)
    requires Inv(s) && l < |s.locks| && i < |s.calls| && (On(s.calls[i], l) || s.calls[i].Failed?)
    requires |s'.locks| == |s.locks| && s'.locks == s.locks[l := s'.locks[l]]
    requires |s'.calls| == |s.calls| && s'.calls == s.calls[i := s'.calls[i]]
    requires s.clip ==> s'.clip
    requires s'.table == s.table || (s'.table == None && s'.clip && s.table == Some(l) && s'.locks[l].holder.None?)
    requires LockOk(s', l)
    requires s'.calls[i].Active() ==> s'.calls[i].on == l && s'.locks[l].holder == Some(i)
    requires s'.calls[i].Write? && s'.calls[i].landed ==> s'.clip
    requires s'.locks[l].holder.None? || s'.locks[l].holder.value == i || s'.locks[l].holder == s.locks[l].holder
    requires s.locks[l].holder.Some? && s.locks[l].holder.value != i ==> s'.locks[l].holder == s.locks[l].holder
    ensures Inv(s')
  {
    hide LockInv, Wanted;
    forall m | 0 <= m < |s'.locks| && m != l ensures LockOk(s', m) {
      assert LockOk(s, m);
    }
  }

  lemma ReleaseKeeps(l: Lock)
    requires LockInv(l)
    ensures LockInv(Release(l)) && Release(l).holder == None
    ensures |Release(l).queue| == |l.queue|
    ensures forall k :: 0 <= k < |l.queue| ==> Release(l).queue[k].call == l.queue[k].call && Alive(Release(l).queue[k]) == Alive(l.queue[k])
    ensures Wanted(Release(l)) <==> Wanted(l)
  {
    if Wanted(l) {
      var k :| 0 <= k < |l.queue| && Alive(l.queue[k]);
      assert Alive(Release(l).queue[k]);
    }
  }

  lemma LeaveKeeps(s: Cache, i: nat, phase: Phase)
    requires Inv(s) && i < |s.calls| && s.calls[i].Active() && !phase.Active() && !phase.Waiting?
    ensures Inv(Leave(s, i, phase))
    ensures s.clip ==> Inv(Leave(s, i, phase).(table := None))
  {
    var l := s.calls[i].on;
    assert LockOk(s, l);
    ReleaseKeeps(s.locks[l]);
    assert LockOk(Leave(s, i, phase), l);
    assert s.clip ==> LockOk(Leave(s, i, phase).(table := None), l);
    hide LockOk;
    OneLock(s, Leave(s, i, phase), l, i);
    if s.clip {
      OneLock(s, Leave(s, i, phase).(table := None), l, i);
    }
  }

  // The holder of a lock goes on to its next await.
  lemma StayKeeps(s: Cache, i: nat, phase: Phase, clip: bool)
    requires Inv(s) && i < |s.calls| && s.calls[i].Active() && phase.Active() && phase.on == s.calls[i].on
    requires (s.clip ==> clip) && (phase.Write? && phase.landed ==> clip)
    ensures Inv(s.(clip := clip, calls := s.calls[i := phase]))
  {
    var l := s.calls[i].on;
    assert LockOk(s, l);
    OneLock(s, s.(clip := clip, calls := s.calls[i := phase]), l, i);
  }

  lemma StrayKeeps(s: Cache, i: nat, clip: bool)
    requires Inv(s) && i < |s.calls| && s.calls[i].Stray? && (s.clip ==> clip)
    ensures Inv(s.(clip := clip, calls := s.calls[i := Failed]))
  {
    var s' := s.(clip := clip, calls := s.calls[i := Failed]);
    forall l | 0 <= l < |s.locks| ensures LockOk(s', l) {
      assert LockOk(s, l);
    }
  }

  // A call that takes a free lock: it leaves again if the clip is there.
  lemma InsideKeeps(s: Cache, l: nat, i: nat)
    requires l < |s.locks| && i < |s.calls| && s.locks[l].holder.None?
    requires forall k :: 0 <= k < |s.locks[l].queue| ==> s.locks[l].queue[k].call != i && !s.locks[l].queue[k].mark.Woken? && !s.locks[l].queue[k].mark.Doomed?
    requires s.clip || s.table == Some(l)
    requires Inv(s.(calls := s.calls[i := Failed], locks := s.locks[l := WakeFirst(s.locks[l])]))
    ensures Inv(Inside(s, l, i))
  {
    var t := s.(calls := s.calls[i := Failed], locks := s.locks[l := WakeFirst(s.locks[l])]);
    var s' := Inside(s, l, i);
    var q := s.locks[l].queue;
    assert LockOk(t, l);
    if s.clip {
      ReturnKeeps(t, i);
      assert s' == t.(calls := t.calls[i := Returned]);
    } else {
      TakeKeeps(s, l, i);
    }
  }

  lemma TakeKeeps(s: Cache, l: nat, i: nat)
    requires l < |s.locks| && i < |s.calls| && s.locks[l].holder.None? && s.table == Some(l)
    requires forall k :: 0 <= k < |s.locks[l].queue| ==> s.locks[l].queue[k].call != i && !s.locks[l].queue[k].mark.Woken? && !s.locks[l].queue[k].mark.Doomed?
    requires Inv(s.(calls := s.calls[i := Failed], locks := s.locks[l := WakeFirst(s.locks[l])]))
    ensures Inv(s.(locks := s.locks[l := s.locks[l].(holder := Some(i))], calls := s.calls[i := Synth(l)]))
  {
    var t := s.(calls := s.calls[i := Failed], locks := s.locks[l := WakeFirst(s.locks[l])]);
    var s' := s.(locks := s.locks[l := s.locks[l].(holder := Some(i))], calls := s.calls[i := Synth(l)]);
    var q := s.locks[l].queue;
    assert LockOk(s', l) by {
      assert LockOk(t, l);
      forall k | 0 <= k < |q| ensures q[k].call < |s.calls| && s'.calls[q[k].call] == Waiting(l) {
        assert t.locks[l].queue[k].call == q[k].call;
      }
      forall j, k | 0 <= j < k < |q| ensures q[j].call != q[k].call {
        assert t.locks[l].queue[j].call == q[j].call && t.locks[l].queue[k].call == q[k].call;
      }
    }
    forall m | 0 <= m < |s'.locks| && m != l ensures LockOk(s', m) {
      assert LockOk(t, m);
    }
    forall j | 0 <= j < |s'.calls| ensures s'.calls[j].Active() ==> s'.calls[j].on < |s'.locks| && s'.locks[s'.calls[j].on].holder == Some(j) {
      if t.calls[j].Active() {
        assert LockOk(t, t.calls[j].on);
      }
    }
  }

  lemma ReturnKeeps(s: Cache, i: nat)
    requires Inv(s) && i < |s.calls| && s.calls[i].Failed?
    ensures Inv(s.(calls := s.calls[i := Returned]))
  {
    var s' := s.(calls := s.calls[i := Returned]);
    forall m | 0 <= m < |s.locks| ensures LockOk(s', m) {
      assert LockOk(s, m);
    }
  }

  // ------------------------------------------------------------ every step keeps it

  lemma AppendCall(s: Cache, phase: Phase)
    requires Inv(s) && (phase.Returned? || phase.Failed?)
    ensures Inv(s.(calls := s.calls + [phase]))
  {
    var s' := s.(calls := s.calls + [phase]);
    forall m | 0 <= m < |s.locks| ensures LockOk(s', m) {
      assert LockOk(s, m);
    }
  }

  // `setdefault`: without a clip and without an entry nobody wants an old lock.
  function Entered(s: Cache): (r: (Cache, nat))
    requires s.table.Some? ==> s.table.value < |s.locks|
    ensures r.1 < |r.0.locks|
  {
    var l := if s.table.Some? then s.table.value else |s.locks|;
    (s.(table := Some(l), locks := if s.table.Some? then s.locks else s.locks + [Lock(None, [])], calls := s.calls + [Failed]), l)
  }

  lemma EnteredKeeps(s: Cache)
    requires Inv(s) && !s.clip
    ensures Inv(Entered(s).0)
  {
    var (s', l) := Entered(s);
    forall m | 0 <= m < |s'.locks| ensures LockOk(s', m) {
      if m < |s.locks| {
        assert LockOk(s, m);
      }
    }
  }

  lemma JoinKeeps(s: Cache, l: nat, i: nat)
    requires Inv(s) && l < |s.locks| && i < |s.calls| && s.calls[i].Failed? && s.table == Some(l)
    requires !FreeToTake(s.locks[l])
    ensures Inv(s.(calls := s.calls[i := Waiting(l)], locks := s.locks[l := s.locks[l].(queue := s.locks[l].queue + [Waiter(i, Idle)])]))
  {
    var s' := s.(calls := s.calls[i := Waiting(l)], locks := s.locks[l := s.locks[l].(queue := s.locks[l].queue + [Waiter(i, Idle)])]);
    assert LockOk(s, l);
    assert LockOk(s', l);
    hide LockOk;
    OneLock(s, s', l, i);
  }

  lemma GetKeeps(s: Cache, up: bool)
    requires Inv(s)
    ensures Inv(Start(s, up))
  {
    if s.clip || !up {
      AppendCall(s, if s.clip then Returned else Failed);
    } else {
      var (u, l) := Entered(s);
      var i := |s.calls|;
      EnteredKeeps(s);
      if FreeToTake(u.locks[l]) {
        assert u.locks[l := WakeFirst(u.locks[l])] == u.locks && u.calls[i := Failed] == u.calls;
        assert LockOk(u, l);
        InsideKeeps(u, l, i);
      } else {
        JoinKeeps(u, l, i);
        assert u.calls[i := Waiting(l)] == s.calls + [Waiting(l)];
      }
    }
  }

  lemma WithoutKeeps(l: Lock, k: nat)
    requires LockInv(l) && k < |l.queue|
    ensures var r := l.(queue := Without(l.queue, k));
      && LockInv(if l.holder.None? then WakeFirst(r) else r)
      && (Wanted(r) ==> Wanted(l))
      && (Wanted(WakeFirst(r)) ==> Wanted(l))
      && (l.queue[k].mark.Woken? ==> forall j :: 0 <= j < |r.queue| ==> !r.queue[j].mark.Woken? && !r.queue[j].mark.Doomed?)
  {
    var r := l.(queue := Without(l.queue, k));
    forall j | 0 <= j < |r.queue| ensures r.queue[j] == l.queue[if j < k then j else j + 1] {
    }
    forall j | 0 <= j < |r.queue| && Alive(WakeFirst(r).queue[j]) ensures Alive(r.queue[j]) && Wanted(l) {
      assert Alive(l.queue[if j < k then j else j + 1]);
    }
    forall j | 0 <= j < |r.queue| && Alive(r.queue[j]) ensures Wanted(l) {
      assert Alive(l.queue[if j < k then j else j + 1]);
    }
  }

  // A waiter leaves the queue; the first of the others is woken if the lock is free.
  function Quit(s: Cache, l: nat, k: nat): Cache
    requires Enabled(s, Resume(l, k)) && s.locks[l].queue[k].call < |s.calls|
  {
    var r := s.locks[l].(queue := Without(s.locks[l].queue, k));
    s.(locks := s.locks[l := if r.holder.None? then WakeFirst(r) else r], calls := s.calls[s.locks[l].queue[k].call := Failed])
  }

  lemma QuitQueued(s: Cache, l: nat, k: nat)
    requires Inv(s) && Enabled(s, Resume(l, k)) && Queued(s, l)
    ensures Queued(Quit(s, l, k), l)
  {
    hide Inv;
    var s', i := Quit(s, l, k), s.locks[l].queue[k].call;
    var q, q' := s.locks[l].queue, s'.locks[l].queue;
    forall j | 0 <= j < |q'| ensures q'[j].call == q[if j < k then j else j + 1].call && q'[j].call != i {
    }
  }

  lemma QuitKeeps(s: Cache, l: nat, k: nat)
    requires Inv(s) && Enabled(s, Resume(l, k))
    ensures Inv(Quit(s, l, k))
  {
    assert LockOk(s, l);
    QuitQueued(s, l, k);
    WithoutKeeps(s.locks[l], k);
    hide Wanted, LockInv, Queued, Without;
    assert LockOk(Quit(s, l, k), l);
    hide LockOk;
    OneLock(s, Quit(s, l, k), l, s.locks[l].queue[k].call);
  }

  lemma ResumeKeeps(s: Cache, l: nat, k: nat)
    requires Inv(s) && Enabled(s, Resume(l, k))
    ensures Inv(Wake(s, l, k))
  {
    assert LockOk(s, l);
    QuitKeeps(s, l, k);
    var w := s.locks[l].queue[k];
    if w.mark.Woken? {
      var lock := s.locks[l].(queue := Without(s.locks[l].queue, k));
      var u := s.(locks := s.locks[l := lock]);
      WithoutKeeps(s.locks[l], k);
      assert Wanted(s.locks[l]) by { assert Alive(w); }
      assert u.locks[l := WakeFirst(lock)] == s.locks[l := WakeFirst(lock)];
      forall j | 0 <= j < |lock.queue| ensures lock.queue[j].call != w.call {
        assert lock.queue[j] == s.locks[l].queue[if j < k then j else j + 1];
      }
      InsideKeeps(u, l, w.call);
    }
  }

  lemma CancelWaiterKeeps(s: Cache, l: nat, k: nat)
    requires Inv(s) && Enabled(s, CancelWaiter(l, k))
    ensures Inv(Do(s, CancelWaiter(l, k)))
  {
    var s' := Do(s, CancelWaiter(l, k));
    assert LockOk(s, l);
    var i := s.locks[l].queue[k].call;
    if Wanted(s'.locks[l]) {
      var j :| 0 <= j < |s'.locks[l].queue| && Alive(s'.locks[l].queue[j]);
      assert Alive(s.locks[l].queue[j]);
    }
    assert LockOk(s', l);
    OneLock(s, s', l, i);
  }

  lemma DeleteKeeps(s: Cache)
    requires Inv(s) && SafeToDelete(s)
    ensures Inv(s.(clip := false))
  {
    forall m | 0 <= m < |s.locks| ensures LockOk(s.(clip := false), m) {
      assert LockOk(s, m);
    }
  }

  lemma StepKeeps(s: Cache, step: Step)
    requires Inv(s) && Enabled(s, step) && (step.Delete? ==> SafeToDelete(s))
    ensures Inv(Do(s, step))
  {
    hide Inv, Start, Wake;
    match step
    case Get(up) => GetKeeps(s, up);
    case Resume(l, k) => ResumeKeeps(s, l, k);
    case Answered(i, a) => HeldStep(s, step, i);
    case Converted(i, ok) => HeldStep(s, step, i);
    case Land(i) => HeldStep(s, step, i);
    case Spoiled(i) => HeldStep(s, step, i);
    case Finish(i) => HeldStep(s, step, i);
    case CancelWaiter(l, k) => CancelWaiterKeeps(s, l, k);
    case Cancel(i) => HeldStep(s, step, i);
    case Delete => DeleteKeeps(s);
  }

  predicate ByHolder(step: Step, i: nat) {
    step == Land(i) || step == Spoiled(i) || step == Finish(i) || step == Cancel(i)
    || (step.Answered? && step.call == i) || (step.Converted? && step.call == i)
  }

  lemma HeldStep(s: Cache, step: Step, i: nat)
    requires Inv(s) && Enabled(s, step) && ByHolder(step, i)
    ensures Inv(Do(s, step))
  {
    if s.calls[i].Stray? {
      StrayKeeps(s, i, step.Land? || s.clip);
    } else {
      LeaveKeeps(s, i, if step.Finish? then Returned else if step.Cancel? && s.calls[i].Write? && !s.calls[i].landed then Stray else Failed);
      var on := s.calls[i].on;
      if step.Land? {
        StayKeeps(s, i, Write(on, true), true);
      } else {
        StayKeeps(s, i, Convert(on), s.clip);
        StayKeeps(s, i, Write(on, false), s.clip);
      }
      assert s.(clip := s.clip) == s;
    }
  }

  // ------------------------------------------------------------ runs

  lemma {:induction false} InvShape(s: Cache)
    requires Inv(s)
    ensures Shape(s)
  {
    forall l | 0 <= l < |s.locks| ensures forall k :: 0 <= k < |s.locks[l].queue| ==> s.locks[l].queue[k].call < |s.calls| {
      assert LockOk(s, l);
    }
  }

  function Run(s: Cache, steps: seq<Step>): Option<Cache>
    decreases |steps|
  {
    if steps == [] then Some(s)
    else if Shape(s) && Enabled(s, steps[0]) then Run(Do(s, steps[0]), steps[1..])
    else None
  }

  predicate NoDelete(steps: seq<Step>) { forall k :: 0 <= k < |steps| ==> !steps[k].Delete? }

  predicate AtMostOne(s: Cache) {
    forall i, j :: 0 <= i < j < |s.calls| ==> !(s.calls[i].Active() && s.calls[j].Active())
  }

  predicate TwoSyntheses(s: Cache) {
    exists i, j :: 0 <= i < j < |s.calls| && s.calls[i].Synth? && s.calls[j].Synth?
  }

  lemma InvMeansOne(s: Cache)
    requires Inv(s)
    ensures AtMostOne(s) && !TwoSyntheses(s)
  {
    forall i | 0 <= i < |s.calls| && s.calls[i].Active() ensures s.table == Some(s.calls[i].on) {
      assert LockOk(s, s.calls[i].on);
    }
  }

  // In every run in which the clip is not deleted, at most one call is between
  // its second look for the clip and its release of the lock.
  lemma {:induction false} RunKeeps(s: Cache, steps: seq<Step>, t: Cache)
    requires Inv(s) && NoDelete(steps) && Run(s, steps) == Some(t)
    ensures Inv(t) && AtMostOne(t)
    decreases |steps|
  {
    if steps == [] {
      InvMeansOne(s);
    } else {
      StepKeeps(s, steps[0]);
      RunKeeps(Do(s, steps[0]), steps[1..], t);
    }
  }

  lemma StartInv()
    ensures Inv(START)
  {
  }

  // Nobody waits in vain: for a lock with a waiter either its holder is at
  // work or the first waiter is about to run.
  lemma NobodyStranded(s: Cache, l: nat)
    requires Inv(s) && l < |s.locks| && s.locks[l].queue != []
    ensures (s.locks[l].holder.Some? && s.calls[s.locks[l].holder.value].Active()) || Enabled(s, Resume(l, 0))
  {
    assert LockOk(s, l);
  }

  // ------------------------------------------------------------ once made, never again

  lemma NoStartOnceMade(s: Cache, step: Step)
    requires Inv(s) && s.clip && Enabled(s, step) && !step.Delete?
    ensures var t := Do(s, step); t.clip && |t.calls| >= |s.calls|
    ensures var t := Do(s, step); forall i :: 0 <= i < |t.calls| && t.calls[i].Synth? ==> i < |s.calls| && s.calls[i].Synth?
  {
    if step.Resume? {
      assert LockOk(s, step.lock);
    }
  }

  lemma {:induction false} NoneOnceMade(s: Cache, steps: seq<Step>, t: Cache)
    requires Inv(s) && s.clip && NoDelete(steps) && Run(s, steps) == Some(t)
    ensures t.clip && |t.calls| >= |s.calls|
    ensures forall i :: 0 <= i < |t.calls| && t.calls[i].Synth? ==> i < |s.calls| && s.calls[i].Synth?
    decreases |steps|
  {
    if steps != [] {
      NoStartOnceMade(s, steps[0]);
      StepKeeps(s, steps[0]);
      NoneOnceMade(Do(s, steps[0]), steps[1..], t);
    }
  }

  predicate Made(s: Cache) {
    forall i :: 0 <= i < |s.calls| && s.calls[i].Returned? ==> s.clip
  }

  lemma StepMade(s: Cache, step: Step)
    requires Inv(s) && Made(s) && Enabled(s, step) && !step.Delete?
    ensures Made(Do(s, step))
  {
    if step.Resume? {
      assert LockOk(s, step.lock);
    }
  }

  lemma {:induction false} RunMade(s: Cache, steps: seq<Step>, t: Cache)
    requires Inv(s) && Made(s) && NoDelete(steps) && Run(s, steps) == Some(t)
    ensures Made(t)
    decreases |steps|
  {
    if steps != [] {
      StepMade(s, steps[0]);
      StepKeeps(s, steps[0]);
      RunMade(Do(s, steps[0]), steps[1..], t);
    }
  }

  // After one call returned the clip, no call starts a synthesis.
  lemma NoneAfterSuccess(first: seq<Step>, s: Cache, i: nat, rest: seq<Step>, t: Cache)
    requires NoDelete(first) && Run(START, first) == Some(s) && i < |s.calls| && s.calls[i].Returned?
    requires NoDelete(rest) && Run(s, rest) == Some(t)
    ensures s.clip && AtMostOne(t)
    ensures forall j :: 0 <= j < |t.calls| && t.calls[j].Synth? ==> j < |s.calls| && s.calls[j].Synth?
  {
    StartInv();
    RunKeeps(START, first, s);
    RunMade(START, first, s);
    RunKeeps(s, rest, t);
    NoneOnceMade(s, rest, t);
  }

  // ------------------------------------------------------------ deleting the clip

  lemma {:induction false} Then(s: Cache, steps: seq<Step>, t: Cache, step: Step)
    requires Run(s, steps) == Some(t) && Shape(t) && Enabled(t, step)
    ensures Run(s, steps + [step]) == Some(Do(t, step))
    decreases |steps|
  {
    if steps == [] {
      assert [step][1..] == [];
    } else {
      Then(Do(s, steps[0]), steps[1..], t, step);
      assert (steps + [step])[1..] == steps[1..] + [step];
    }
  }

  // The clip is gone and the lock with it from the table, but a call that will
  // not give up still waits for the lock.
  predicate Orphaned(s: Cache, l: nat) {
    && Shape(s) && l < |s.locks| && !s.clip && s.table == None
    && s.locks[l].holder.None? && LockInv(s.locks[l]) && Wanted(s.locks[l])
  }

  lemma NextInLine(l: Lock)
    requires l.holder.None? && LockInv(l) && Wanted(l) && !l.queue[0].mark.Woken?
    ensures var r := WakeFirst(l.(queue := Without(l.queue, 0)));
      r.holder.None? && LockInv(r) && Wanted(r) && |r.queue| < |l.queue|
  {
    WithoutKeeps(l, 0);
    var k :| 0 <= k < |l.queue| && Alive(l.queue[k]);
    assert Without(l.queue, 0) == l.queue[1..];
    assert Alive(WakeFirst(l.(queue := Without(l.queue, 0))).queue[k - 1]);
  }

  // Its first waiter takes it, or leaves it to the next.
  lemma FirstRuns(s: Cache, l: nat)
    requires Orphaned(s, l)
    ensures Enabled(s, Resume(l, 0)) && s.locks[l].queue[0].call < |s.calls|
    ensures var t, w := Do(s, Resume(l, 0)), s.locks[l].queue[0];
      if w.mark.Woken? then Shape(t) && !t.clip && t.table == None && w.call < |t.calls| && t.calls[w.call].Synth?
      else Orphaned(t, l) && |t.locks[l].queue| < |s.locks[l].queue|
  {
    ShapeOfResume(s, l);
    if !s.locks[l].queue[0].mark.Woken? {
      NextInLine(s.locks[l]);
    }
    hide Shape, LockInv, Wanted, WakeFirst, Without;
  }

  // One of its waiters takes it, whoever gives up before.
  lemma {:induction false} Drain(start: Cache, steps: seq<Step>, s: Cache, l: nat)
      returns (steps': seq<Step>, t: Cache, i: nat)
    requires Run(start, steps) == Some(s) && NoDelete(steps) && Orphaned(s, l)
    ensures Run(start, steps') == Some(t) && NoDelete(steps')
    ensures Shape(t) && !t.clip && t.table == None && i < |t.calls| && t.calls[i].Synth?
    decreases |s.locks[l].queue|
  {
    var step := Resume(l, 0);
    FirstRuns(s, l);
    Then(start, steps, s, step);
    hide *;
    if s.locks[l].queue[0].mark.Woken? {
      steps', t, i := steps + [step], Do(s, step), s.locks[l].queue[0].call;
    } else {
      steps', t, i := Drain(start, steps + [step], Do(s, step), l);
    }
  }

  lemma ShapeOfLock(s: Cache, s': Cache, l: nat)
    requires Shape(s) && l < |s'.locks| && |s.calls| <= |s'.calls|
    requires |s'.locks| == |s.locks| || (|s'.locks| == |s.locks| + 1 && l == |s.locks|)
    requires forall m :: 0 <= m < |s.locks| && m != l ==> s'.locks[m] == s.locks[m]
    requires InRange(s'.locks[l], |s'.calls|)
    requires s'.table.Some? ==> s'.table.value < |s'.locks|
    requires forall i :: 0 <= i < |s'.calls| && s'.calls[i].Active() ==> (i < |s.calls| && s.calls[i].Active() && s'.calls[i].on == s.calls[i].on) || s'.calls[i].on == l
    ensures Shape(s')
  {
    forall m | 0 <= m < |s'.locks| ensures InRange(s'.locks[m], |s'.calls|) {
      if m != l {
        assert s'.locks[m] == s.locks[m] && InRange(s.locks[m], |s.calls|);
      }
    }
  }

  lemma ShapeOfGet(s: Cache, up: bool)
    requires Shape(s)
    ensures Shape(Start(s, up))
  {
    var s' := Start(s, up);
    if s.clip || !up {
      forall i | 0 <= i < |s'.calls| && s'.calls[i].Active() ensures i < |s.calls| && s.calls[i].Active() {
      }
    } else {
      var (u, l) := Entered(s);
      assert InRange(u.locks[l], |s.calls|);
      ShapeOfLock(s, s', l);
    }
  }

  lemma ShapeOfResume(s: Cache, l: nat)
    requires Shape(s) && Enabled(s, Resume(l, 0))
    ensures Shape(Wake(s, l, 0))
  {
    var q, s' := s.locks[l].queue, Wake(s, l, 0);
    assert InRange(s'.locks[l], |s.calls|) by {
      hide Shape;
      forall k | 0 <= k < |s'.locks[l].queue| ensures s'.locks[l].queue[k].call < |s.calls| {
        assert s'.locks[l].queue[k].call == q[k + 1].call;
      }
    }
    ShapeOfLock(s, s', l);
  }

  lemma ShapeOfFinish(s: Cache, i: nat)
    requires Shape(s) && Enabled(s, Finish(i))
    ensures Shape(Do(s, Finish(i)))
  {
    ShapeOfLock(s, Do(s, Finish(i)), s.calls[i].on);
  }

  // The orphan's holder and a newcomer synthesise the clip at the same time.
  lemma OrphanMeansTwo(start: Cache, steps: seq<Step>, s: Cache, l: nat) returns (steps': seq<Step>, t: Cache)
    requires Run(start, steps) == Some(s) && NoDelete(steps) && Orphaned(s, l)
    ensures Run(start, steps') == Some(t) && NoDelete(steps') && TwoSyntheses(t)
  {
    var u, i;
    steps', u, i := Drain(start, steps, s, l);
    Then(start, steps', u, Get(true));
    t := Do(u, Get(true));
    assert t.calls[i].Synth? && t.calls[|u.calls|].Synth?;
    steps' := steps' + [Get(true)];
  }

  // The clip goes between its writing and the return of its writer.
  lemma LandedMeansTwo(s: Cache, i: nat) returns (steps: seq<Step>, t: Cache)
    requires Inv(s) && s.clip && i < |s.calls| && s.calls[i].Write? && s.calls[i].landed
    ensures Run(s.(clip := false), steps) == Some(t) && NoDelete(steps) && TwoSyntheses(t)
  {
    var l := s.calls[i].on;
    assert s.calls[i].Active();
    assert LockOk(s, l);
    InvShape(s);
    var s0 := s.(clip := false);
    var s1 := Do(s0, Get(true));
    Then(s0, [], s0, Get(true));
    ShapeOfGet(s0, true);
    var s2 := Do(s1, Finish(i));
    Then(s0, [] + [Get(true)], s1, Finish(i));
    ShapeOfFinish(s1, i);
    assert s1.locks[l].holder == Some(i) && LockInv(s1.locks[l]);
    ReleaseKeeps(s1.locks[l]);
    assert Alive(s1.locks[l].queue[|s.locks[l].queue|]);
    assert Wanted(s1.locks[l]);
    steps, t := OrphanMeansTwo(s0, [] + [Get(true)] + [Finish(i)], s2, l);
  }

  // Deleting a clip can lead to two syntheses at a time exactly when its writer
  // is about to return or a call still waits for a lock that left the table.
  lemma DeletionIsSafeExactlyWhen(s: Cache)
    requires Inv(s) && s.clip
    ensures SafeToDelete(s) <==>
      forall steps, t :: NoDelete(steps) && Run(s.(clip := false), steps) == Some(t) ==> !TwoSyntheses(t)
  {
    var s0 := s.(clip := false);
    if SafeToDelete(s) {
      DeleteKeeps(s);
      forall steps, t | NoDelete(steps) && Run(s0, steps) == Some(t) ensures !TwoSyntheses(t) {
        RunKeeps(s0, steps, t);
        InvMeansOne(t);
      }
    } else if exists i :: 0 <= i < |s.calls| && s.calls[i].Write? && s.calls[i].landed {
      var i :| 0 <= i < |s.calls| && s.calls[i].Write? && s.calls[i].landed;
      var steps, t := LandedMeansTwo(s, i);
    } else {
      var l :| 0 <= l < |s.locks| && Wanted(s.locks[l]) && s.table != Some(l);
      assert LockOk(s, l);
      InvShape(s);
      var steps, t := OrphanMeansTwo(s0, [], s0, l);
    }
  }

  // A call that ends with the lock frees it for the first waiter, who is about to
  // run; the writer that returns takes the lock off the table.
  lemma LeaveMeans(s: Cache, step: Step, i: nat)
    requires Inv(s) && Shape(s) && Enabled(s, step) && ByHolder(step, i) && !s.calls[i].Stray?
    requires !Do(s, step).calls[i].Active()
    ensures var l, t := s.calls[i].on, Do(s, step);
      && t.locks[l].holder.None? && (t.locks[l].queue != [] ==> Enabled(t, Resume(l, 0)))
      && t.table == if step.Finish? then None else s.table
  {
    assert LockOk(s, s.calls[i].on);
  }

  // ------------------------------------------------------------ how a call ends

  // Whoever is queued waits there, whatever retention deletes.
  predicate Queues(s: Cache) {
    Shape(s) && forall l :: 0 <= l < |s.locks| ==> Queued(s, l)
  }

  // A step that touches one lock and one call.
  lemma QueuesOf(s: Cache, s': Cache, l: nat, i: nat)
    requires Queues(s) && l < |s'.locks| && i < |s'.calls| && |s.calls| <= |s'.calls| <= |s.calls| + 1 && i <= |s.calls|
    requires |s'.locks| == |s.locks| || (|s'.locks| == |s.locks| + 1 && l == |s.locks|)
    requires forall m :: 0 <= m < |s.locks| && m != l ==> s'.locks[m] == s.locks[m]
    requires forall j :: 0 <= j < |s.calls| && j != i ==> s'.calls[j] == s.calls[j]
    requires |s'.calls| > |s.calls| ==> i == |s.calls|
    requires i < |s.calls| && s.calls[i].Waiting? ==> s.calls[i].on == l
    requires s'.table.Some? ==> s'.table.value < |s'.locks|
    requires s'.calls[i].Active() ==> s'.calls[i].on < |s'.locks|
    requires Queued(s', l)
    ensures Queues(s')
  {
    forall m | 0 <= m < |s'.locks| ensures Queued(s', m) && InRange(s'.locks[m], |s'.calls|) {
      if m != l {
        assert Queued(s, m) && s'.locks[m] == s.locks[m];
      }
    }
  }

  lemma QueuedRelease(s: Cache, l: nat, i: nat, phase: Phase)
    requires l < |s.locks| && i < |s.calls| && Queued(s, l) && !s.calls[i].Waiting?
    ensures Queued(s.(locks := s.locks[l := Release(s.locks[l])], calls := s.calls[i := phase]), l)
  {
  }

  lemma QueuesOfGet(s: Cache, up: bool)
    requires Queues(s)
    ensures Queues(Start(s, up))
  {
    var s', i := Start(s, up), |s.calls|;
    if s.clip || !up {
      if |s.locks| > 0 {
        assert Queued(s, 0);
        QueuesOf(s, s', 0, i);
      }
    } else {
      var l := Entered(s).1;
      QueuedStart(s);
      hide Queued, FreeToTake;
      QueuesOf(s, s', l, i);
    }
  }

  lemma QueuedStart(s: Cache)
    requires Queues(s) && !s.clip
    ensures Queued(Start(s, true), Entered(s).1)
  {
    var (u, l) := Entered(s);
    if l < |s.locks| {
      assert Queued(s, l);
    }
    assert Queued(u, l);
  }

  lemma QueuesOfResume(s: Cache, l: nat, k: nat)
    requires Queues(s) && Enabled(s, Resume(l, k))
    ensures Queues(Wake(s, l, k))
  {
    assert Queued(s, l);
    var s', i := Wake(s, l, k), s.locks[l].queue[k].call;
    ResumeTouches(s, l, k);
    QueuedLeft(s, s', l, k);
    hide Queued, Wake;
    QueuesOf(s, s', l, i);
  }

  lemma ResumeTouches(s: Cache, l: nat, k: nat)
    requires Shape(s) && Enabled(s, Resume(l, k)) && s.locks[l].queue[k].call < |s.calls|
    ensures var s', q, i := Wake(s, l, k), s.locks[l].queue, s.locks[l].queue[k].call;
      && s'.locks == s.locks[l := s'.locks[l]] && s'.calls == s.calls[i := s'.calls[i]] && s'.table == s.table
      && |s'.locks| == |s.locks| && |s'.calls| == |s.calls|
      && |s'.locks[l].queue| == |q| - 1
      && (forall j :: 0 <= j < |q| - 1 ==> s'.locks[l].queue[j].call == q[if j < k then j else j + 1].call)
      && (s'.calls[i].Active() ==> s'.calls[i].on == l)
  {
  }

  lemma QueuedLeft(s: Cache, s': Cache, l: nat, k: nat)
    requires l < |s.locks| == |s'.locks| && Queued(s, l) && k < |s.locks[l].queue|
    requires var q, i := s.locks[l].queue, s.locks[l].queue[k].call;
      && i < |s.calls| == |s'.calls| && s'.calls == s.calls[i := s'.calls[i]]
      && |s'.locks[l].queue| == |q| - 1
      && forall j :: 0 <= j < |q| - 1 ==> s'.locks[l].queue[j].call == q[if j < k then j else j + 1].call
    ensures Queued(s', l)
  {
  }

  lemma QueuesOfCall(s: Cache, step: Step, i: nat)
    requires Queues(s) && Enabled(s, step) && ByHolder(step, i)
    ensures Queues(Do(s, step))
  {
    var s' := Do(s, step);
    CallTouches(s, step, i);
    hide Do, Release;
    forall m | 0 <= m < |s'.locks| ensures Queued(s', m) && InRange(s'.locks[m], |s'.calls|) {
      assert Queued(s, m);
      QueuedRelease(s, m, i, s'.calls[i]);
    }
  }

  lemma CallTouches(s: Cache, step: Step, i: nat)
    requires Shape(s) && Enabled(s, step) && ByHolder(step, i)
    ensures var s' := Do(s, step);
      && i < |s.calls| == |s'.calls| && !s.calls[i].Waiting? && s'.calls == s.calls[i := s'.calls[i]]
      && !s'.calls[i].Waiting? && (s'.calls[i].Active() ==> s.calls[i].Active() && s'.calls[i].on == s.calls[i].on)
      && |s'.locks| == |s.locks| && (s'.table == s.table || s'.table == None)
      && forall m :: 0 <= m < |s.locks| ==> s'.locks[m] == s.locks[m] || s'.locks[m] == Release(s.locks[m])
  {
    hide WakeFirst;
  }

  lemma QueuesOfCancel(s: Cache, l: nat, k: nat)
    requires Queues(s) && Enabled(s, CancelWaiter(l, k))
    ensures Queues(Do(s, CancelWaiter(l, k)))
  {
    var s' := Do(s, CancelWaiter(l, k));
    assert Queued(s, l);
    assert Queued(s', l);
    QueuesOf(s, s', l, s.locks[l].queue[k].call);
  }

  lemma QueuesStep(s: Cache, step: Step)
    requires Queues(s) && Enabled(s, step)
    ensures Queues(Do(s, step))
  {
    match step
    case Get(up) => hide *; QueuesGet(s, up);
    case Resume(l, k) => hide *; QueuesResume(s, l, k);
    case CancelWaiter(l, k) => QueuesOfCancel(s, l, k);
    case Delete =>
      forall m | 0 <= m < |s.locks| ensures Queued(s.(clip := false), m) {
        assert Queued(s, m);
      }
    case Answered(i, _) => QueuesOfCall(s, step, i);
    case Converted(i, _) => QueuesOfCall(s, step, i);
    case Land(i) => QueuesOfCall(s, step, i);
    case Spoiled(i) => QueuesOfCall(s, step, i);
    case Finish(i) => QueuesOfCall(s, step, i);
    case Cancel(i) => QueuesOfCall(s, step, i);
  }

  lemma QueuesGet(s: Cache, up: bool)
    requires Queues(s)
    ensures Queues(Do(s, Get(up)))
  {
    QueuesOfGet(s, up);
  }

  lemma QueuesResume(s: Cache, l: nat, k: nat)
    requires Queues(s) && Enabled(s, Resume(l, k))
    ensures Queues(Do(s, Resume(l, k)))
  {
    QueuesOfResume(s, l, k);
  }

  // With this step call i looks for the clip, first or with the lock.
  predicate Looks(s: Cache, step: Step, i: nat) {
    match step
    case Get(_) => i == |s.calls|
    case Resume(l, k) =>
      l < |s.locks| && k < |s.locks[l].queue| && s.locks[l].queue[k].mark.Woken? && s.locks[l].queue[k].call == i
    case _ => false
  }

  // What a look comes to.
  lemma LookMeans(s: Cache, step: Step, i: nat)
    requires Queues(s) && Enabled(s, step) && Looks(s, step, i)
    ensures var t := Do(s, step); i < |t.calls|
    ensures var t := Do(s, step);
      && (t.calls[i].Returned? <==> s.clip)
      && (t.calls[i].Failed? <==> !s.clip && step.Get? && !step.up)
      && (t.calls[i].Synth? <==>
            !s.clip && (step.Resume? || (step.up && (s.table.Some? ==> FreeToTake(s.locks[s.table.value])))))
      && (t.calls[i].Synth? ==> t.locks[t.calls[i].on].holder == Some(i))
      && (t.calls[i].Returned? || t.calls[i].Failed? || t.calls[i].Synth? || t.calls[i].Waiting?)
  {
  }

  // How a call comes by what it writes: an Ogg answer, or a conversion.
  predicate HasOgg(steps: seq<Step>, i: nat) {
    Answered(i, Ogg) in steps || (Answered(i, Wave) in steps && Converted(i, true) in steps)
  }

  // Call i found the clip at some look.
  ghost predicate Found(s: Cache, steps: seq<Step>, i: nat) {
    exists k :: 0 <= k < |steps| && FoundWith(s, steps, i, k)
  }

  ghost predicate FoundWith(s: Cache, steps: seq<Step>, i: nat, k: nat)
    requires k < |steps|
  {
    var u := Run(s, steps[..k]);
    u.Some? && u.value.clip && Looks(u.value, steps[k], i)
  }

  ghost predicate CallTold(s: Cache, steps: seq<Step>, i: nat, phase: Phase) {
    && (phase.Convert? ==> Answered(i, Wave) in steps)
    && (phase.Write? || phase.Stray? ==> HasOgg(steps, i))
    && (phase.Returned? ==> Found(s, steps, i) || (HasOgg(steps, i) && Land(i) in steps && Finish(i) in steps))
    && (phase.Write? && phase.landed ==> Land(i) in steps)
    && (Found(s, steps, i) ==> phase.Returned?)
  }

  ghost predicate RunTold(s: Cache, steps: seq<Step>, t: Cache) {
    && Queues(t)
    && (forall i :: 0 <= i < |t.calls| ==> CallTold(s, steps, i, t.calls[i]))
    && (forall i :: |t.calls| <= i ==> !Found(s, steps, i))
    && (t.clip ==> exists i :: HasOgg(steps, i) && Land(i) in steps)
  }

  lemma {:induction false} RunSnoc(s: Cache, steps: seq<Step>, t: Cache) returns (u: Cache)
    requires Run(s, steps) == Some(t) && steps != []
    ensures var front, last := steps[..|steps| - 1], steps[|steps| - 1];
      Run(s, front) == Some(u) && Shape(u) && Enabled(u, last) && t == Do(u, last)
    decreases |steps|
  {
    if |steps| == 1 {
      u := s;
    } else {
      u := RunSnoc(Do(s, steps[0]), steps[1..], t);
      assert steps[1..][..|steps| - 2] == steps[..|steps| - 1][1..];
    }
  }

  lemma FoundSnoc(s: Cache, front: seq<Step>, u: Cache, last: Step, i: nat)
    requires Run(s, front) == Some(u)
    ensures Found(s, front + [last], i) <==> Found(s, front, i) || (u.clip && Looks(u, last, i))
  {
    var steps := front + [last];
    assert steps[..|front|] == front;
    forall k | 0 <= k < |front| ensures FoundWith(s, steps, i, k) <==> FoundWith(s, front, i, k) {
      assert steps[..k] == front[..k];
    }
    assert FoundWith(s, steps, i, |front|) <==> u.clip && Looks(u, last, i);
  }

  // What a step does to a call that does not look.
  lemma CallStep(s: Cache, step: Step, i: nat)
    requires Queues(s) && Enabled(s, step) && !Looks(s, step, i)
    ensures i < |Do(s, step).calls| <==> i < |s.calls|
    ensures i < |s.calls| ==>
      var p, p' := s.calls[i], Do(s, step).calls[i];
      || p' == p || p'.Failed?
      || (p'.Convert? && step == Answered(i, Wave))
      || (p' == Write(p.on, false) && (step == Answered(i, Ogg) || (p.Convert? && step == Converted(i, true))))
      || (p.Write? && p' == Write(p.on, true) && step == Land(i))
      || (p.Write? && p.landed && p'.Returned? && step == Finish(i))
      || (p.Write? && p'.Stray? && step == Cancel(i))
    ensures i < |s.calls| && s.calls[i].Returned? ==> Do(s, step).calls[i].Returned?
  {
    if step.Resume? {
      assert Queued(s, step.lock);
    }
  }

  lemma ToldStep(s: Cache, front: seq<Step>, u: Cache, last: Step)
    requires Run(s, front) == Some(u) && Enabled(u, last) && RunTold(s, front, u)
    ensures RunTold(s, front + [last], Do(u, last))
  {
    var steps, t := front + [last], Do(u, last);
    QueuesStep(u, last);
    hide Queues, CallTold, Found, HasOgg, Do, Run;
    forall i: nat ensures i < |t.calls| ==> CallTold(s, steps, i, t.calls[i])
      ensures |t.calls| <= i ==> !Found(s, steps, i)
    {
      ToldOne(s, front, u, last, i);
    }
    if t.clip {
      ClipTold(s, front, u, last);
    }
  }

  lemma ToldOne(s: Cache, front: seq<Step>, u: Cache, last: Step, i: nat)
    requires Run(s, front) == Some(u) && Queues(u) && Enabled(u, last)
    requires if i < |u.calls| then CallTold(s, front, i, u.calls[i]) else !Found(s, front, i)
    ensures var steps, t := front + [last], Do(u, last);
      if i < |t.calls| then CallTold(s, steps, i, t.calls[i]) else !Found(s, steps, i)
  {
    hide Found, Run, Queues, Do;
    FoundSnoc(s, front, u, last, i);
    MoreOgg(front, last, i);
    if Looks(u, last, i) {
      LookMeans(u, last, i);
      LooksWaiting(u, last, i);
    } else {
      CallStep(u, last, i);
    }
  }

  lemma MoreOgg(front: seq<Step>, last: Step, i: nat)
    ensures HasOgg(front, i) ==> HasOgg(front + [last], i)
    ensures forall x :: x in front + [last] <==> x in front || x == last
  {
  }

  lemma LooksWaiting(s: Cache, step: Step, i: nat)
    requires Queues(s) && Looks(s, step, i)
    ensures if step.Get? then i == |s.calls| else i < |s.calls| && s.calls[i].Waiting?
  {
    if step.Resume? {
      assert Queued(s, step.lock);
    }
  }

  lemma ClipTold(s: Cache, front: seq<Step>, u: Cache, last: Step)
    requires Run(s, front) == Some(u) && Enabled(u, last) && RunTold(s, front, u) && Do(u, last).clip
    ensures exists i :: HasOgg(front + [last], i) && Land(i) in front + [last]
  {
    if u.clip {
      var i :| HasOgg(front, i) && Land(i) in front;
      MoreOgg(front, last, i);
    } else {
      ClipFrom(u, last);
      assert CallTold(s, front, last.call, u.calls[last.call]);
      MoreOgg(front, last, last.call);
      assert HasOgg(front + [last], last.call) && Land(last.call) in front + [last];
    }
  }

  lemma ClipFrom(s: Cache, step: Step)
    requires Shape(s) && Enabled(s, step) && Do(s, step).clip && !s.clip
    ensures step.Land? && (s.calls[step.call].Write? || s.calls[step.call].Stray?)
  {
  }

  // In every run, deletions or not: a call that finds the clip returns; a call
  // returns only if it found the clip, or wrote an Ogg file and came to its end;
  // what is written was answered as Ogg or converted to it; so the clip is Ogg.
  lemma {:induction false} CallsOfARun(steps: seq<Step>, t: Cache)
    requires Run(START, steps) == Some(t)
    ensures RunTold(START, steps, t)
    decreases |steps|
  {
    if steps != [] {
      var front, last := steps[..|steps| - 1], steps[|steps| - 1];
      var u := RunSnoc(START, steps, t);
      CallsOfARun(front, u);
      ToldStep(START, front, u, last);
      assert steps == front + [last];
    }
  }

  // ------------------------------------------------------------ in place

  // The sections of `get` between its awaits, for one clip: the lock table's
  // entry, the locks it has held, the clip file, and the calls.
  class TTSCache {
    var clip: bool
    var table: Option<nat>
    var locks: seq<Lock>
    var calls: seq<Phase>

    function State(): Cache
      reads this
    {
      Cache(clip, table, locks, calls)
    }

    constructor ()
      ensures Inv(State()) && State() == START
    {
      clip, table, locks, calls := false, None, [], [];
    }

    // asyncio.Lock.release
    method ReleaseLock(l: nat)
      requires l < |locks|
      modifies this`locks
      ensures locks == old(locks)[l := Release(old(locks)[l])]
    {
      locks := locks[l := locks[l].(holder := None)];
      WakeFirstOf(l);
    }

    method WakeFirstOf(l: nat)
      requires l < |locks|
      modifies this`locks
      ensures locks == old(locks)[l := WakeFirst(old(locks)[l])]
    {
      var q := locks[l].queue;
      if q != [] && q[0].mark.Idle? {
        locks := locks[l := locks[l].(queue := q[0 := Waiter(q[0].call, Woken)])];
      }
    }

    // The body of `async with lock` up to its first await.
    method LookAgain(l: nat, i: nat)
      requires l < |locks| && i < |calls|
      modifies this
      ensures State() == Inside(old(State()), l, i)
    {
      locks := locks[l := locks[l].(holder := Some(i))];
      if clip {
        calls := calls[i := Returned];
        ReleaseLock(l);
      } else {
        calls := calls[i := Synth(l)];
      }
    }

    // A call of `get` up to its first await.
    method Get(up: bool) returns (i: nat)
      requires Inv(State())
      modifies this
      ensures Inv(State()) && State() == Start(old(State()), up) && i == |old(calls)|
    {
      GetKeeps(State(), up);
      hide Inv, FreeToTake;
      i := |calls|;
      if clip {
        calls := calls + [Returned];
        return;
      }
      calls := calls + [Failed];
      if !up {
        return;
      }
      if table == None {
        table, locks := Some(|locks|), locks + [Lock(None, [])];
      }
      var l := table.value;
      if FreeToTake(locks[l]) {
        LookAgain(l, i);
      } else {
        locks := locks[l := locks[l].(queue := locks[l].queue + [Waiter(i, Idle)])];
        calls := calls[i := Waiting(l)];
        assert calls == old(calls) + [Waiting(l)];
      }
    }

    // A waiter's task runs again.
    method Awake(l: nat, k: nat)
      requires Inv(State()) && Enabled(State(), Resume(l, k))
      modifies this
      ensures Inv(State()) && State() == Do(old(State()), Resume(l, k))
    {
      assert LockOk(State(), l);
      ResumeKeeps(State(), l, k);
      hide Inv;
      var w := locks[l].queue[k];
      locks := locks[l := locks[l].(queue := Without(locks[l].queue, k))];
      if w.mark.Woken? {
        LookAgain(l, w.call);
      } else {
        calls := calls[w.call := Failed];
        if locks[l].holder.None? {
          WakeFirstOf(l);
        }
        assert locks == Wake(old(State()), l, k).locks;
      }
    }

    // What the holder's call does at each of its awaits.
    method Go(step: Step, i: nat)
      requires Inv(State()) && Enabled(State(), step) && ByHolder(step, i)
      modifies this
      ensures Inv(State()) && State() == Do(old(State()), step)
    {
      HeldStep(State(), step, i);
      InvShape(State());
      hide Inv;
      if calls[i].Stray? {
        clip, calls := clip || step.Land?, calls[i := Failed];
        return;
      }
      var on := calls[i].on;
      if step.Answered? && !step.a.Error? {
        calls := calls[i := if step.a.Ogg? then Write(on, false) else Convert(on)];
      } else if step.Converted? && step.ok {
        calls := calls[i := Write(on, false)];
      } else if step.Land? {
        clip, calls := true, calls[i := Write(on, true)];
      } else {
        ReleaseLock(on);
        if step.Finish? {
          table, calls := None, calls[i := Returned];
        } else {
          calls := calls[i := if step.Cancel? && calls[i].Write? && !calls[i].landed then Stray else Failed];
        }
      }
    }
  }
}
