// patch_room_metadata as a protocol: any number of clients, each taking the
// room's lock, reading the document, changing its copy, writing it back and
// releasing the lock, in any interleaving and with failures at any point.  A
// write that a client gave up on may still land at the server, at any time.
module RoomPatch {
  import opened Wrappers

  // Where a client is inside patch_room_metadata.
  datatype Client<C, D> =
    | Out
    | Waiting(change: C, requireRoom: bool)       // polling the lock
    | Locked(change: C, requireRoom: bool)        // list_rooms sent
    | Served(change: C, requireRoom: bool, seen: Option<D>)  // the server answered
    | Writing(change: C, requireRoom: bool, seen: Option<D>, copy: D)  // update_room_metadata sent
    | Stored(change: C, requireRoom: bool, seen: Option<D>, copy: D)   // the server took it

  // One concluded change: what its call saw, the document that was there, what
  // it left, and whether it wrote.
  datatype Entry<C, D> = Entry(
    client: nat, change: C, requireRoom: bool, seen: Option<D>, before: D, after: D, wrote: bool)

  // A write sent by a client that timed out or was cancelled before the answer.
  datatype Stray<C, D> = Stray(client: nat, change: C, requireRoom: bool, seen: Option<D>, copy: D)

  // A call that returned.
  datatype Answer<C, D> = Answer(client: nat, change: C, requireRoom: bool, seen: Option<D>, result: Option<D>)

  // doc: the server's document, None while the room is not running
  datatype Room<C, D> = Room(
    doc: Option<D>, holder: Option<nat>, clients: map<nat, Client<C, D>>,
    abandoned: seq<Stray<C, D>>, log: seq<Entry<C, D>>, answers: seq<Answer<C, D>>)
  {
    function At(c: nat): Client<C, D> {
      if c in clients then clients[c] else Out
    }
    function Put(c: nat, pc: Client<C, D>): Room<C, D> {
      this.(clients := clients[c := pc])
    }
    function Free(c: nat): Room<C, D> {
      this.(clients := clients[c := Out], holder := None)
    }
    function Return(c: nat, change: C, requireRoom: bool, seen: Option<D>, result: Option<D>): Room<C, D> {
      Free(c).(answers := answers + [Answer(c, change, requireRoom, seen, result)])
    }
  }

  // apply runs a change on a document: the new document, and False to skip the write.
  datatype Patching<!C, !D> = Patching(empty: D, apply: (C, D) -> (D, bool))
  {
    function Current(doc: Option<D>): D {
      if doc.Some? then doc.value else empty
    }
  }

  datatype Step<C> =
    | Call(client: nat, change: C, requireRoom: bool)
    | Acquire(client: nat)
    | Serve(client: nat)      // the server answers list_rooms
    | Compute(client: nat)    // parse, change the copy, decide whether to write
    | Commit(client: nat)     // the server replaces the document
    | Release(client: nat)    // the write was acknowledged
    | Fail(client: nat)       // an exception or a cancellation at an await
    | Land(client: nat, k: nat)  // the server takes an abandoned write after all

  predicate Enabled<C, D>(r: Room<C, D>, step: Step<C>) {
    var pc := r.At(step.client);
    match step
    case Call(_, _, _) => pc.Out?
    case Acquire(_) => pc.Waiting? && r.holder.None?
    case Serve(_) => pc.Locked?
    case Compute(_) => pc.Served?
    case Commit(_) => pc.Writing?
    case Release(_) => pc.Stored?
    case Fail(_) => !pc.Out?
    case Land(c, k) => k < |r.abandoned| && r.abandoned[k].client == c
  }

  function Do<C, D>(p: Patching<C, D>, r: Room<C, D>, step: Step<C>): Room<C, D>
    requires Enabled(r, step)
  {
    var c := step.client;
    var pc := r.At(c);
    match step
    case Call(_, change, requireRoom) => r.Put(c, Waiting(change, requireRoom))
    case Acquire(_) => r.Put(c, Locked(pc.change, pc.requireRoom)).(holder := Some(c))
    case Serve(_) => r.Put(c, Served(pc.change, pc.requireRoom, r.doc))
    case Compute(_) =>
      if pc.seen.None? && pc.requireRoom then r.Return(c, pc.change, pc.requireRoom, pc.seen, None)
      else
        var current := p.Current(pc.seen);
        var (next, write) := p.apply(pc.change, current);
        if write then r.Put(c, Writing(pc.change, pc.requireRoom, pc.seen, next))
        else r.Return(c, pc.change, pc.requireRoom, pc.seen, Some(next)).(
               log := r.log + [Entry(c, pc.change, pc.requireRoom, pc.seen, current, next, false)])
    case Commit(_) =>
      r.Put(c, Stored(pc.change, pc.requireRoom, pc.seen, pc.copy)).(doc := Some(pc.copy),
        log := r.log + [Entry(c, pc.change, pc.requireRoom, pc.seen, p.Current(r.doc), pc.copy, true)])
    case Release(_) => r.Return(c, pc.change, pc.requireRoom, pc.seen, Some(pc.copy))
    case Fail(_) =>
      if pc.Waiting? then r.Put(c, Out)
      else if pc.Writing? then r.Free(c).(abandoned := r.abandoned + [Stray(c, pc.change, pc.requireRoom, pc.seen, pc.copy)])
      else r.Free(c)
    case Land(_, k) =>
      var s := r.abandoned[k];
      r.(doc := Some(s.copy), abandoned := r.abandoned[..k] + r.abandoned[k + 1..],
         log := r.log + [Entry(c, s.change, s.requireRoom, s.seen, p.Current(r.doc), s.copy, true)])
  }

  // The room after these steps, None if one of them was not possible.
  function Run<C, D>(p: Patching<C, D>, start: Option<D>, steps: seq<Step<C>>): Option<Room<C, D>>
  {
    if steps == [] then Some(Room(start, None, map[], [], [], []))
    else
      var r := Run(p, start, steps[..|steps| - 1]);
      if r.Some? && Enabled(r.value, steps[|steps| - 1]) then Some(Do(p, r.value, steps[|steps| - 1])) else None
  }

  // The document after the logged changes that wrote, one after the other.
  function Written<C, D>(p: Patching<C, D>, start: Option<D>, log: seq<Entry<C, D>>): Option<D> {
    if log == [] then start
    else
      var before := Written(p, start, log[..|log| - 1]);
      var last := log[|log| - 1];
      if last.wrote then Some(p.apply(last.change, p.Current(before)).0) else before
  }

  predicate Inside<C, D>(pc: Client<C, D>) {
    !pc.Out? && !pc.Waiting?
  }

  // The lock excludes, and the holder's copy is made of the document that is
  // still there.
  ghost predicate LockInv<C, D>(p: Patching<C, D>, r: Room<C, D>) {
    && (forall c: nat :: Inside(r.At(c)) <==> r.holder == Some(c))
    && (r.holder.Some? ==> CopyInv(p, r.doc, r.At(r.holder.value)))
  }

  ghost predicate CopyInv<C, D>(p: Patching<C, D>, doc: Option<D>, pc: Client<C, D>) {
    && (pc.Served? ==> pc.seen == doc)
    && (pc.Writing? ==> p.apply(pc.change, p.Current(doc)) == (pc.copy, true))
    && (pc.Stored? ==> doc == Some(pc.copy))
  }

  // The log explains the document.
  ghost predicate LogInv<C, D>(p: Patching<C, D>, start: Option<D>, doc: Option<D>, log: seq<Entry<C, D>>) {
    doc == Written(p, start, log) && Explained(p, start, log)
  }

  // Each change was applied to exactly what the changes before it left.
  ghost predicate Explained<C, D>(p: Patching<C, D>, start: Option<D>, log: seq<Entry<C, D>>) {
    forall k :: 0 <= k < |log| ==> EntryOk(p, Written(p, start, log[..k]), log[k])
  }

  ghost predicate EntryOk<C, D>(p: Patching<C, D>, doc: Option<D>, e: Entry<C, D>) {
    e.before == p.Current(doc) && p.apply(e.change, e.before) == (e.after, e.wrote)
  }

  ghost predicate Inv<C, D>(p: Patching<C, D>, start: Option<D>, r: Room<C, D>) {
    LockInv(p, r) && LogInv(p, start, r.doc, r.log)
  }

  lemma ExplainedMore<C, D>(p: Patching<C, D>, start: Option<D>, log: seq<Entry<C, D>>, e: Entry<C, D>)
    ensures Explained(p, start, log + [e]) <==> Explained(p, start, log) && EntryOk(p, Written(p, start, log), e)
  {
    var log' := log + [e];
    assert forall k :: 0 <= k < |log| ==> log'[..k] == log[..k] && log'[k] == log[k];
    assert log'[..|log|] == log && log'[|log|] == e;
    if Explained(p, start, log') {
      assert EntryOk(p, Written(p, start, log'[..|log|]), log'[|log|]);
      forall k | 0 <= k < |log| ensures EntryOk(p, Written(p, start, log[..k]), log[k]) {
        assert EntryOk(p, Written(p, start, log'[..k]), log'[k]);
      }
    }
  }

  // One more entry: the log still explains the document exactly when the entry
  // was made of the document that was there.
  lemma LogGrows<C, D>(p: Patching<C, D>, start: Option<D>, doc: Option<D>, log: seq<Entry<C, D>>, e: Entry<C, D>)
    requires LogInv(p, start, doc, log)
    ensures LogInv(p, start, if e.wrote then Some(e.after) else doc, log + [e]) <==> EntryOk(p, doc, e)
  {
    ExplainedMore(p, start, log, e);
    assert (log + [e])[..|log|] == log;
    hide Explained;
  }

  // The abandoned copy is what its change makes of the document that is there
  // now, and so is the copy of whoever is inside.
  ghost predicate Harmless<C, D>(p: Patching<C, D>, r: Room<C, D>, step: Step<C>)
    requires Enabled(r, step) && step.Land?
  {
    var s := r.abandoned[step.k];
    && p.apply(s.change, p.Current(r.doc)) == (s.copy, true)
    && (r.holder.Some? ==> CopyInv(p, Some(s.copy), r.At(r.holder.value)))
  }

  lemma LockStep<C, D>(p: Patching<C, D>, r: Room<C, D>, step: Step<C>)
    requires LockInv(p, r) && Enabled(r, step) && (step.Land? ==> Harmless(p, r, step))
    ensures LockInv(p, Do(p, r, step))
  {
    var c := step.client;
    var r' := Do(p, r, step);
    assert forall d: nat :: d != c ==> r'.At(d) == r.At(d);
    assert Inside(r.At(c)) <==> r.holder == Some(c);
  }

  // A late landing keeps the log right exactly when the change still makes that
  // copy of the document, and the whole invariant exactly when nobody inside
  // holds an older document either.
  lemma LandKeepsExactly<C, D>(p: Patching<C, D>, start: Option<D>, r: Room<C, D>, step: Step<C>)
    requires Inv(p, start, r) && Enabled(r, step) && step.Land?
    ensures var r', s := Do(p, r, step), r.abandoned[step.k];
      && (LogInv(p, start, r'.doc, r'.log) <==> p.apply(s.change, p.Current(r.doc)) == (s.copy, true))
      && (Inv(p, start, r') <==> Harmless(p, r, step))
  {
    var r' := Do(p, r, step);
    LogGrows(p, start, r.doc, r.log, r'.log[|r.log|]);
    assert forall d: nat :: r'.At(d) == r.At(d);
    hide LogInv, Inside, CopyInv;
  }

  // The step stores, or concludes from, something that was not made of the
  // document that is there.
  ghost predicate Stale<C, D>(p: Patching<C, D>, r: Room<C, D>, step: Step<C>)
    requires Enabled(r, step)
  {
    var pc := r.At(step.client);
    match step
    case Land(_, k) => p.apply(r.abandoned[k].change, p.Current(r.doc)) != (r.abandoned[k].copy, true)
    case Commit(_) => p.apply(pc.change, p.Current(r.doc)) != (pc.copy, true)
    case Compute(_) =>
      !(pc.seen.None? && pc.requireRoom) && !p.apply(pc.change, p.Current(pc.seen)).1 && p.Current(pc.seen) != p.Current(r.doc)
    case _ => false
  }

  // What a step adds to the log, and when that is stale.
  lemma LogOf<C, D>(p: Patching<C, D>, r: Room<C, D>, step: Step<C>)
    requires Enabled(r, step)
    ensures var r' := Do(p, r, step);
      if |r'.log| == |r.log| then r'.log == r.log && r'.doc == r.doc && !Stale(p, r, step)
      else
        && |r'.log| == |r.log| + 1 && r'.log == r.log + [r'.log[|r.log|]]
        && var e := r'.log[|r.log|];
           r'.doc == (if e.wrote then Some(e.after) else r.doc) && (EntryOk(p, r.doc, e) <==> !Stale(p, r, step))
  {
  }

  // Under the lock nothing is stale but a landing.
  lemma NotStale<C, D>(p: Patching<C, D>, r: Room<C, D>, step: Step<C>)
    requires LockInv(p, r) && Enabled(r, step) && (step.Land? ==> Harmless(p, r, step))
    ensures !Stale(p, r, step)
  {
    assert Inside(r.At(step.client)) <==> r.holder == Some(step.client);
  }

  lemma StepKeeps<C, D>(p: Patching<C, D>, start: Option<D>, r: Room<C, D>, step: Step<C>)
    requires Inv(p, start, r) && Enabled(r, step) && (step.Land? ==> Harmless(p, r, step))
    ensures Inv(p, start, Do(p, r, step))
  {
    hide LockInv, LogInv, Do, Stale, Harmless;
    LockStep(p, r, step);
    NotStale(p, r, step);
    LogOf(p, r, step);
    var r' := Do(p, r, step);
    if |r'.log| > |r.log| {
      LogGrows(p, start, r.doc, r.log, r'.log[|r.log|]);
    }
  }

  // Whatever landed late in a run was harmless; so it is if nothing did.
  ghost predicate LandsHarmlessly<C, D>(p: Patching<C, D>, start: Option<D>, steps: seq<Step<C>>)
    requires Run(p, start, steps).Some?
  {
    steps != [] ==>
      var front, last := steps[..|steps| - 1], steps[|steps| - 1];
      LandsHarmlessly(p, start, front) && (last.Land? ==> Harmless(p, Run(p, start, front).value, last))
  }

  lemma {:induction false} InvHolds<C, D>(p: Patching<C, D>, start: Option<D>, steps: seq<Step<C>>)
    requires Run(p, start, steps).Some? && LandsHarmlessly(p, start, steps)
    ensures Inv(p, start, Run(p, start, steps).value)
  {
    if steps != [] {
      InvHolds(p, start, steps[..|steps| - 1]);
      StepKeeps(p, start, Run(p, start, steps[..|steps| - 1]).value, steps[|steps| - 1]);
    }
  }

  lemma {:induction false} NothingLands<C, D>(p: Patching<C, D>, start: Option<D>, steps: seq<Step<C>>)
    requires Run(p, start, steps).Some? && forall k :: 0 <= k < |steps| ==> !steps[k].Land?
    ensures LandsHarmlessly(p, start, steps)
  {
    if steps != [] {
      NothingLands(p, start, steps[..|steps| - 1]);
    }
  }

  // No update is lost: in every interleaving in which no abandoned write lands
  // harmfully, the document is the fold, in lock order, of the changes that
  // wrote, each applied to exactly what the one before it left; and two clients
  // are never inside together.
  lemma NoLostUpdate<C, D>(p: Patching<C, D>, start: Option<D>, steps: seq<Step<C>>)
    requires Run(p, start, steps).Some? && LandsHarmlessly(p, start, steps)
    ensures var r := Run(p, start, steps).value;
      && r.doc == Written(p, start, r.log)
      && (forall k :: 0 <= k < |r.log| ==>
            EntryOk(p, Written(p, start, r.log[..k]), r.log[k]))
      && (forall c: nat, d: nat :: Inside(r.At(c)) && Inside(r.At(d)) ==> c == d)
  {
    InvHolds(p, start, steps);
  }

  // ------------------------------------------------------------ late landings

  ghost predicate NeverStale<C, D>(p: Patching<C, D>, start: Option<D>, steps: seq<Step<C>>)
    requires Run(p, start, steps).Some?
  {
    steps != [] ==>
      var front := steps[..|steps| - 1];
      NeverStale(p, start, front) && !Stale(p, Run(p, start, front).value, steps[|steps| - 1])
  }

  // In any run whatever, an update was lost exactly when a stale step was taken.
  lemma {:induction false} LostExactly<C, D>(p: Patching<C, D>, start: Option<D>, steps: seq<Step<C>>)
    requires Run(p, start, steps).Some?
    ensures var r := Run(p, start, steps).value;
      && (LogInv(p, start, r.doc, r.log) <==> NeverStale(p, start, steps))
      && (Explained(p, start, r.log) ==> LogInv(p, start, r.doc, r.log))
  {
    if steps != [] {
      var front, last := steps[..|steps| - 1], steps[|steps| - 1];
      LostExactly(p, start, front);
      LogStep(p, start, Run(p, start, front).value, last);
      hide LogInv, Stale, Do, Written, Explained;
    }
  }

  // That takes a landing that was harmful.
  lemma HarmlessNeverStale<C, D>(p: Patching<C, D>, start: Option<D>, steps: seq<Step<C>>)
    requires Run(p, start, steps).Some? && LandsHarmlessly(p, start, steps)
    ensures NeverStale(p, start, steps)
  {
    InvHolds(p, start, steps);
    LostExactly(p, start, steps);
  }

  lemma LogStep<C, D>(p: Patching<C, D>, start: Option<D>, r: Room<C, D>, step: Step<C>)
    requires Enabled(r, step) && (Explained(p, start, r.log) ==> LogInv(p, start, r.doc, r.log))
    ensures var r' := Do(p, r, step);
      && (LogInv(p, start, r'.doc, r'.log) <==> LogInv(p, start, r.doc, r.log) && !Stale(p, r, step))
      && (Explained(p, start, r'.log) ==> LogInv(p, start, r'.doc, r'.log))
  {
    var r' := Do(p, r, step);
    LogOf(p, r, step);
    if r'.log != r.log {
      var e := r'.log[|r.log|];
      ExplainedMore(p, start, r.log, e);
      if LogInv(p, start, r.doc, r.log) {
        LogGrows(p, start, r.doc, r.log, e);
      }
      hide Written, Explained, Do, Stale;
    }
  }

  // ------------------------------------------------------------ what a call may do

  // What a call makes of what it saw; it may not, if it requires the room and
  // saw none.
  ghost predicate Makes<C, D>(p: Patching<C, D>, change: C, requireRoom: bool, seen: Option<D>, made: D, write: bool) {
    && (requireRoom ==> seen.Some?)
    && p.apply(change, p.Current(seen)) == (made, write)
  }

  ghost predicate AnswerOk<C, D>(p: Patching<C, D>, log: seq<Entry<C, D>>, a: Answer<C, D>) {
    if a.requireRoom && a.seen.None? then a.result.None?
    else
      && a.result == Some(p.apply(a.change, p.Current(a.seen)).0)
      && Concluded(log, a)
  }

  ghost predicate Concluded<C, D>(log: seq<Entry<C, D>>, a: Answer<C, D>) {
    exists k :: 0 <= k < |log| && Concludes(log[k], a)
  }

  ghost predicate Concludes<C, D>(e: Entry<C, D>, a: Answer<C, D>) {
    && e.client == a.client && e.change == a.change && e.requireRoom == a.requireRoom && e.seen == a.seen
    && a.result == Some(e.after)
  }

  ghost predicate Sourced<C, D>(p: Patching<C, D>, r: Room<C, D>) {
    && (forall c: nat :: ClientMakes(p, r.log, c, r.At(c)))
    && (forall k :: 0 <= k < |r.abandoned| ==>
          var s := r.abandoned[k]; Makes(p, s.change, s.requireRoom, s.seen, s.copy, true))
    && (forall k :: 0 <= k < |r.log| ==>
          var e := r.log[k]; Makes(p, e.change, e.requireRoom, e.seen, e.after, e.wrote))
    && (forall k :: 0 <= k < |r.answers| ==> AnswerOk(p, r.log, r.answers[k]))
  }

  ghost predicate ClientMakes<C, D>(p: Patching<C, D>, log: seq<Entry<C, D>>, c: nat, pc: Client<C, D>) {
    match pc
    case Writing(change, requireRoom, seen, copy) => Makes(p, change, requireRoom, seen, copy, true)
    case Stored(change, requireRoom, seen, copy) =>
      && Makes(p, change, requireRoom, seen, copy, true)
      && Concluded(log, Answer(c, change, requireRoom, seen, Some(copy)))
    case _ => true
  }

  lemma ConcludedStays<C, D>(p: Patching<C, D>, log: seq<Entry<C, D>>, more: seq<Entry<C, D>>)
    ensures forall a :: AnswerOk(p, log, a) ==> AnswerOk(p, log + more, a)
    ensures forall c: nat, pc :: ClientMakes(p, log, c, pc) ==> ClientMakes(p, log + more, c, pc)
  {
    forall a | Concluded(log, a) ensures Concluded(log + more, a) {
      var k :| 0 <= k < |log| && Concludes(log[k], a);
      assert (log + more)[k] == log[k];
    }
  }

  // In every run whatever: whoever writes, every abandoned write and every entry
  // of the log is what its call makes of what it saw, so none is of a call that
  // required the room and saw none; such a call answers None, and every other
  // that answers concluded its change with an entry and answers what that left.
  lemma {:induction false} SourcedAlways<C, D>(p: Patching<C, D>, start: Option<D>, steps: seq<Step<C>>)
    requires Run(p, start, steps).Some?
    ensures Sourced(p, Run(p, start, steps).value)
  {
    if steps != [] {
      SourcedAlways(p, start, steps[..|steps| - 1]);
      SourcedStep(p, Run(p, start, steps[..|steps| - 1]).value, steps[|steps| - 1]);
    }
  }

  lemma SourcedStep<C, D>(p: Patching<C, D>, r: Room<C, D>, step: Step<C>)
    requires Sourced(p, r) && Enabled(r, step)
    ensures Sourced(p, Do(p, r, step))
  {
    var c := step.client;
    var r' := Do(p, r, step);
    assert ClientMakes(p, r.log, c, r.At(c));
    var more := r'.log[|r.log|..];
    assert r'.log == r.log + more;
    ConcludedStays(p, r.log, more);
    if |more| > 0 && !step.Land? {
      var e := r'.log[|r.log|];
      assert Concludes(e, Answer(c, e.change, e.requireRoom, e.seen, Some(e.after)));
      assert Concluded(r'.log, Answer(c, e.change, e.requireRoom, e.seen, Some(e.after)));
    }
    hide Concluded;
    forall d: nat ensures ClientMakes(p, r'.log, d, r'.At(d)) {
      assert d != c ==> r'.At(d) == r.At(d);
      assert ClientMakes(p, r.log, d, r.At(d));
    }
  }

  // A call that has read applies its change, unless it requires the room and saw
  // none: then it is over, the lock is free, and nothing else has changed.
  lemma ComputeMeans<C, D>(p: Patching<C, D>, r: Room<C, D>, c: nat)
    requires Enabled(r, Compute(c)) && LockInv(p, r)
    ensures var pc, r' := r.At(c), Do(p, r, Compute(c));
      && r'.doc == r.doc && r'.abandoned == r.abandoned
      && (forall d: nat :: d != c ==> r'.At(d) == r.At(d))
      && (if pc.requireRoom && pc.seen.None? then r'.At(c).Out? && r'.holder.None? && r'.log == r.log
          else if p.apply(pc.change, p.Current(pc.seen)).1 then r'.At(c).Writing? && r'.holder == Some(c) && r'.log == r.log
          else r'.At(c).Out? && r'.holder.None? && |r'.log| == |r.log| + 1)
  {
    assert Inside(r.At(c));
  }

  // A property that every change keeps; every document about has it.
  ghost predicate Kept<C(!new), D(!new)>(p: Patching<C, D>, ok: D -> bool) {
    forall change: C, d: D {:trigger p.apply(change, d)} :: ok(d) ==> ok(p.apply(change, d).0)
  }

  ghost predicate ClientOk<C, D>(p: Patching<C, D>, ok: D -> bool, pc: Client<C, D>) {
    match pc
    case Served(_, _, seen) => ok(p.Current(seen))
    case Writing(_, _, _, copy) => ok(copy)
    case Stored(_, _, _, copy) => ok(copy)
    case _ => true
  }

  ghost predicate AllOk<C, D>(p: Patching<C, D>, ok: D -> bool, r: Room<C, D>) {
    && ok(p.Current(r.doc))
    && (forall c: nat :: ClientOk(p, ok, r.At(c)))
    && (forall k :: 0 <= k < |r.abandoned| ==> ok(r.abandoned[k].copy))
  }

  lemma OkStep<C(!new), D(!new)>(p: Patching<C, D>, ok: D -> bool, r: Room<C, D>, step: Step<C>)
    requires Kept(p, ok) && AllOk(p, ok, r) && Enabled(r, step)
    ensures AllOk(p, ok, Do(p, r, step))
  {
    var c := step.client;
    var r' := Do(p, r, step);
    assert ClientOk(p, ok, r.At(c));
    forall d: nat ensures ClientOk(p, ok, r'.At(d)) {
      assert d != c ==> r'.At(d) == r.At(d);
      assert ClientOk(p, ok, r.At(d));
    }
  }

  // Even updates that are lost leave a document with the property, whatever lands when.
  lemma {:induction false} OkAlways<C(!new), D(!new)>(p: Patching<C, D>, ok: D -> bool, start: Option<D>, steps: seq<Step<C>>)
    requires Run(p, start, steps).Some? && Kept(p, ok) && ok(p.Current(start))
    ensures AllOk(p, ok, Run(p, start, steps).value)
  {
    if steps != [] {
      OkAlways(p, ok, start, steps[..|steps| - 1]);
      OkStep(p, ok, Run(p, start, steps[..|steps| - 1]).value, steps[|steps| - 1]);
    }
  }

  lemma Then<C, D>(p: Patching<C, D>, start: Option<D>, steps: seq<Step<C>>, r: Room<C, D>, step: Step<C>)
      returns (steps': seq<Step<C>>, r': Room<C, D>)
    requires Run(p, start, steps) == Some(r) && Enabled(r, step)
    ensures steps' == steps + [step] && r' == Do(p, r, step) && Run(p, start, steps') == Some(r')
  {
    steps', r' := steps + [step], Do(p, r, step);
    assert steps'[..|steps|] == steps;
  }

  // A client writes change `a` and gives up before the answer; another client
  // patches with `b` and returns; then the abandoned copy lands.  The document
  // is that copy, and b is lost unless a makes the same copy of what b left.
  lemma LateLanding<C, D>(p: Patching<C, D>, d: D, a: C, b: C) returns (steps: seq<Step<C>>, r: Room<C, D>)
    requires p.apply(a, d).1 && p.apply(b, d).1
    ensures Run(p, Some(d), steps) == Some(r)
    ensures r.doc == Some(p.apply(a, d).0)
    ensures r.log == [Entry(2, b, false, Some(d), d, p.apply(b, d).0, true),
                      Entry(1, a, false, Some(d), p.apply(b, d).0, p.apply(a, d).0, true)]
    ensures LogInv(p, Some(d), r.doc, r.log) <==> p.apply(a, p.apply(b, d).0) == (p.apply(a, d).0, true)
  {
    hide Run, Written;
    var x, y := p.apply(a, d).0, p.apply(b, d).0;
    steps, r := Begin(p, Some(d));
    steps, r := ToWriting(p, Some(d), steps, r, 1, a);
    assert r.At(2).Out?;
    steps, r := Then(p, Some(d), steps, r, Fail(1));
    assert r.doc == Some(d) && r.holder.None? && r.At(2).Out?;
    steps, r := ToWriting(p, Some(d), steps, r, 2, b);
    steps, r := Then(p, Some(d), steps, r, Commit(2));
    steps, r := Then(p, Some(d), steps, r, Release(2));
    assert r.abandoned == [Stray(1, a, false, Some(d), x)] && r.doc == Some(y) && r.log == [Entry(2, b, false, Some(d), d, y, true)];
    OneEntry(p, Some(d), r.log[0]);
    LogGrows(p, Some(d), r.doc, r.log, Entry(1, a, false, Some(d), y, x, true));
    steps, r := Then(p, Some(d), steps, r, Land(1, 0));
  }

  lemma Begin<C, D>(p: Patching<C, D>, start: Option<D>) returns (steps: seq<Step<C>>, r: Room<C, D>)
    ensures Run(p, start, steps) == Some(r) && r == Room(start, None, map[], [], [], [])
  {
    steps, r := [], Room(start, None, map[], [], [], []);
  }

  lemma OneEntry<C, D>(p: Patching<C, D>, start: Option<D>, e: Entry<C, D>)
    requires EntryOk(p, start, e) && e.wrote
    ensures LogInv(p, start, Some(e.after), [e]) && Written(p, start, [e]) == Some(e.after)
  {
    LogGrows(p, start, start, [], e);
    assert [] + [e] == [e] && [e][..0] == [];
  }

  // A client alone with the lock gets as far as sending its write.
  lemma ToWriting<C, D>(p: Patching<C, D>, start: Option<D>, before: seq<Step<C>>, r0: Room<C, D>, c: nat, change: C)
      returns (steps: seq<Step<C>>, r: Room<C, D>)
    requires Run(p, start, before) == Some(r0) && r0.At(c).Out? && r0.holder.None?
    requires p.apply(change, p.Current(r0.doc)).1
    ensures Run(p, start, steps) == Some(r)
    ensures r == r0.(clients := r.clients, holder := Some(c))
    ensures r.At(c) == Writing(change, false, r0.doc, p.apply(change, p.Current(r0.doc)).0)
    ensures forall other: nat :: other != c ==> r.At(other) == r0.At(other)
  {
    hide Run;
    steps, r := Then(p, start, before, r0, Call(c, change, false));
    steps, r := Then(p, start, steps, r, Acquire(c));
    steps, r := Then(p, start, steps, r, Serve(c));
    steps, r := Then(p, start, steps, r, Compute(c));
  }

  // The document after all logged changes, skipped writes included.
  function All<C, D>(p: Patching<C, D>, start: D, log: seq<Entry<C, D>>): D {
    if log == [] then start
    else p.apply(log[|log| - 1].change, All(p, start, log[..|log| - 1])).0
  }

  // A property of documents that every change keeps, and under which a change
  // that skips its write really changed nothing.
  ghost predicate Honest<C(!new), D(!new)>(p: Patching<C, D>, ok: D -> bool) {
    forall change: C, d: D {:trigger p.apply(change, d)} :: ok(d) ==>
      var (next, write) := p.apply(change, d); ok(next) && (!write ==> next == d)
  }

  // Then skipping loses nothing either: the document is the fold of all
  // changes that were computed, in lock order.
  lemma {:induction false} SkippingLosesNothing<C(!new), D(!new)>(
      p: Patching<C, D>, ok: D -> bool, start: Option<D>, log: seq<Entry<C, D>>)
    requires Honest(p, ok) && ok(p.Current(start))
    requires forall k :: 0 <= k < |log| ==> EntryOk(p, Written(p, start, log[..k]), log[k])
    ensures p.Current(Written(p, start, log)) == All(p, p.Current(start), log)
    ensures ok(All(p, p.Current(start), log))
  {
    if log != [] {
      var front := log[..|log| - 1];
      forall k | 0 <= k < |front|
        ensures EntryOk(p, Written(p, start, front[..k]), front[k])
      {
        assert front[..k] == log[..k] && front[k] == log[k];
      }
      SkippingLosesNothing(p, ok, start, front);
      assert front == log[..|front|];
    }
  }
}
