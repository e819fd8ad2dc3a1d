// The single STT worker: one thread submits, one thread decodes, both share
// the queue under a lock.  Each method below is one section that runs under
// the lock, or one step between two sections.
module Worker {
  import opened Wrappers

  datatype Item = Item(id: nat, session: string, enqueuedAt: real)

  ghost predicate Sorted(queue: seq<Item>) {
    forall i, j :: 0 <= i < j < |queue| ==> queue[i].enqueuedAt <= queue[j].enqueuedAt
  }

  // ------------------------------------------------------------ backlog

  // None asks about all sessions.
  predicate Concerns(it: Item, session: Option<string>) {
    session.None? || it.session == session.value
  }

  // The first queued item of the session.
  function FirstOf(queue: seq<Item>, session: Option<string>): Option<Item> {
    if queue == [] then None
    else if Concerns(queue[0], session) then Some(queue[0])
    else FirstOf(queue[1..], session)
  }

  function Backlog(now: real, inflight: Option<Item>, queue: seq<Item>, session: Option<string>): real {
    var flying := if inflight.Some? && Concerns(inflight.value, session) then Some(inflight.value.enqueuedAt) else None;
    var first := FirstOf(queue, session);
    var oldest :=
      if first.None? then flying
      else if flying.None? || first.value.enqueuedAt < flying.value then Some(first.value.enqueuedAt)
      else flying;
    if oldest.Some? && now - oldest.value > 0.0 then now - oldest.value else 0.0
  }

  ghost predicate Unfinished(it: Item, inflight: Option<Item>, queue: seq<Item>, session: Option<string>) {
    Concerns(it, session) && (inflight == Some(it) || it in queue)
  }

  lemma {:induction false} FirstIsOldest(queue: seq<Item>, session: Option<string>)
    requires Sorted(queue)
    ensures var f := FirstOf(queue, session);
      if f.None? then forall it :: it in queue ==> !Concerns(it, session)
      else f.value in queue && Concerns(f.value, session)
           && forall it :: it in queue && Concerns(it, session) ==> f.value.enqueuedAt <= it.enqueuedAt
  {
    if queue != [] {
      assert queue == [queue[0]] + queue[1..];
      if !Concerns(queue[0], session) {
        FirstIsOldest(queue[1..], session);
      } else {
        forall it | it in queue ensures queue[0].enqueuedAt <= it.enqueuedAt {
          var k :| 0 <= k < |queue| && queue[k] == it;
        }
      }
    }
  }

  // The measured backlog is the age of the oldest unfinished item of the
  // session, zero if there is none: looking at the first match is enough.
  lemma BacklogIsOldestAge(now: real, inflight: Option<Item>, queue: seq<Item>, session: Option<string>)
    requires Sorted(queue)
    requires forall it :: Unfinished(it, inflight, queue, None) ==> it.enqueuedAt <= now
    ensures var b := Backlog(now, inflight, queue, session);
      && (forall it :: Unfinished(it, inflight, queue, session) ==> now - it.enqueuedAt <= b)
      && ((exists it :: Unfinished(it, inflight, queue, session) && now - it.enqueuedAt == b)
          || (b == 0.0 && forall it :: !Unfinished(it, inflight, queue, session)))
  {
    FirstIsOldest(queue, session);
    var f := FirstOf(queue, session);
    if f.Some? {
      assert Unfinished(f.value, inflight, queue, None) && Unfinished(f.value, inflight, queue, session);
    }
    if inflight.Some? && Concerns(inflight.value, session) {
      assert Unfinished(inflight.value, inflight, queue, None) && Unfinished(inflight.value, inflight, queue, session);
    }
  }

  // ------------------------------------------------------------ degrading

  function NextDegraded(degraded: bool, backlog: real, above: real, below: real): bool {
    if !degraded && backlog > above then true
    else if degraded && backlog < below then false
    else degraded
  }

  function Degraded(history: seq<real>, above: real, below: real): bool {
    if history == [] then false
    else NextDegraded(Degraded(history[..|history| - 1], above, below), history[|history| - 1], above, below)
  }

  // Degraded exactly when some measured backlog exceeded `above` and none
  // since fell under `below`.
  lemma {:induction false} DegradedMeans(history: seq<real>, above: real, below: real)
    requires below <= above
    ensures Degraded(history, above, below) <==>
      exists i :: 0 <= i < |history| && history[i] > above && forall j :: i < j < |history| ==> history[j] >= below
  {
    if history != [] {
      var front, last := history[..|history| - 1], history[|history| - 1];
      DegradedMeans(front, above, below);
      if Degraded(front, above, below) && last >= below {
        var i :| 0 <= i < |front| && front[i] > above && forall j :: i < j < |front| ==> front[j] >= below;
        assert history[i] > above && forall j :: i < j < |history| ==> history[j] >= below;
      } else if last > above {
        assert history[|history| - 1] > above;
      }
      if i :| 0 <= i < |history| && history[i] > above && forall j :: i < j < |history| ==> history[j] >= below {
        if i < |front| {
          assert front[i] > above && forall j :: i < j < |front| ==> front[j] >= below;
        }
      }
    }
  }

  // ------------------------------------------------------------ where items are

  // Dropping: taken off the queue, not reported yet.
  datatype Fate = Waiting | InFlight | Dropping | Dropped | Answered | Cancelled

  function Ids(items: seq<Item>): set<nat> {
    set it | it in items :: it.id
  }

  function Mark(fates: seq<Fate>, ids: set<nat>, fate: Fate): (r: seq<Fate>)
    ensures |r| == |fates|
    ensures forall i :: 0 <= i < |r| ==> r[i] == if i in ids then fate else fates[i]
  {
    seq(|fates|, i requires 0 <= i < |fates| => if i in ids then fate else fates[i])
  }

  // A list of submitted items, in order of submission, all with this fate.
  ghost predicate Listed(items: seq<Item>, submitted: seq<Item>, fates: seq<Fate>, fate: Fate) {
    && |fates| == |submitted|
    && (forall a, b :: 0 <= a < b < |items| ==> items[a].id < items[b].id)
    && (forall a :: 0 <= a < |items| ==> items[a].id < |submitted|)
    && (forall a :: 0 <= a < |items| ==> submitted[items[a].id] == items[a] && fates[items[a].id] == fate)
  }

  lemma ListedSorted(items: seq<Item>, submitted: seq<Item>, fates: seq<Fate>, fate: Fate)
    requires Listed(items, submitted, fates, fate) && Sorted(submitted)
    ensures Sorted(items)
  {
  }

  lemma ListedElsewhere(items: seq<Item>, submitted: seq<Item>, fates: seq<Fate>, fate: Fate, ids: set<nat>, other: Fate)
    requires Listed(items, submitted, fates, fate) && Ids(items) !! ids
    ensures Listed(items, submitted, Mark(fates, ids, other), fate)
  {
    forall a | 0 <= a < |items| ensures items[a].id !in ids {
      assert items[a] in items;
    }
  }

  lemma ListedMarked(items: seq<Item>, submitted: seq<Item>, fates: seq<Fate>, fate: Fate, ids: set<nat>, other: Fate)
    requires Listed(items, submitted, fates, fate) && Ids(items) <= ids
    ensures Listed(items, submitted, Mark(fates, ids, other), other)
  {
    forall a | 0 <= a < |items| ensures items[a].id in ids {
      assert items[a] in items;
    }
  }

  lemma ListedSplit(x: seq<Item>, y: seq<Item>, submitted: seq<Item>, fates: seq<Fate>, fate: Fate)
    requires Listed(x + y, submitted, fates, fate)
    ensures Listed(x, submitted, fates, fate) && Listed(y, submitted, fates, fate)
    ensures Ids(x) !! Ids(y) && Ids(x + y) == Ids(x) + Ids(y)
  {
    var z := x + y;
    assert forall a :: 0 <= a < |x| ==> x[a] == z[a];
    assert forall b :: 0 <= b < |y| ==> y[b] == z[|x| + b];
    forall it | it in z ensures it in x || it in y {
    }
  }

  // Different fates, different items.
  lemma ListedApart(x: seq<Item>, y: seq<Item>, submitted: seq<Item>, fates: seq<Fate>, f: Fate, g: Fate)
    requires Listed(x, submitted, fates, f) && Listed(y, submitted, fates, g) && f != g
    ensures Ids(x) !! Ids(y)
  {
  }

  // Who holds what: the queue, the two threads' lists of drops, the item in flight.
  datatype Places = Places(queue: seq<Item>, drops: seq<Item>, moreDrops: seq<Item>, inflight: Option<Item>, answered: bool)

  // Every submitted item is in exactly the place its fate says.
  ghost predicate OneFate(submitted: seq<Item>, fates: seq<Fate>, p: Places) {
    && |fates| == |submitted|
    && Listed(p.queue, submitted, fates, Waiting)
    && Listed(p.drops, submitted, fates, Dropping)
    && Listed(p.moreDrops, submitted, fates, Dropping)
    && Ids(p.drops) !! Ids(p.moreDrops)
    && (p.answered ==> p.inflight.Some?)
    && (p.inflight.Some? ==> Listed([p.inflight.value], submitted, fates, if p.answered then Answered else InFlight))
    && (forall i :: 0 <= i < |fates| ==>
          match fates[i]
          case Waiting => i in Ids(p.queue)
          case Dropping => i in Ids(p.drops) || i in Ids(p.moreDrops)
          case InFlight => p.inflight.Some? && !p.answered && p.inflight.value.id == i
          case _ => true)
  }

  // ------------------------------------------------------------ steps on values

  lemma ListedStays(items: seq<Item>, submitted: seq<Item>, fates: seq<Fate>, fate: Fate, item: Item)
    requires Listed(items, submitted, fates, fate) && |fates| == |submitted|
    ensures Listed(items, submitted + [item], fates + [Waiting], fate)
  {
  }

  lemma ListedMore(queue: seq<Item>, submitted: seq<Item>, fates: seq<Fate>, item: Item)
    requires Listed(queue, submitted, fates, Waiting) && |fates| == |submitted| && item.id == |submitted|
    ensures Listed(queue + [item], submitted + [item], fates + [Waiting], Waiting)
    ensures Ids(queue + [item]) == Ids(queue) + {item.id}
  {
    assert forall it :: it in queue + [item] <==> it in queue || it == item;
  }

  lemma AppendStep(submitted: seq<Item>, fates: seq<Fate>, p: Places, item: Item)
    requires OneFate(submitted, fates, p) && item.id == |submitted|
    ensures OneFate(submitted + [item], fates + [Waiting], p.(queue := p.queue + [item]))
  {
    ListedMore(p.queue, submitted, fates, item);
    ListedStays(p.drops, submitted, fates, Dropping, item);
    ListedStays(p.moreDrops, submitted, fates, Dropping, item);
    if p.inflight.Some? {
      ListedStays([p.inflight.value], submitted, fates, if p.answered then Answered else InFlight, item);
    }
    hide Listed, Ids;
  }

  // Some items at the front of the queue are dropped by one of the threads.
  lemma DropStep(submitted: seq<Item>, fates: seq<Fate>, p: Places, gone: seq<Item>, kept: seq<Item>, first: bool)
    requires OneFate(submitted, fates, p) && p.queue == gone + kept
    requires (if first then p.drops else p.moreDrops) == []
    ensures OneFate(submitted, Mark(fates, Ids(gone), Dropping),
                    if first then p.(queue := kept, drops := gone) else p.(queue := kept, moreDrops := gone))
  {
    ListedSplit(gone, kept, submitted, fates, Waiting);
    var other := if first then p.moreDrops else p.drops;
    ListedApart(gone, other, submitted, fates, Waiting, Dropping);
    ListedElsewhere(kept, submitted, fates, Waiting, Ids(gone), Dropping);
    ListedElsewhere(other, submitted, fates, Dropping, Ids(gone), Dropping);
    ListedMarked(gone, submitted, fates, Waiting, Ids(gone), Dropping);
    if p.inflight.Some? {
      var f := if p.answered then Answered else InFlight;
      ListedApart(gone, [p.inflight.value], submitted, fates, Waiting, f);
      ListedElsewhere([p.inflight.value], submitted, fates, f, Ids(gone), Dropping);
    }
  }

  lemma ReportStep(submitted: seq<Item>, fates: seq<Fate>, p: Places, first: bool)
    requires OneFate(submitted, fates, p)
    requires (if first then p.drops else p.moreDrops) != []
    ensures var drops := if first then p.drops else p.moreDrops;
      && drops[0].id < |fates| && fates[drops[0].id] == Dropping
      && OneFate(submitted, Mark(fates, {drops[0].id}, Dropped),
                 if first then p.(drops := drops[1..]) else p.(moreDrops := drops[1..]))
  {
    var drops := if first then p.drops else p.moreDrops;
    var other := if first then p.moreDrops else p.drops;
    var it := drops[0];
    assert drops == [it] + drops[1..];
    ListedSplit([it], drops[1..], submitted, fates, Dropping);
    assert Ids([it]) == {it.id};
    assert it in drops;
    ListedElsewhere(drops[1..], submitted, fates, Dropping, {it.id}, Dropped);
    ListedElsewhere(other, submitted, fates, Dropping, {it.id}, Dropped);
    ListedApart(p.queue, [it], submitted, fates, Waiting, Dropping);
    ListedElsewhere(p.queue, submitted, fates, Waiting, {it.id}, Dropped);
    if p.inflight.Some? {
      var f := if p.answered then Answered else InFlight;
      ListedApart([p.inflight.value], [it], submitted, fates, f, Dropping);
      ListedElsewhere([p.inflight.value], submitted, fates, f, {it.id}, Dropped);
    }
  }

  // What a listed item's fate is.
  lemma ListedHas(items: seq<Item>, submitted: seq<Item>, fates: seq<Fate>, fate: Fate, it: Item)
    requires Listed(items, submitted, fates, fate) && it in items
    ensures it.id < |fates| && fates[it.id] == fate
  {
  }

  lemma PopStep(submitted: seq<Item>, fates: seq<Fate>, p: Places)
    requires OneFate(submitted, fates, p) && p.queue != [] && p.inflight.None?
    ensures var it := p.queue[0];
      && it.id < |fates| && fates[it.id] == Waiting
      && OneFate(submitted, Mark(fates, {it.id}, InFlight), p.(queue := p.queue[1..], inflight := Some(it)))
  {
    hide Listed;
    var it, rest := p.queue[0], p.queue[1..];
    assert p.queue == [it] + rest;
    ListedHas(p.queue, submitted, fates, Waiting, it);
    ListedSplit([it], rest, submitted, fates, Waiting);
    assert Ids([it]) == {it.id} && Ids(p.queue) == {it.id} + Ids(rest);
    ListedMarked([it], submitted, fates, Waiting, {it.id}, InFlight);
    ListedElsewhere(rest, submitted, fates, Waiting, {it.id}, InFlight);
    ListedApart(p.drops, [it], submitted, fates, Dropping, Waiting);
    ListedElsewhere(p.drops, submitted, fates, Dropping, {it.id}, InFlight);
    ListedApart(p.moreDrops, [it], submitted, fates, Dropping, Waiting);
    ListedElsewhere(p.moreDrops, submitted, fates, Dropping, {it.id}, InFlight);
    hide Ids;
  }

  lemma AnswerStep(submitted: seq<Item>, fates: seq<Fate>, p: Places)
    requires OneFate(submitted, fates, p) && p.inflight.Some? && !p.answered
    ensures var it := p.inflight.value;
      && it.id < |fates| && fates[it.id] == InFlight
      && OneFate(submitted, Mark(fates, {it.id}, Answered), p.(answered := true))
  {
    var it := p.inflight.value;
    assert Ids([it]) == {it.id};
    assert [it][0] == it;
    ListedMarked([it], submitted, fates, InFlight, {it.id}, Answered);
    ListedApart(p.queue, [it], submitted, fates, Waiting, InFlight);
    ListedElsewhere(p.queue, submitted, fates, Waiting, {it.id}, Answered);
    ListedApart(p.drops, [it], submitted, fates, Dropping, InFlight);
    ListedElsewhere(p.drops, submitted, fates, Dropping, {it.id}, Answered);
    ListedApart(p.moreDrops, [it], submitted, fates, Dropping, InFlight);
    ListedElsewhere(p.moreDrops, submitted, fates, Dropping, {it.id}, Answered);
  }

  // The items of a session (or, if not `mine`, of the others), in queue order.
  function Select(queue: seq<Item>, session: string, mine: bool): seq<Item> {
    if queue == [] then []
    else
      var front, last := Select(queue[..|queue| - 1], session, mine), queue[|queue| - 1];
      if (last.session == session) == mine then front + [last] else front
  }

  lemma {:induction false} Selected(queue: seq<Item>, session: string, mine: bool)
    ensures forall it :: it in Select(queue, session, mine) <==> it in queue && ((it.session == session) == mine)
  {
    if queue != [] {
      Selected(queue[..|queue| - 1], session, mine);
      assert queue == queue[..|queue| - 1] + [queue[|queue| - 1]];
    }
  }

  lemma {:induction false} SelectedListed(queue: seq<Item>, session: string, mine: bool, submitted: seq<Item>, fates: seq<Fate>, fate: Fate)
    requires Listed(queue, submitted, fates, fate)
    ensures Listed(Select(queue, session, mine), submitted, fates, fate)
  {
    if queue != [] {
      var front, last := queue[..|queue| - 1], queue[|queue| - 1];
      assert queue == front + [last];
      hide Listed;
      ListedSplit(front, [last], submitted, fates, fate);
      SelectedListed(front, session, mine, submitted, fates, fate);
      Selected(front, session, mine);
      Extends(front, Select(front, session, mine), last, submitted, fates, fate);
    }
  }

  lemma Extends(front: seq<Item>, part: seq<Item>, last: Item, submitted: seq<Item>, fates: seq<Fate>, fate: Fate)
    requires forall it :: it in part ==> it in front
    requires Listed(front + [last], submitted, fates, fate) && Listed(part, submitted, fates, fate)
    ensures Listed(part + [last], submitted, fates, fate)
  {
    var all := front + [last];
    assert all[|front|] == last;
    forall a | 0 <= a < |part| ensures part[a].id < last.id {
      assert part[a] in front;
      var k :| 0 <= k < |front| && front[k] == part[a];
      assert all[k].id < all[|front|].id;
    }
  }

  lemma CancelStep(submitted: seq<Item>, fates: seq<Fate>, p: Places, session: string)
    requires OneFate(submitted, fates, p)
    ensures var gone := Select(p.queue, session, true);
      OneFate(submitted, Mark(fates, Ids(gone), Cancelled), p.(queue := Select(p.queue, session, false)))
  {
    var gone, kept := Select(p.queue, session, true), Select(p.queue, session, false);
    Selected(p.queue, session, true);
    Selected(p.queue, session, false);
    SelectedListed(p.queue, session, true, submitted, fates, Waiting);
    SelectedListed(p.queue, session, false, submitted, fates, Waiting);
    assert Ids(gone) !! Ids(kept);
    assert Ids(p.queue) == Ids(gone) + Ids(kept);
    ListedElsewhere(kept, submitted, fates, Waiting, Ids(gone), Cancelled);
    ListedApart(p.drops, gone, submitted, fates, Dropping, Waiting);
    ListedElsewhere(p.drops, submitted, fates, Dropping, Ids(gone), Cancelled);
    ListedApart(p.moreDrops, gone, submitted, fates, Dropping, Waiting);
    ListedElsewhere(p.moreDrops, submitted, fates, Dropping, Ids(gone), Cancelled);
    if p.inflight.Some? {
      var f := if p.answered then Answered else InFlight;
      ListedApart([p.inflight.value], gone, submitted, fates, f, Waiting);
      ListedElsewhere([p.inflight.value], submitted, fates, f, Ids(gone), Cancelled);
    }
  }

  // How fates may develop: a final one never changes.
  predicate Later(f: Fate, g: Fate) {
    match f
    case Waiting => true
    case InFlight => g.InFlight? || g.Answered?
    case Dropping => g.Dropping? || g.Dropped?
    case _ => f == g
  }

  ghost predicate Develops(before: seq<Fate>, after: seq<Fate>) {
    |before| <= |after| && forall i :: 0 <= i < |before| ==> Later(before[i], after[i])
  }

  lemma WaitingMayLeave(submitted: seq<Item>, fates: seq<Fate>, queue: seq<Item>, some: seq<Item>, fate: Fate)
    requires Listed(queue, submitted, fates, Waiting) && forall it :: it in some ==> it in queue
    ensures Develops(fates, Mark(fates, Ids(some), fate))
  {
    forall i | i in Ids(some) && i < |fates| ensures fates[i] == Waiting {
      var a :| 0 <= a < |queue| && queue[a].id == i;
    }
  }

  // ------------------------------------------------------------ the worker

  ghost predicate Overdue(items: seq<Item>, now: real, limit: real) {
    forall it :: it in items ==> now - it.enqueuedAt > limit
  }

  ghost predicate InTime(items: seq<Item>, now: real, limit: real) {
    forall it :: it in items ==> now - it.enqueuedAt <= limit
  }

  lemma QueueSorted(submitted: seq<Item>, fates: seq<Fate>, p: Places)
    requires OneFate(submitted, fates, p) && Sorted(submitted)
    ensures Sorted(p.queue)
  {
    ListedSorted(p.queue, submitted, fates, Waiting);
  }

  lemma DropMeans(submitted: seq<Item>, fates: seq<Fate>, p: Places, gone: seq<Item>, kept: seq<Item>, first: bool)
    requires OneFate(submitted, fates, p) && p.queue == gone + kept
    requires (if first then p.drops else p.moreDrops) == []
    ensures OneFate(submitted, Mark(fates, Ids(gone), Dropping),
                    if first then p.(queue := kept, drops := gone) else p.(queue := kept, moreDrops := gone))
    ensures Develops(fates, Mark(fates, Ids(gone), Dropping))
  {
    DropStep(submitted, fates, p, gone, kept, first);
    assert forall it :: it in gone ==> it in gone + kept;
    WaitingMayLeave(submitted, fates, p.queue, gone, Dropping);
  }

  class STTWorker {
    const degradeAbove: real
    const recoverBelow: real
    const dropAbove: real
    // shared, under the lock
    var queue: seq<Item>
    var inflight: Option<Item>
    var degraded: bool
    var clock: real
    // the submitting thread between its steps
    var count: nat  // of items submitted: the next item's identity
    var stamped: Option<Item>
    var submitterDrops: seq<Item>
    // the worker thread between its steps
    var workerDrops: seq<Item>
    var answered: bool  // the item in flight has its result
    // history
    ghost var submitted: seq<Item>
    ghost var fates: seq<Fate>
    ghost var backlogs: seq<real>  // measured when an item was popped

    ghost function Where(): Places
      reads this
    {
      Places(queue, submitterDrops, workerDrops, inflight, answered)
    }

    // Submission times never decrease and are past.
    ghost predicate Timed()
      reads this`submitted, this`clock, this`stamped
    {
      && Sorted(submitted)
      && (forall i :: 0 <= i < |submitted| ==> submitted[i].enqueuedAt <= clock)
      && (stamped.Some? ==>
            && stamped.value.id == |submitted| && stamped.value.enqueuedAt <= clock
            && forall i :: 0 <= i < |submitted| ==> submitted[i].enqueuedAt <= stamped.value.enqueuedAt)
    }

    // Holds between any two steps of the threads.
    ghost predicate Valid()
      reads this
    {
      && recoverBelow <= degradeAbove
      && count == |submitted| && Timed()
      && OneFate(submitted, fates, Where())
      && degraded == Degraded(backlogs, degradeAbove, recoverBelow)
    }

    constructor (degradeAbove: real, recoverBelow: real, dropAbove: real)
      requires recoverBelow <= degradeAbove
      ensures Valid() && submitted == [] && queue == []
    {
      this.degradeAbove, this.recoverBelow, this.dropAbove := degradeAbove, recoverBelow, dropAbove;
      queue, inflight, degraded, clock, count := [], None, false, 0.0, 0;
      stamped, submitterDrops, workerDrops, answered := None, [], [], false;
      submitted, fates, backlogs := [], [], [];
    }

    // backlog_s and queue order: the first match is the oldest.
    lemma MeasuredBacklog(session: Option<string>)
      requires Valid()
      ensures var b := Backlog(clock, inflight, queue, session);
        && (forall it :: Unfinished(it, inflight, queue, session) ==> clock - it.enqueuedAt <= b)
        && ((exists it :: Unfinished(it, inflight, queue, session) && clock - it.enqueuedAt == b)
            || (b == 0.0 && forall it :: !Unfinished(it, inflight, queue, session)))
    {
      ListedSorted(queue, submitted, fates, Waiting);
      forall it | Unfinished(it, inflight, queue, None) ensures it.enqueuedAt <= clock {
        if it in queue {
          var k :| 0 <= k < |queue| && queue[k] == it;
        } else {
          assert [it][0] == it;
        }
      }
      BacklogIsOldestAge(clock, inflight, queue, session);
    }

    // submit, first step: the time is read before the lock is taken.
    method Stamp(session: string)
      requires Valid() && stamped.None?
      modifies this`stamped
      ensures Valid() && stamped == Some(Item(|submitted|, session, clock))
    {
      stamped := Some(Item(count, session, clock));
    }

    // submit, under the lock: append, then drop what waited too long.
    method Append()
      requires Valid() && stamped.Some? && submitterDrops == []
      modifies this`queue, this`stamped, this`count, this`submitterDrops, this`submitted, this`fates
      ensures Valid() && stamped.None? && submitted == old(submitted) + [old(stamped).value]
      ensures submitterDrops + queue == old(queue) + [old(stamped).value]
      ensures Overdue(submitterDrops, clock, dropAbove)
      ensures InTime(queue, clock, dropAbove)
      ensures Develops(old(fates), fates)
    {
      hide STTWorker.Valid;
      Enqueue();
      DropWaiting();
    }

    method Enqueue()
      requires Valid() && stamped.Some?
      modifies this`queue, this`stamped, this`count, this`submitted, this`fates
      ensures Valid() && stamped.None? && submitted == old(submitted) + [old(stamped).value]
      ensures queue == old(queue) + [old(stamped).value] && fates == old(fates) + [Waiting]
    {
      hide OneFate, Degraded;
      var item := stamped.value;
      AppendStep(submitted, fates, Where(), item);
      queue := queue + [item];
      submitted := submitted + [item];
      count := count + 1;
      fates := fates + [Waiting];
      stamped := None;
    }

    // The submitting thread takes what waited too long, to report it later.
    method DropWaiting()
      requires Valid() && submitterDrops == []
      modifies this`queue, this`submitterDrops, this`fates
      ensures Valid()
      ensures submitterDrops + queue == old(queue)
      ensures Overdue(submitterDrops, clock, dropAbove)
      ensures InTime(queue, clock, dropAbove)
      ensures Develops(old(fates), fates)
    {
      hide OneFate, Degraded, Mark, Ids, Sorted, Develops, Overdue, InTime;
      ghost var places := Where();
      QueueSorted(submitted, fates, places);
      hide STTWorker.Timed;
      submitterDrops := Enforce();
      DropMeans(submitted, fates, places, submitterDrops, queue, true);
      fates := Mark(fates, Ids(submitterDrops), Dropping);
    }

    // Under the lock: take the items that waited too long off the queue.
    method Enforce() returns (drops: seq<Item>)
      requires Sorted(queue)
      modifies this`queue
      ensures drops + queue == old(queue)
      ensures Overdue(drops, clock, dropAbove)
      ensures InTime(queue, clock, dropAbove)
    {
      drops := [];
      while queue != [] && clock - queue[0].enqueuedAt > dropAbove
        invariant drops + queue == old(queue) && Sorted(queue)
        invariant Overdue(drops, clock, dropAbove)
        decreases |queue|
      {
        assert drops + queue == (drops + [queue[0]]) + queue[1..];
        drops := drops + [queue[0]];
        queue := queue[1..];
      }
      forall it | it in queue ensures clock - it.enqueuedAt <= dropAbove {
        var k :| 0 <= k < |queue| && queue[k] == it;
      }
    }

    // A thread reports the oldest drop it still holds.
    method ReportDrop(submitter: bool)
      requires Valid() && (if submitter then submitterDrops else workerDrops) != []
      modifies this`submitterDrops, this`workerDrops, this`fates
      ensures Valid()
      ensures var drops := if submitter then old(submitterDrops) else old(workerDrops);
        drops[0].id < |old(fates)| && fates == Mark(old(fates), {drops[0].id}, Dropped)
      ensures submitterDrops == if submitter then old(submitterDrops)[1..] else old(submitterDrops)
      ensures workerDrops == if submitter then old(workerDrops) else old(workerDrops)[1..]
      ensures Develops(old(fates), fates)
    {
      hide OneFate, Degraded;
      ReportStep(submitted, fates, Where(), submitter);
      if submitter {
        fates := Mark(fates, {submitterDrops[0].id}, Dropped);
        submitterDrops := submitterDrops[1..];
      } else {
        fates := Mark(fates, {workerDrops[0].id}, Dropped);
        workerDrops := workerDrops[1..];
      }
    }

    // The drop policy in the worker thread, also while the model is loading.
    method EnforceWhileLoading()
      requires Valid() && workerDrops == []
      modifies this`queue, this`workerDrops, this`fates
      ensures Valid()
      ensures workerDrops + queue == old(queue)
      ensures Overdue(workerDrops, clock, dropAbove)
      ensures InTime(queue, clock, dropAbove)
      ensures Develops(old(fates), fates)
    {
      hide OneFate, Degraded, Mark, Ids, Sorted, Develops, Overdue, InTime;
      ghost var places := Where();
      QueueSorted(submitted, fates, places);
      hide STTWorker.Timed;
      workerDrops := Enforce();
      DropMeans(submitted, fates, places, workerDrops, queue, false);
      fates := Mark(fates, Ids(workerDrops), Dropping);
    }

    // next_item, under the lock: drop, pop the head, mark it in flight and
    // update the degrade flag.  The clock is read again for the backlog.
    method NextItem(later: real) returns (item: Option<Item>)
      requires Valid() && inflight.None? && workerDrops == [] && later >= clock
      modifies this`queue, this`inflight, this`workerDrops, this`degraded, this`backlogs, this`clock, this`fates
      ensures Valid() && inflight == item && clock == later
      ensures item.Some? ==> old(clock) - item.value.enqueuedAt <= dropAbove
      ensures workerDrops + (if item.Some? then [item.value] else []) + queue == old(queue)
      ensures Overdue(workerDrops, old(clock), dropAbove)
      ensures item.None? ==> queue == [] && backlogs == old(backlogs)
      ensures item.Some? ==> backlogs == old(backlogs) + [Backlog(later, Some(item.value), queue, None)]
      ensures Develops(old(fates), fates)
    {
      hide Backlog, OneFate, Degraded;
      EnforceWhileLoading();
      clock := later;
      item := Pop();
      if item.Some? {
        UpdateDegrade();
      }
    }

    method UpdateDegrade()
      requires Valid()
      modifies this`degraded, this`backlogs
      ensures Valid() && backlogs == old(backlogs) + [Backlog(clock, inflight, queue, None)]
    {
      hide Backlog, OneFate;
      var b := Backlog(clock, inflight, queue, None);
      degraded := NextDegraded(degraded, b, degradeAbove, recoverBelow);
      backlogs := backlogs + [b];
      assert backlogs[..|backlogs| - 1] == old(backlogs);
    }

    method Pop() returns (item: Option<Item>)
      requires Valid() && inflight.None?
      modifies this`queue, this`inflight, this`fates
      ensures Valid() && inflight == item
      ensures if old(queue) == [] then item.None? && queue == [] else item == Some(old(queue)[0]) && queue == old(queue)[1..]
      ensures Develops(old(fates), fates)
    {
      if queue == [] {
        return None;
      }
      hide OneFate, Degraded;
      PopStep(submitted, fates, Where());
      item := Some(queue[0]);
      fates := Mark(fates, {queue[0].id}, InFlight);
      queue := queue[1..];
      inflight := item;
    }

    // process_one: the result is delivered, then the item is no longer in flight.
    method Answer()
      requires Valid() && inflight.Some? && !answered
      modifies this`answered, this`fates
      ensures Valid() && answered
      ensures inflight.value.id < |old(fates)| && fates == Mark(old(fates), {inflight.value.id}, Answered)
      ensures Develops(old(fates), fates)
    {
      hide OneFate, Degraded;
      AnswerStep(submitted, fates, Where());
      fates := Mark(fates, {inflight.value.id}, Answered);
      answered := true;
    }

    method Land()
      requires Valid() && answered
      modifies this`inflight, this`answered
      ensures Valid() && inflight.None? && !answered
    {
      inflight := None;
      answered := false;
    }

    // cancel_session, under the lock: the waiting items of the session go, the
    // one in flight stays.
    method CancelSession(session: string) returns (removed: seq<Item>)
      requires Valid()
      modifies this`queue, this`fates
      ensures Valid()
      ensures removed == Select(old(queue), session, true) && queue == Select(old(queue), session, false)
      ensures fates == Mark(old(fates), Ids(removed), Cancelled)
      ensures Develops(old(fates), fates)
    {
      hide Listed, Degraded;
      CancelStep(submitted, fates, Where(), session);
      removed := Select(queue, session, true);
      Selected(queue, session, true);
      WaitingMayLeave(submitted, fates, queue, removed, Cancelled);
      queue := Select(queue, session, false);
      fates := Mark(fates, Ids(removed), Cancelled);
    }

    // Any interleaving of the two threads and of callers that cancel: each
    // step is whatever is possible next for the thread that is chosen.
    method AnyRun(steps: nat)
      requires Valid()
      modifies this
      ensures Valid() && old(submitted) <= submitted && Develops(old(fates), fates)
    {
      hide STTWorker.Valid;
      var left := steps;
      while left > 0
        invariant Valid() && old(submitted) <= submitted && Develops(old(fates), fates)
        decreases left
      {
        var thread: nat, session: string, ready: bool := *, *, *;
        var now: real, later: real := *, *;
        Tick(now);
        if thread == 0 {
          var removed := CancelSession(session);
        } else if thread == 1 {
          SubmitterStep(session);
        } else {
          WorkerStep(ready, later);
        }
        left := left - 1;
      }
    }

    method Tick(later: real)
      requires Valid()
      modifies this`clock
      ensures Valid() && clock >= old(clock)
    {
      if later > clock {
        clock := later;
      }
    }

    // It reports its oldest drop, else appends what it stamped (and takes off what
    // is overdue), else stamps the next item.
    method SubmitterStep(session: string)
      requires Valid()
      modifies this`queue, this`stamped, this`count, this`submitterDrops, this`workerDrops, this`submitted, this`fates
      ensures Valid() && old(submitted) <= submitted && Develops(old(fates), fates) && workerDrops == old(workerDrops)
      ensures old(submitterDrops) != [] ==>
        && submitterDrops == old(submitterDrops)[1..] && queue == old(queue) && stamped == old(stamped) && submitted == old(submitted)
        && old(submitterDrops)[0].id < |old(fates)| && fates == Mark(old(fates), {old(submitterDrops)[0].id}, Dropped)
      ensures old(submitterDrops) == [] && old(stamped).Some? ==>
        && submitterDrops + queue == old(queue) + [old(stamped).value] && stamped.None?
        && submitted == old(submitted) + [old(stamped).value]
        && Overdue(submitterDrops, clock, dropAbove) && InTime(queue, clock, dropAbove)
      ensures old(submitterDrops) == [] && old(stamped).None? ==>
        && stamped == Some(Item(|submitted|, session, clock)) && queue == old(queue)
        && submitted == old(submitted) && submitterDrops == [] && fates == old(fates)
    {
      hide OneFate, Degraded, Backlog, Mark;
      if submitterDrops != [] {
        ReportDrop(true);
      } else if stamped.Some? {
        Append();
      } else {
        Stamp(session);
      }
    }

    // It reports its oldest drop, else goes on with the item in flight, else takes
    // the oldest item that is not overdue, if the model is ready; while it is
    // loading only the drop policy applies.
    method WorkerStep(ready: bool, later: real)
      requires Valid()
      modifies this`queue, this`inflight, this`workerDrops, this`submitterDrops, this`degraded, this`backlogs, this`clock, this`fates, this`answered
      ensures Valid() && Develops(old(fates), fates) && submitterDrops == old(submitterDrops)
      ensures old(workerDrops) != [] ==>
        && workerDrops == old(workerDrops)[1..] && queue == old(queue) && inflight == old(inflight) && answered == old(answered)
        && old(workerDrops)[0].id < |old(fates)| && fates == Mark(old(fates), {old(workerDrops)[0].id}, Dropped)
      ensures old(workerDrops) == [] && old(inflight).Some? ==>
        && queue == old(queue) && workerDrops == []
        && (old(answered) ==> inflight.None? && !answered && fates == old(fates))
        && (!old(answered) ==> inflight == old(inflight) && answered && inflight.value.id < |old(fates)|)
        && (!old(answered) ==> fates == Mark(old(fates), {inflight.value.id}, Answered))
      ensures old(workerDrops) == [] && old(inflight).None? ==>
        && workerDrops + (if inflight.Some? then [inflight.value] else []) + queue == old(queue)
        && Overdue(workerDrops, old(clock), dropAbove)
        && (ready && inflight.None? ==> queue == [])
        && (inflight.Some? ==> old(clock) - inflight.value.enqueuedAt <= dropAbove)
        && (inflight.Some? ==> backlogs == old(backlogs) + [Backlog(clock, inflight, queue, None)])
        && (!ready ==> inflight.None? && InTime(queue, clock, dropAbove) && backlogs == old(backlogs) && clock == old(clock))
    {
      hide OneFate, Degraded, Backlog, Mark;
      if workerDrops != [] {
        ReportDrop(false);
      } else if inflight.Some? {
        if answered {
          Land();
        } else {
          Answer();
        }
      } else if ready {
        var item := NextItem(if later >= clock then later else clock);
      } else {
        EnforceWhileLoading();
      }
    }
  }
}
