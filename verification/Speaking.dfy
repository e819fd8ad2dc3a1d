// Who speaks when: intervals kept from the active-speaker lists, and the
// speaking time that liveness reads off them.
module Speaking {
  import opened Wrappers

  datatype Interval = Interval(start: real, end: Option<real>)

  const MAXLEN := 200

  function MaxR(x: real, y: real): real { if x >= y then x else y }
  function MinR(x: real, y: real): real { if x <= y then x else y }

  // The part of an interval within [a, b]; one that is open counts up to `end`.
  function Part(iv: Interval, end: Option<real>, a: real, b: real): real {
    var stop := if iv.end.Some? then iv.end else end;
    MaxR(0.0, (if stop.Some? then MinR(stop.value, b) else b) - MaxR(iv.start, a))
  }

  function Sum(track: seq<Interval>, end: Option<real>, a: real, b: real): real {
    if track == [] then 0.0
    else Sum(track[..|track| - 1], end, a, b) + Part(track[|track| - 1], end, a, b)
  }

  // The lists as they came: from `at` on, `active` are speaking.
  datatype Change = Change(at: real, active: set<string>)

  ghost predicate InOrder(log: seq<Change>) {
    forall i, j :: 0 <= i < j < |log| ==> log[i].at <= log[j].at
  }

  // The time within [a, b] that `id` was in the active list.
  function Heard(log: seq<Change>, id: string, end: Option<real>, a: real, b: real): real {
    if log == [] then 0.0
    else
      var last := log[|log| - 1];
      Heard(log[..|log| - 1], id, Some(last.at), a, b)
      + if id in last.active then Part(Interval(last.at, None), end, a, b) else 0.0
  }

  // ------------------------------------------------------------ one identity

  function Opened(track: seq<Interval>, t: real): seq<Interval> {
    (if |track| < MAXLEN then track else track[1..]) + [Interval(t, None)]
  }

  function IsOpen(track: seq<Interval>): bool {
    track != [] && track[|track| - 1].end.None?
  }

  function Closed(track: seq<Interval>, t: real): seq<Interval> {
    if IsOpen(track) then track[..|track| - 1] + [Interval(track[|track| - 1].start, Some(t))] else track
  }

  // Sorted and disjoint; all but the last are closed; nothing after `now`.
  ghost predicate Sorted(track: seq<Interval>, now: real) {
    && |track| <= MAXLEN
    && (forall i :: 0 <= i < |track| ==> track[i].start <= now)
    && (forall i :: 0 <= i < |track| && track[i].end.Some? ==> track[i].start <= track[i].end.value <= now)
    && (forall i, j :: 0 <= i < j < |track| ==> track[i].end.Some? && track[i].end.value <= track[j].start)
  }

  // Time before `since` may be forgotten.
  function From(since: Option<real>, a: real): real {
    if since.Some? then MaxR(since.value, a) else a
  }

  ghost predicate Late(end: Option<real>, now: real) {
    end.Some? ==> end.value >= now
  }

  ghost predicate Exact(track: seq<Interval>, log: seq<Change>, id: string, since: Option<real>, now: real) {
    forall end, a, b :: Late(end, now) ==> Sum(track, end, a, b) == Heard(log, id, end, From(since, a), b)
  }

  ghost predicate Active(log: seq<Change>, id: string) {
    log != [] && id in log[|log| - 1].active
  }

  // What the intervals of one identity mean.
  ghost predicate Keeps(track: seq<Interval>, log: seq<Change>, id: string, since: Option<real>, now: real) {
    && Sorted(track, now)
    && (IsOpen(track) <==> Active(log, id))
    && (since.Some? ==> since.value <= now && (track != [] ==> since.value <= track[0].start))
    && Exact(track, log, id, since, now)
  }

  lemma {:induction false} SumClosed(track: seq<Interval>, end: Option<real>, end': Option<real>, a: real, b: real)
    requires forall i :: 0 <= i < |track| ==> track[i].end.Some?
    ensures Sum(track, end, a, b) == Sum(track, end', a, b)
  {
    if track != [] {
      SumClosed(track[..|track| - 1], end, end', a, b);
    }
  }

  // Still in the list: the open interval grows on.
  lemma StillOpen(track: seq<Interval>, now: real, t: real, end: Option<real>, a: real, b: real)
    requires Sorted(track, now) && IsOpen(track) && now <= t && Late(end, t)
    ensures Sum(track, end, a, b) == Sum(track, Some(t), a, b) + Part(Interval(t, None), end, a, b)
  {
    SumClosed(track[..|track| - 1], end, Some(t), a, b);
  }

  lemma CloseSum(track: seq<Interval>, now: real, t: real, end: Option<real>, a: real, b: real)
    requires Sorted(track, now) && now <= t
    ensures Sum(Closed(track, t), end, a, b) == Sum(track, Some(t), a, b)
  {
    if IsOpen(track) {
      var closed := Closed(track, t);
      assert closed[..|closed| - 1] == track[..|track| - 1];
      SumClosed(track[..|track| - 1], end, Some(t), a, b);
    } else {
      SumClosed(track, end, Some(t), a, b);
    }
  }

  lemma OpenSum(track: seq<Interval>, t: real, end: Option<real>, a: real, b: real)
    ensures Sum(track + [Interval(t, None)], end, a, b) == Sum(track, end, a, b) + Part(Interval(t, None), end, a, b)
  {
    var more := track + [Interval(t, None)];
    assert more[..|more| - 1] == track;
  }

  // Dropping the oldest interval forgets the time up to its end, no more.
  lemma {:induction false} DropSum(track: seq<Interval>, now: real, end: Option<real>, a: real, b: real)
    requires Sorted(track, now) && track != [] && track[0].end.Some?
    ensures Sum(track[1..], end, a, b) == Sum(track, end, MaxR(track[0].end.value, a), b)
  {
    var init := track[..|track| - 1];
    if |track| > 1 {
      DropSum(init, now, end, a, b);
      assert track[1..][..|track| - 2] == init[1..];
    } else {
      assert init == [];
    }
  }

  // ------------------------------------------------------------ what one event does

  // The interval list of `id` when the active list becomes `current`.
  function Next(track: seq<Interval>, was: bool, will: bool, t: real): seq<Interval> {
    if will && !was then Opened(track, t) else if was && !will then Closed(track, t) else track
  }

  function NextSince(track: seq<Interval>, was: bool, will: bool, since: Option<real>): Option<real> {
    if will && !was && |track| >= MAXLEN && track[0].end.Some? then track[0].end else since
  }

  // Nothing is forgotten until there are 200 intervals; then only the oldest, and
  // the memory begins at its end.
  lemma ForgetsLeast(track: seq<Interval>, was: bool, will: bool, since: Option<real>, now: real, t: real)
    requires Sorted(track, now) && (was <==> IsOpen(track))
    ensures var track', since' := Next(track, was, will, t), NextSince(track, was, will, since);
      && |track'| == (if will && !was then Min(|track| + 1, MAXLEN) else |track|)
      && (|track'| == |track| + 1 || !will || was ==> since' == since)
      && (since' != since ==> |track| == MAXLEN && since' == track[0].end)
  {
  }

  lemma HeardNext(log: seq<Change>, id: string, t: real, current: set<string>, end: Option<real>, a: real, b: real)
    ensures Heard(log + [Change(t, current)], id, end, a, b)
      == Heard(log, id, Some(t), a, b) + if id in current then Part(Interval(t, None), end, a, b) else 0.0
  {
    assert (log + [Change(t, current)])[..|log|] == log;
  }

  // A new interval: of 200 the oldest is dropped.
  lemma OpenedSum(track: seq<Interval>, now: real, t: real, end: Option<real>, a: real, b: real)
    requires Sorted(track, now) && !IsOpen(track)
    ensures var a' := if |track| < MAXLEN then a else MaxR(track[0].end.value, a);
      Sum(Opened(track, t), end, a, b) == Sum(track, Some(t), a', b) + Part(Interval(t, None), end, a, b)
  {
    if |track| < MAXLEN {
      OpenSum(track, t, end, a, b);
      SumClosed(track, end, Some(t), a, b);
    } else {
      OpenSum(track[1..], t, end, a, b);
      DropSum(track, now, end, a, b);
      SumClosed(track, end, Some(t), MaxR(track[0].end.value, a), b);
    }
  }

  function Kept(track: seq<Interval>, was: bool, will: bool, a: real): real {
    From(NextSince(track, was, will, None), a)
  }

  // What the event adds to the sum, and from where the old part counts.
  lemma SumGrows(track: seq<Interval>, was: bool, will: bool, now: real, t: real, end: Option<real>, a: real, b: real)
    requires Sorted(track, now) && (was <==> IsOpen(track)) && now <= t && Late(end, t)
    ensures var a' := Kept(track, was, will, a);
      Sum(Next(track, was, will, t), end, a, b)
      == Sum(track, Some(t), a', b) + if will then Part(Interval(t, None), end, a, b) else 0.0
  {
    if was && will {
      StillOpen(track, now, t, end, a, b);
    } else if was {
      CloseSum(track, now, t, end, a, b);
    } else if will {
      OpenedSum(track, now, t, end, a, b);
    } else {
      SumClosed(track, end, Some(t), a, b);
    }
    hide Sum, Part, Opened, Closed, MaxR;
  }

  lemma SinceMoves(track: seq<Interval>, was: bool, will: bool, since: Option<real>, now: real, t: real, end: Option<real>, a: real, b: real)
    requires Sorted(track, now) && (was <==> IsOpen(track)) && now <= t
    requires since.Some? ==> since.value <= now && (track != [] ==> since.value <= track[0].start)
    ensures var a' := Kept(track, was, will, a);
      var since' := NextSince(track, was, will, since);
      && From(since, a') == From(since', a)
      && Part(Interval(t, None), end, From(since', a), b) == Part(Interval(t, None), end, a, b)
  {
  }

  lemma NextSum(track: seq<Interval>, log: seq<Change>, id: string, since: Option<real>, now: real, t: real,
                current: set<string>, end: Option<real>, a: real, b: real)
    requires Keeps(track, log, id, since, now) && now <= t && Late(end, t)
    ensures var was, will := Active(log, id), id in current;
      Sum(Next(track, was, will, t), end, a, b)
      == Heard(log + [Change(t, current)], id, end, From(NextSince(track, was, will, since), a), b)
  {
    var was, will := Active(log, id), id in current;
    hide Sum, Heard, Part, Sorted, IsOpen, From, NextSince, Next, Active, Kept;
    SumGrows(track, was, will, now, t, end, a, b);
    SinceMoves(track, was, will, since, now, t, end, a, b);
    var a' := Kept(track, was, will, a);
    assert Sum(track, Some(t), a', b) == Heard(log, id, Some(t), From(since, a'), b);
    HeardNext(log, id, t, current, end, From(since, a'), b);
  }

  lemma NextExact(track: seq<Interval>, log: seq<Change>, id: string, since: Option<real>, now: real, t: real, current: set<string>)
    requires Keeps(track, log, id, since, now) && now <= t
    ensures var was, will := Active(log, id), id in current;
      Exact(Next(track, was, will, t), log + [Change(t, current)], id, NextSince(track, was, will, since), t)
  {
    hide Next, NextSince, Active, Heard, Sum, Keeps;
    var was, will := Active(log, id), id in current;
    forall end, a, b | Late(end, t)
      ensures Sum(Next(track, was, will, t), end, a, b)
        == Heard(log + [Change(t, current)], id, end, From(NextSince(track, was, will, since), a), b)
    {
      NextSum(track, log, id, since, now, t, current, end, a, b);
    }
  }

  lemma OpenedSorted(track: seq<Interval>, now: real, t: real)
    requires Sorted(track, now) && !IsOpen(track) && now <= t
    ensures Sorted(Opened(track, t), t) && IsOpen(Opened(track, t))
    ensures |track| >= MAXLEN ==> track[0].end.Some? && track[0].end.value <= Opened(track, t)[0].start && track[0].start <= track[0].end.value <= t
    ensures 0 < |track| < MAXLEN ==> Opened(track, t)[0] == track[0]
  {
    var kept := if |track| < MAXLEN then track else track[1..];
    assert forall i :: 0 <= i < |kept| ==> kept[i].end.Some?;
  }

  lemma ClosedSorted(track: seq<Interval>, now: real, t: real)
    requires Sorted(track, now) && IsOpen(track) && now <= t
    ensures Sorted(Closed(track, t), t) && !IsOpen(Closed(track, t)) && Closed(track, t)[0].start == track[0].start
  {
  }

  lemma NextSorted(track: seq<Interval>, was: bool, will: bool, since: Option<real>, now: real, t: real)
    requires Sorted(track, now) && (was <==> IsOpen(track)) && now <= t
    requires since.Some? ==> since.value <= now && (track != [] ==> since.value <= track[0].start)
    ensures var track', since' := Next(track, was, will, t), NextSince(track, was, will, since);
      && Sorted(track', t) && (IsOpen(track') <==> will)
      && (since'.Some? ==> since'.value <= t && (track' != [] ==> since'.value <= track'[0].start))
  {
    if was && !will {
      ClosedSorted(track, now, t);
    } else if will && !was {
      OpenedSorted(track, now, t);
      assert track == [] ==> Opened(track, t)[0].start == t;
    } else {
      assert Sorted(track, t);
    }
    hide Sorted, Opened, Closed;
  }

  lemma NextKeeps(track: seq<Interval>, log: seq<Change>, id: string, since: Option<real>, now: real, t: real, current: set<string>)
    requires Keeps(track, log, id, since, now) && now <= t
    ensures var was, will := Active(log, id), id in current;
      Keeps(Next(track, was, will, t), log + [Change(t, current)], id, NextSince(track, was, will, since), t)
  {
    NextExact(track, log, id, since, now, t, current);
    NextSorted(track, Active(log, id), id in current, since, now, t);
    hide Exact, Heard, Sum, Sorted, Next, NextSince, IsOpen;
  }

  lemma {:induction false} NothingAfter(log: seq<Change>, id: string, t: real, a: real, b: real)
    requires InOrder(log) && a >= t && (log != [] ==> log[|log| - 1].at <= t)
    ensures Heard(log, id, Some(t), a, b) == 0.0
  {
    if log != [] {
      NothingAfter(log[..|log| - 1], id, log[|log| - 1].at, a, b);
    }
  }

  // One who left starts afresh.
  lemma LeftKeeps(log: seq<Change>, id: string, t: real, current: set<string>)
    requires InOrder(log) && (log != [] ==> log[|log| - 1].at <= t) && id !in current
    ensures Keeps([], log + [Change(t, current)], id, Some(t), t)
  {
    var log' := log + [Change(t, current)];
    assert log'[..|log|] == log;
    forall end, a, b | Late(end, t) ensures Sum([], end, a, b) == Heard(log', id, end, From(Some(t), a), b) {
      NothingAfter(log, id, t, MaxR(t, a), b);
    }
  }

  lemma NobodyYet(id: string, now: real)
    ensures Keeps([], [], id, None, now)
  {
  }

  // Nobody speaks for longer than the time there is.
  lemma {:induction false} HeardAtMost(log: seq<Change>, id: string, end: Option<real>, a: real, b: real)
    requires InOrder(log) && (log != [] && end.Some? ==> log[|log| - 1].at <= end.value)
    ensures 0.0 <= Heard(log, id, end, a, b) <= MaxR(0.0, (if end.Some? then MinR(end.value, b) else b) - a)
  {
    if log != [] {
      HeardAtMost(log[..|log| - 1], id, Some(log[|log| - 1].at), a, b);
    }
  }

  // ------------------------------------------------------------ the session's fields

  function Track(speaking: map<string, seq<Interval>>, id: string): seq<Interval> {
    if id in speaking then speaking[id] else []
  }

  // What the fields mean for the lists that came.
  ghost predicate Good(speaking: map<string, seq<Interval>>, speakingNow: set<string>, log: seq<Change>,
                       since: map<string, real>, now: real) {
    && InOrder(log) && (log != [] ==> log[|log| - 1].at <= now)
    && (forall id :: id in speakingNow <==> Active(log, id))
    && (forall id :: Keeps(Track(speaking, id), log, id, SinceOf(since, id), now))
  }

  ghost function SinceOf(since: map<string, real>, id: string): Option<real> {
    if id in since then Some(since[id]) else None
  }

  // The active list becomes `current`.
  ghost predicate Changed(speaking: map<string, seq<Interval>>, speaking': map<string, seq<Interval>>,
                          speakingNow: set<string>, current: set<string>, t: real) {
    forall id :: Track(speaking', id) == Next(Track(speaking, id), id in speakingNow, id in current, t)
  }

  ghost function SinceAfter(speaking: map<string, seq<Interval>>, speakingNow: set<string>, current: set<string>,
                            since: map<string, real>): (r: map<string, real>)
    ensures forall id ::
      SinceOf(r, id) == NextSince(Track(speaking, id), id in speakingNow, id in current, SinceOf(since, id))
  {
    var changed := set id | id in current && NextSince(Track(speaking, id), id in speakingNow, true, None).Some?;
    map id | id in since.Keys + changed ::
      if id in changed then NextSince(Track(speaking, id), id in speakingNow, true, None).value else since[id]
  }

  lemma ChangeKeeps(speaking: map<string, seq<Interval>>, speaking': map<string, seq<Interval>>, speakingNow: set<string>,
                    log: seq<Change>, since: map<string, real>, now: real, current: set<string>, t: real)
    requires Good(speaking, speakingNow, log, since, now) && now <= t
    requires Changed(speaking, speaking', speakingNow, current, t)
    ensures Good(speaking', current, log + [Change(t, current)], SinceAfter(speaking, speakingNow, current, since), t)
  {
    hide Keeps, Next, NextSince, Track, SinceOf, SinceAfter;
    var since' := SinceAfter(speaking, speakingNow, current, since);
    forall id ensures Keeps(Track(speaking', id), log + [Change(t, current)], id, SinceOf(since', id), t) {
      NextKeeps(Track(speaking, id), log, id, SinceOf(since, id), now, t, current);
      assert (id in speakingNow) == Active(log, id);
    }
  }

  lemma LeaveKeeps(speaking: map<string, seq<Interval>>, speakingNow: set<string>, log: seq<Change>, since: map<string, real>,
                   now: real, id: string, t: real)
    requires Good(speaking, speakingNow, log, since, now) && now <= t
    ensures Good(speaking - {id}, speakingNow - {id}, log + [Change(t, speakingNow - {id})], since[id := t], t)
  {
    var current := speakingNow - {id};
    forall who ensures Keeps(Track(speaking - {id}, who), log + [Change(t, current)], who, SinceOf(since[id := t], who), t) {
      if who == id {
        LeftKeeps(log, id, t, current);
      } else {
        NextKeeps(Track(speaking, who), log, who, SinceOf(since, who), now, t, current);
      }
      hide Keeps;
    }
    hide Keeps;
  }

  // What liveness reads: the time in the active list, less what was forgotten.
  lemma SumMeans(speaking: map<string, seq<Interval>>, speakingNow: set<string>, log: seq<Change>, since: map<string, real>,
                 now: real, id: string, a: real, b: real)
    requires Good(speaking, speakingNow, log, since, now)
    ensures Sum(Track(speaking, id), None, a, b) == Heard(log, id, None, From(SinceOf(since, id), a), b)
    ensures 0.0 <= Sum(Track(speaking, id), None, a, b) <= MaxR(0.0, b - a)
  {
    assert Keeps(Track(speaking, id), log, id, SinceOf(since, id), now);
    assert Late(None, now);
    HeardAtMost(log, id, None, From(SinceOf(since, id), a), b);
    hide Heard, Sum;
  }

  class Speakers {
    var speaking: map<string, seq<Interval>>
    var speakingNow: set<string>
    ghost var log: seq<Change>
    ghost var since: map<string, real>
    ghost var now: real

    ghost predicate Valid()
      reads this
    {
      Good(speaking, speakingNow, log, since, now)
    }

    constructor (ghost clock: real)
      ensures Valid() && log == [] && now == clock && since == map[]
    {
      speaking, speakingNow, log, since, now := map[], {}, [], map[], clock;
      new;
      forall id ensures Keeps([], [], id, None, clock) {
        NobodyYet(id, clock);
      }
    }

    // Close the open interval, if any, of everyone in `who`.
    method CloseAll(who: set<string>, clock: real)
      modifies this`speaking
      ensures (forall id ::
        Track(speaking, id) == if id in who then Closed(Track(old(speaking), id), clock) else Track(old(speaking), id))
    {
      var todo := who;
      while todo != {}
        invariant todo <= who
        invariant (forall id ::
          Track(speaking, id) == if id in who && id !in todo then Closed(Track(old(speaking), id), clock) else Track(old(speaking), id))
        decreases |todo|
      {
        var id :| id in todo;
        if id in speaking && IsOpen(speaking[id]) {
          speaking := speaking[id := Closed(speaking[id], clock)];
        }
        todo := todo - {id};
      }
    }

    method OpenAll(who: set<string>, clock: real)
      modifies this`speaking
      ensures (forall id ::
        Track(speaking, id) == if id in who then Opened(Track(old(speaking), id), clock) else Track(old(speaking), id))
    {
      var todo := who;
      while todo != {}
        invariant todo <= who
        invariant (forall id ::
          Track(speaking, id) == if id in who && id !in todo then Opened(Track(old(speaking), id), clock) else Track(old(speaking), id))
        decreases |todo|
      {
        var id :| id in todo;
        speaking := speaking[id := Opened(Track(speaking, id), clock)];
        todo := todo - {id};
      }
    }

    // `_on_active_speakers`
    method OnActiveSpeakers(current: set<string>, clock: real)
      requires Valid() && clock >= now
      modifies this
      ensures Valid() && now == clock && log == old(log) + [Change(clock, current)] && speakingNow == current
      ensures Changed(old(speaking), speaking, old(speakingNow), current, clock)
      ensures since == SinceAfter(old(speaking), old(speakingNow), current, old(since))
    {
      hide Good, Closed, Opened, SinceAfter;
      OpenAll(current - speakingNow, clock);
      CloseAll(speakingNow - current, clock);
      ChangeKeeps(old(speaking), speaking, speakingNow, log, since, now, current, clock);
      since := SinceAfter(old(speaking), speakingNow, current, since);
      log, now := log + [Change(clock, current)], clock;
      speakingNow := current;
    }

    // `_end_speaking`: the connection is lost.
    method EndSpeaking(clock: real)
      requires Valid() && clock >= now
      modifies this
      ensures Valid() && now == clock && log == old(log) + [Change(clock, {})] && speakingNow == {}
      ensures Changed(old(speaking), speaking, old(speakingNow), {}, clock)
      ensures since == SinceAfter(old(speaking), old(speakingNow), {}, old(since))
    {
      hide Good, Closed, Opened, SinceAfter;
      CloseAll(speakingNow, clock);
      ChangeKeeps(old(speaking), speaking, speakingNow, log, since, now, {}, clock);
      since := SinceAfter(old(speaking), speakingNow, {}, since);
      log, now := log + [Change(clock, {})], clock;
      speakingNow := {};
    }

    // `_on_participant_disconnected`
    method Disconnected(id: string, ghost clock: real)
      requires Valid() && clock >= now
      modifies this
      ensures Valid() && now == clock && speakingNow == old(speakingNow) - {id}
      ensures log == old(log) + [Change(clock, speakingNow)]
      ensures speaking == old(speaking) - {id} && since == old(since)[id := clock]
    {
      LeaveKeeps(speaking, speakingNow, log, since, now, id, clock);
      hide Good;
      speakingNow := speakingNow - {id};
      speaking := speaking - {id};
      log, since, now := log + [Change(clock, speakingNow)], since[id := clock], clock;
    }

    // `speaking_seconds`
    method SpeakingSeconds(id: string, a: real, b: real) returns (total: real)
      requires Valid()
      ensures total == Heard(log, id, None, From(SinceOf(since, id), a), b)
      ensures (id in since ==> since[id] <= a) ==> total == Heard(log, id, None, a, b)
      ensures 0.0 <= total <= MaxR(0.0, b - a)
    {
      total := 0.0;
      if id in speaking {
        var i := 0;
        while i < |speaking[id]|
          invariant i <= |speaking[id]| && total == Sum(speaking[id][..i], None, a, b)
        {
          var iv := speaking[id][i];
          assert speaking[id][..i + 1][..i] == speaking[id][..i];
          var e := if iv.end.Some? then MinR(iv.end.value, b) else b;
          total := total + MaxR(0.0, e - MaxR(iv.start, a));
          i := i + 1;
        }
        assert speaking[id][..i] == speaking[id];
      }
      SumMeans(speaking, speakingNow, log, since, now, id, a, b);
    }
  }
}
