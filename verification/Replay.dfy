// The replay guard: signatures accepted lately, in the order they came.
module Replay {

  datatype Entry = Entry(key: string, expires: real)
  // checked: when the signature was verified; at: when the guard was asked
  datatype Acceptance = Acceptance(key: string, checked: real, at: real)

  // No other request is accepted between the two readings of a request.
  ghost predicate InOrder(log: seq<Acceptance>, clock: real) {
    && (forall i :: 0 <= i < |log| ==> log[i].checked <= log[i].at <= clock)
    && (forall i, j :: 0 <= i < j < |log| ==> log[i].at <= log[j].checked)
  }

  // Two acceptances of one signature are at least `keep` apart.
  ghost predicate Apart(log: seq<Acceptance>, keep: real) {
    forall i, j :: 0 <= i < j < |log| && log[i].key == log[j].key ==> log[j].at - log[i].at >= keep
  }

  // The cache holds the acceptances from `dropped` on.
  ghost predicate Holds(seen: seq<Entry>, log: seq<Acceptance>, dropped: nat, keep: real) {
    && dropped <= |log| && |seen| == |log| - dropped
    && (forall i :: dropped <= i < |log| ==> seen[i - dropped] == Entry(log[i].key, log[i].at + keep))
  }

  // The others have expired.
  ghost predicate Expired(log: seq<Acceptance>, dropped: nat, keep: real, clock: real) {
    forall i :: 0 <= i < dropped && i < |log| ==> log[i].at + keep <= clock
  }

  // Accepted within the last `keep` seconds.
  ghost predicate Recent(log: seq<Acceptance>, key: string, keep: real, now: real) {
    exists i :: 0 <= i < |log| && log[i].key == key && log[i].at > now - keep
  }

  predicate Cached(seen: seq<Entry>, key: string) {
    exists i :: 0 <= i < |seen| && seen[i].key == key
  }

  // The front of the cache goes as far as it has expired.
  function Pruned(seen: seq<Entry>, now: real): seq<Entry> {
    if seen != [] && seen[0].expires <= now then Pruned(seen[1..], now) else seen
  }

  lemma PruneKeeps(seen: seq<Entry>, log: seq<Acceptance>, dropped: nat, keep: real, now: real)
    requires Holds(seen, log, dropped, keep) && seen != [] && seen[0].expires <= now
    ensures Holds(seen[1..], log, dropped + 1, keep)
    ensures Expired(log, dropped, keep, now) ==> Expired(log, dropped + 1, keep, now)
  {
    assert seen[dropped - dropped] == Entry(log[dropped].key, log[dropped].at + keep);
    forall i | dropped + 1 <= i < |log| ensures seen[1..][i - (dropped + 1)] == Entry(log[i].key, log[i].at + keep) {
      assert seen[1..][i - (dropped + 1)] == seen[i - dropped];
    }
  }

  // Once the oldest entry has not expired, the cache is what is recent.
  lemma CachedIsRecent(seen: seq<Entry>, log: seq<Acceptance>, dropped: nat, keep: real, now: real, key: string)
    requires Holds(seen, log, dropped, keep) && Expired(log, dropped, keep, now) && InOrder(log, now)
    requires seen != [] ==> seen[0].expires > now
    ensures Cached(seen, key) <==> Recent(log, key, keep, now)
  {
    if Cached(seen, key) {
      var i :| 0 <= i < |seen| && seen[i].key == key;
      assert seen[dropped - dropped] == Entry(log[dropped].key, log[dropped].at + keep);
      assert seen[(dropped + i) - dropped] == Entry(log[dropped + i].key, log[dropped + i].at + keep);
      assert log[dropped].at <= log[dropped + i].at;
    }
    if Recent(log, key, keep, now) {
      var i :| 0 <= i < |log| && log[i].key == key && log[i].at > now - keep;
      assert seen[i - dropped].key == key;
    }
  }

  lemma AcceptKeeps(log: seq<Acceptance>, keep: real, clock: real, checked: real, now: real, key: string)
    requires InOrder(log, clock) && clock <= checked <= now && Apart(log, keep) && !Recent(log, key, keep, now)
    ensures var log' := log + [Acceptance(key, checked, now)]; InOrder(log', now) && Apart(log', keep)
  {
  }

  lemma Holding(seen: seq<Entry>, log: seq<Acceptance>, dropped: nat, keep: real, checked: real, now: real, key: string)
    requires Holds(seen, log, dropped, keep)
    ensures Holds(seen + [Entry(key, now + keep)], log + [Acceptance(key, checked, now)], dropped, keep)
    ensures Expired(log, dropped, keep, now) ==> Expired(log + [Acceptance(key, checked, now)], dropped, keep, now)
  {
  }

  lemma ExpiredStays(log: seq<Acceptance>, dropped: nat, keep: real, clock: real, now: real)
    requires clock <= now
    ensures Expired(log, dropped, keep, clock) ==> Expired(log, dropped, keep, now)
    ensures InOrder(log, clock) ==> InOrder(log, now)
  {
  }

  // While the clock does not step back.
  ghost predicate Kept(log: seq<Acceptance>, dropped: nat, keep: real, clock: real) {
    Expired(log, dropped, keep, clock) && InOrder(log, clock) && Apart(log, keep)
  }

  // One call on a pruned cache: the answer, and what is kept.
  lemma Asked(seen: seq<Entry>, log: seq<Acceptance>, dropped: nat, keep: real, clock: real, checked: real, now: real, key: string)
    requires Holds(seen, log, dropped, keep) && (seen != [] ==> seen[0].expires > now)
    requires clock <= checked <= now && InOrder(log, clock) && Apart(log, keep) && Expired(log, dropped, keep, now)
    ensures Cached(seen, key) <==> Recent(log, key, keep, now)
    ensures Kept(if Cached(seen, key) then log else log + [Acceptance(key, checked, now)], dropped, keep, now)
  {
    hide Cached, Recent, Apart, InOrder, Holds, Expired;
    ExpiredStays(log, dropped, keep, clock, now);
    CachedIsRecent(seen, log, dropped, keep, now, key);
    if !Cached(seen, key) {
      Holding(seen, log, dropped, keep, checked, now, key);
      AcceptKeeps(log, keep, clock, checked, now, key);
    }
  }

  // ------------------------------------------------------------ with the time window

  // check_timestamp
  predicate InWindow(stamp: real, now: real, skew: real) {
    -skew <= now - stamp <= skew
  }

  // The three readings of the clock for one request: before its body is read,
  // when its signature is verified, when the guard is asked.
  datatype Readings = Readings(early: real, checked: real, now: real) {
    predicate Forward() { early <= checked <= now }

    predicate Timely(stamp: real, skew: real) {
      InWindow(stamp, early, skew) && InWindow(stamp, checked, skew)
    }
  }

  // The last acceptance of a key.
  ghost predicate Last(log: seq<Acceptance>, i: nat, key: string) {
    i < |log| && log[i].key == key && forall j :: i < j < |log| ==> log[j].key != key
  }

  // A request that was accepted passes all checks again exactly when its
  // signature is verified no later than its window ends, but the guard is
  // asked when the cache has forgotten it.
  lemma AgainExactly(log: seq<Acceptance>, i: nat, key: string, stamp: real, skew: real, r: Readings)
    requires skew >= 0.0 && r.Forward() && InOrder(log, r.checked)
    requires Last(log, i, key) && log[i].checked >= stamp - skew
    ensures r.Timely(stamp, skew) && !Recent(log, key, 2.0 * skew, r.now) <==>
      && stamp - skew <= r.early && r.checked <= stamp + skew
      && r.now >= log[i].at + 2.0 * skew
  {
    if !Recent(log, key, 2.0 * skew, r.now) {
      assert log[i].at <= r.now - 2.0 * skew;
    }
    if r.now >= log[i].at + 2.0 * skew {
      forall j | 0 <= j < |log| && log[j].key == key ensures log[j].at <= r.now - 2.0 * skew {
        assert j < i ==> log[j].at <= log[i].checked;
      }
    }
  }

  // Each acceptance was verified in the window of the timestamp that its
  // signature covers.
  ghost predicate Stamped(log: seq<Acceptance>, stamps: string -> real, skew: real) {
    forall i :: 0 <= i < |log| ==> InWindow(stamps(log[i].key), log[i].checked, skew)
  }

  // How often a key was accepted.
  function Times(log: seq<Acceptance>, key: string): nat {
    if log == [] then 0
    else Times(log[..|log| - 1], key) + if log[|log| - 1].key == key then 1 else 0
  }

  function Windows(n: int, skew: real): real {
    n as real * (2.0 * skew)
  }

  lemma WindowsStep(n: int, skew: real)
    ensures Windows(n + 1, skew) == Windows(n, skew) + 2.0 * skew
    ensures Windows(0, skew) == 0.0
    ensures n >= 0 && skew >= 0.0 ==> Windows(n, skew) >= 0.0
  {
    assert (n + 1) as real * (2.0 * skew) == n as real * (2.0 * skew) + 2.0 * skew;
  }

  // So many acceptances take so long: each but the first at least two skews.
  lemma {:induction false} Spread(log: seq<Acceptance>, stamps: string -> real, skew: real, clock: real, i: nat, key: string)
    requires InOrder(log, clock) && Apart(log, 2.0 * skew) && Stamped(log, stamps, skew) && Last(log, i, key)
    ensures Times(log, key) >= 1
    ensures log[i].at - (stamps(key) - skew) >= Windows(Times(log, key) - 1, skew)
  {
    hide Windows;
    var front := log[..|log| - 1];
    if i < |front| {
      assert front[i] == log[i];
      Spread(front, stamps, skew, clock, i, key);
    } else if Times(front, key) > 0 {
      var j := Latest(front, key);
      assert log[i].at - log[j].at >= 2.0 * skew;
      Spread(front, stamps, skew, clock, j, key);
      WindowsStep(Times(front, key) - 1, skew);
    } else {
      assert InWindow(stamps(key), log[i].checked, skew);
      WindowsStep(0, skew);
    }
  }

  lemma {:induction false} Latest(log: seq<Acceptance>, key: string) returns (j: nat)
    requires Times(log, key) > 0
    ensures Last(log, j, key)
  {
    if log[|log| - 1].key == key {
      j := |log| - 1;
    } else {
      j := Latest(log[..|log| - 1], key);
    }
  }

  // A second acceptance takes a request whose guard was asked later after its
  // verification than the first was accepted after its window began.
  lemma SecondTakesDelay(log: seq<Acceptance>, stamps: string -> real, skew: real, clock: real, i: nat, j: nat)
    requires InOrder(log, clock) && Apart(log, 2.0 * skew) && Stamped(log, stamps, skew)
    requires i < j < |log| && log[i].key == log[j].key
    ensures log[j].at - log[j].checked >= log[i].at - (stamps(log[i].key) - skew) >= 0.0
  {
    assert InWindow(stamps(log[i].key), log[i].checked, skew) && InWindow(stamps(log[j].key), log[j].checked, skew);
  }

  // In general n acceptances of one signature take a delay of n - 2 windows
  // between the two readings of the last; so with shorter delays than a window
  // there are at most two.
  lemma DelayOfTheLast(log: seq<Acceptance>, stamps: string -> real, skew: real, clock: real, i: nat, key: string)
    requires InOrder(log, clock) && Apart(log, 2.0 * skew) && Stamped(log, stamps, skew) && Last(log, i, key)
    ensures log[i].at - log[i].checked >= Windows(Times(log, key) - 2, skew)
    ensures log[i].at - log[i].checked < 2.0 * skew ==> Times(log, key) <= 2
  {
    hide Windows, Times, Apart;
    var n: int := Times(log, key);
    Spread(log, stamps, skew, clock, i, key);
    assert InWindow(stamps(key), log[i].checked, skew);
    WindowsStep(n - 2, skew);
    WindowsStep(n - 3, skew);
  }

  class ReplayGuard {
    const skew: real
    const keep: real
    var seen: seq<Entry>
    // Every acceptance so far, and whether the clock never stepped back.
    ghost var log: seq<Acceptance>
    ghost var dropped: nat
    ghost var clock: real
    ghost var steady: bool

    ghost predicate Valid()
      reads this
    {
      keep == 2.0 * skew && Holds(seen, log, dropped, keep) && (steady ==> Kept(log, dropped, keep, clock))
    }

    constructor (skew: real, ghost now: real)
      ensures Valid() && this.skew == skew && log == [] && seen == [] && clock == now && steady
    {
      this.skew, keep, seen := skew, 2.0 * skew, [];
      log, dropped, clock, steady := [], 0, now, true;
    }

    // Whatever the clock does, the answer is whether the key is in the pruned
    // cache; while the clock does not step back that means recently accepted.
    // `checked` is the reading with which the signature was verified.
    method Replayed(key: string, ghost checked: real, now: real) returns (again: bool)
      requires Valid()
      modifies this
      ensures Valid() && clock == now && steady == (old(steady) && old(clock) <= checked <= now)
      ensures again <==> Cached(Pruned(old(seen), now), key)
      ensures seen == Pruned(old(seen), now) + if again then [] else [Entry(key, now + keep)]
      ensures steady ==> (again <==> Recent(old(log), key, keep, now))
      ensures log == if again then old(log) else old(log) + [Acceptance(key, checked, now)]
    {
      hide Holds, Expired, InOrder, Apart, Recent, Pruned, Cached;
      steady := steady && clock <= checked <= now;
      if steady {
        ExpiredStays(log, dropped, keep, clock, now);
      }
      Prune(now);
      again := Cached(seen, key);
      if steady {
        Asked(seen, log, dropped, keep, clock, checked, now, key);
      }
      clock := now;
      if !again {
        Holding(seen, log, dropped, keep, checked, now, key);
        seen, log := seen + [Entry(key, now + keep)], log + [Acceptance(key, checked, now)];
      }
    }

    method Prune(now: real)
      requires Holds(seen, log, dropped, keep) && (steady ==> Expired(log, dropped, keep, now))
      modifies this`seen, this`dropped
      ensures Holds(seen, log, dropped, keep) && (steady ==> Expired(log, dropped, keep, now))
      ensures seen == Pruned(old(seen), now) && (seen != [] ==> seen[0].expires > now)
    {
      hide Holds, Expired;
      while seen != [] && seen[0].expires <= now
        invariant Holds(seen, log, dropped, keep) && (steady ==> Expired(log, dropped, keep, now))
        invariant Pruned(seen, now) == Pruned(old(seen), now)
        decreases |seen|
      {
        PruneKeeps(seen, log, dropped, keep, now);
        seen, dropped := seen[1..], dropped + 1;
      }
    }

    // The check of a request: its timestamp before the body is read, its
    // timestamp and signature, then the guard, each with the clock as it is
    // then.  A signature covers its timestamp; `genuine` says whether it is one.
    method Accept(key: string, ghost stamps: string -> real, stamp: real, genuine: bool, r: Readings) returns (ok: bool)
      requires Valid() && stamp == stamps(key) && Stamped(log, stamps, skew)
      modifies this
      ensures Valid() && Stamped(log, stamps, skew)
      ensures log == if ok then old(log) + [Acceptance(key, r.checked, r.now)] else old(log)
      ensures steady && old(clock) <= r.checked <= r.now ==>
        (ok <==> genuine && r.Timely(stamp, skew) && !Recent(old(log), key, keep, r.now))
    {
      if !InWindow(stamp, r.early, skew) || !InWindow(stamp, r.checked, skew) || !genuine {
        return false;
      }
      var again := Replayed(key, r.checked, r.now);
      return !again;
    }
  }
}
