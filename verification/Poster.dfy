// The ordered delivery queue of a session.  Items are appended by other tasks
// while the sender is suspended; the server may fail, refuse, take a request and
// lose the acknowledgement, or see a request long after it was given up on.
module Poster {
  import opened Wrappers

  datatype Kind = Segments | Refinements | Gaps | Presence | Status

  datatype Item = Item(kind: Kind, payload: int, created: real)

  datatype Fate = Sent | Rejected | Expired

  datatype Outcome = Ok | Refused | Retry

  // What came back: nothing (an exception, a timeout) or a status code.
  datatype Reply = NoReply | Http(code: nat)
  {
    predicate Accepts() { Http? && code < 400 }
    predicate Refuses() { Http? && 400 <= code < 500 }
    predicate Answers() { Accepts() || Refuses() }
  }

  function Count(fates: seq<Fate>, fate: Fate): nat {
    if fates == [] then 0
    else Count(fates[..|fates| - 1], fate) + if fates[|fates| - 1] == fate then 1 else 0
  }

  function Repeat(fate: Fate, n: nat): (fates: seq<Fate>)
    ensures |fates| == n
  {
    seq(n, _ => fate)
  }

  lemma {:induction false} CountMore(fates: seq<Fate>, fate: Fate, n: nat)
    ensures Count(fates + Repeat(fate, n), fate) == Count(fates, fate) + n
    ensures forall other :: other != fate ==> Count(fates + Repeat(fate, n), other) == Count(fates, other)
  {
    if n == 0 {
      assert fates + Repeat(fate, 0) == fates;
    } else {
      var more := fates + Repeat(fate, n);
      assert more[..|more| - 1] == fates + Repeat(fate, n - 1);
      CountMore(fates, fate, n - 1);
    }
  }

  lemma {:induction false} NoneCounted(fates: seq<Fate>, fate: Fate)
    ensures Count(fates, fate) == 0 <==> forall i :: 0 <= i < |fates| ==> fates[i] != fate
  {
    if fates != [] {
      var front := fates[..|fates| - 1];
      NoneCounted(front, fate);
      assert forall i :: 0 <= i < |front| ==> front[i] == fates[i];
    }
  }

  lemma {:induction false} CountsAdd(fates: seq<Fate>)
    ensures Count(fates, Sent) + Count(fates, Rejected) + Count(fates, Expired) == |fates|
  {
    if fates != [] {
      CountsAdd(fates[..|fates| - 1]);
    }
  }

  ghost predicate Sorted(items: seq<Item>) {
    forall i, j :: 0 <= i < j < |items| ==> items[i].created <= items[j].created
  }

  lemma RestOf(items: seq<Item>, k: nat, n: nat)
    requires k + n <= |items|
    ensures items[k + n..] == items[k..][n..]
  {
  }

  lemma PutBehind(items: seq<Item>, more: seq<Item>, k: nat)
    requires items <= more && k <= |items|
    ensures items[k..] <= more[k..] == items[k..] + more[|items|..]
  {
  }

  lemma SortedTail(items: seq<Item>, k: nat)
    requires Sorted(items) && k <= |items|
    ensures Sorted(items[k..])
  {
  }

  // Exactly the first n of the pending items are older than the window.
  ghost predicate TooOld(window: real, clock: real, pending: seq<Item>, n: nat) {
    n <= |pending| && forall i :: 0 <= i < |pending| ==> (i < n <==> clock - pending[i].created > window)
  }

  // In time order, nothing after an item that is young enough is too old.
  lemma Younger(items: seq<Item>, n: nat, clock: real, window: real)
    requires Sorted(items) && n <= |items| && (n < |items| ==> clock - items[n].created <= window)
    requires forall i :: 0 <= i < n ==> clock - items[i].created > window
    ensures TooOld(window, clock, items, n)
  {
  }

  // ------------------------------------------------------------ first arrivals

  // A request holds the items [first, first + n).
  datatype Request = Request(first: nat, n: nat)
  {
    predicate Holds(i: nat) { first <= i < first + n }
  }

  // Indices of items in the order in which the server first saw them.
  ghost predicate Increasing(arrived: seq<nat>) {
    forall i, j :: 0 <= i < j < |arrived| ==> arrived[i] < arrived[j]
  }

  // It has seen everything in [head, seen), nothing from seen on.
  ghost predicate Seen(arrived: seq<nat>, head: nat, seen: nat) {
    && (forall i :: i in arrived ==> i < seen)
    && (forall i: nat :: head <= i < seen ==> i in arrived)
  }

  // What of a request the server has not seen.
  function New(arrived: seq<nat>, first: nat, n: nat): seq<nat> {
    if n == 0 then []
    else New(arrived, first, n - 1) + if first + n - 1 in arrived then [] else [first + n - 1]
  }

  // The server sees a request.
  function Arrive(arrived: seq<nat>, r: Request): seq<nat> {
    arrived + New(arrived, r.first, r.n)
  }

  // Everything that is new in the request comes after all that has arrived.
  ghost predicate Harmless(arrived: seq<nat>, r: Request) {
    forall i: nat, a: nat :: r.Holds(i) && i !in arrived && a in arrived ==> a < i
  }

  lemma {:induction false} NewMeans(arrived: seq<nat>, first: nat, n: nat)
    ensures Increasing(New(arrived, first, n))
    ensures forall i: nat :: i in New(arrived, first, n) <==> first <= i < first + n && i !in arrived
  {
    if n > 0 {
      NewMeans(arrived, first, n - 1);
      IncreasingConcat(New(arrived, first, n - 1), if first + n - 1 in arrived then [] else [first + n - 1]);
    }
  }

  lemma StillSeen(arrived: seq<nat>, later: seq<nat>)
    requires arrived <= later
    ensures forall i :: i in arrived ==> i in later
  {
  }

  lemma IncreasingConcat(a: seq<nat>, b: seq<nat>)
    ensures Increasing(a + b) <==>
      Increasing(a) && Increasing(b) && forall i: nat, j: nat :: i in a && j in b ==> i < j
  {
    var c := a + b;
    assert forall i :: 0 <= i < |a| ==> c[i] == a[i] && a[i] in a;
    assert forall j :: |a| <= j < |c| ==> c[j] == b[j - |a|] && b[j - |a|] in b;
    if Increasing(c) {
      forall i, j | 0 <= i < j < |b| ensures b[i] < b[j] {
        assert c[|a| + i] < c[|a| + j];
      }
      forall i: nat, j: nat | i in a && j in b ensures i < j {
        var x, y :| 0 <= x < |a| && a[x] == i && 0 <= y < |b| && b[y] == j;
        assert c[x] < c[|a| + y];
      }
    }
  }

  // A request that is seen, whenever that is, keeps the order of first arrivals
  // exactly if it is harmless then.
  lemma ArriveKeepsExactly(arrived: seq<nat>, r: Request)
    ensures Increasing(Arrive(arrived, r)) <==> Increasing(arrived) && Harmless(arrived, r)
    ensures forall i: nat :: i in Arrive(arrived, r) <==> i in arrived || r.Holds(i)
  {
    NewMeans(arrived, r.first, r.n);
    IncreasingConcat(arrived, New(arrived, r.first, r.n));
  }

  // A request from the head of the queue, or its repetition, is harmless; so is
  // one from before whose items that left the queue were all seen.
  lemma HeadIsHarmless(arrived: seq<nat>, head: nat, seen: nat, r: Request)
    requires Seen(arrived, head, seen) && r.first <= head
    requires forall i: nat :: r.Holds(i) && i < head ==> i in arrived
    ensures Harmless(arrived, r)
  {
  }

  lemma ArriveSeen(arrived: seq<nat>, head: nat, seen: nat, r: Request)
    requires Seen(arrived, head, seen) && r.first <= head
    ensures Seen(Arrive(arrived, r), head, Max(seen, r.first + r.n))
  {
    ArriveKeepsExactly(arrived, r);
  }

  // What the server has seen, beside the queue: `fates` are those of the items
  // that left it, `puts` counts all that were put, `strays` are the requests
  // that were given up on and not seen yet, and `harmed` says whether one was not
  // harmless when it was seen.
  ghost predicate AtServer(arrived: seq<nat>, seen: nat, strays: seq<Request>, harmed: bool, fates: seq<Fate>, puts: nat) {
    && Seen(arrived, |fates|, seen) && seen <= puts
    && (forall i: nat :: i < |fates| && fates[i] != Expired ==> i in arrived)
    && (forall i :: 0 <= i < |strays| ==> Sendable(strays[i], |fates|, puts))
    && (harmed <==> !Increasing(arrived))
    && (harmed ==> Expired in fates)
  }

  predicate Sendable(r: Request, head: nat, puts: nat) {
    r.first <= head && r.first + r.n <= puts
  }

  lemma PutKeeps(arrived: seq<nat>, seen: nat, strays: seq<Request>, harmed: bool, fates: seq<Fate>, puts: nat)
    requires AtServer(arrived, seen, strays, harmed, fates, puts)
    ensures AtServer(arrived, seen, strays, harmed, fates, puts + 1)
  {
  }

  lemma LeaveKeeps(arrived: seq<nat>, seen: nat, strays: seq<Request>, harmed: bool, fates: seq<Fate>, puts: nat, fate: Fate, n: nat)
    requires AtServer(arrived, seen, strays, harmed, fates, puts)
    requires fate != Expired ==> forall i: nat :: Request(|fates|, n).Holds(i) ==> i in arrived
    ensures AtServer(arrived, seen, strays, harmed, fates + Repeat(fate, n), puts)
  {
    hide Increasing;
    assert Expired in fates ==> Expired in fates + Repeat(fate, n);
  }

  // A request is seen: nothing is harmed if it is from the head, or nothing expired.
  lemma ReachKeeps(arrived: seq<nat>, seen: nat, strays: seq<Request>, harmed: bool, fates: seq<Fate>, puts: nat, r: Request)
    requires AtServer(arrived, seen, strays, harmed, fates, puts) && Sendable(r, |fates|, puts)
    ensures AtServer(Arrive(arrived, r), Max(seen, r.first + r.n), strays, harmed || !Harmless(arrived, r), fates, puts)
    ensures r.first == |fates| || Expired !in fates ==> Harmless(arrived, r)
    ensures forall i: nat :: r.Holds(i) ==> i in Arrive(arrived, r)
  {
    ArriveKeepsExactly(arrived, r);
    ArriveSeen(arrived, |fates|, seen, r);
    if Expired !in fates || r.first == |fates| {
      HeadIsHarmless(arrived, |fates|, seen, r);
    }
    hide Arrive, Increasing;
  }

  lemma StraysMove(arrived: seq<nat>, seen: nat, strays: seq<Request>, harmed: bool, fates: seq<Fate>, puts: nat)
    requires AtServer(arrived, seen, strays, harmed, fates, puts)
    ensures forall k :: 0 <= k < |strays| ==> Sendable(strays[k], |fates|, puts)
    ensures forall k :: 0 <= k < |strays| ==>
      AtServer(arrived, seen, strays[..k] + strays[k + 1..], harmed, fates, puts)
    ensures forall r :: Sendable(r, |fates|, puts) ==> AtServer(arrived, seen, strays + [r], harmed, fates, puts)
  {
    hide Seen, Increasing;
  }

  // A request that arrives after its items expired and a later request was
  // seen always breaks the order.
  lemma LateArrival(arrived: seq<nat>, late: Request, next: Request)
    requires late.n > 0 && next.n > 0 && late.first + late.n <= next.first
    requires forall i: nat :: late.Holds(i) ==> i !in arrived
    ensures !Increasing(Arrive(Arrive(arrived, next), late))
  {
    ArriveKeepsExactly(arrived, next);
    ArriveKeepsExactly(Arrive(arrived, next), late);
    assert late.Holds(late.first) && next.Holds(next.first);
  }

  // ------------------------------------------------------------ what the loop did

  // One request: when it was made, the items that left the queue before it, what
  // was pending then, what it held, and what came back.
  datatype Attempt = Attempt(at: real, first: nat, pending: seq<Item>, items: seq<Item>, reply: Reply)

  // lefts: when the items left the queue
  datatype Log = Log(enqueued: seq<Item>, fates: seq<Fate>, lefts: seq<real>, attempts: seq<Attempt>, retries: nat)

  // The longest prefix of one kind, at most maxBatch; a status goes alone.
  ghost predicate IsBatch(maxBatch: nat, pending: seq<Item>, batch: seq<Item>) {
    && 1 <= |batch| <= maxBatch && batch <= pending
    && (forall i :: 0 <= i < |batch| ==> batch[i].kind == pending[0].kind)
    && (pending[0].kind == Status ==> |batch| == 1)
    && (pending[0].kind != Status && |batch| < |pending| && |batch| < maxBatch ==>
          pending[|batch|].kind != pending[0].kind)
  }

  lemma BatchIsPrefix(maxBatch: nat, pending: seq<Item>, batch: seq<Item>)
    requires IsBatch(maxBatch, pending, batch)
    ensures 1 <= |batch| && batch <= pending
  {
  }

  // A failure in a row has its delay from the table, all after the table the last.
  function DelayOf(backoff: seq<real>, n: nat): real
    requires backoff != []
  {
    if n < |backoff| then backoff[n] else backoff[|backoff| - 1]
  }

  // How many of the last requests in a row were not answered.
  function InARow(attempts: seq<Attempt>): nat {
    if attempts == [] || attempts[|attempts| - 1].reply.Answers() then 0
    else InARow(attempts[..|attempts| - 1]) + 1
  }

  function Unanswered(attempts: seq<Attempt>): nat {
    if attempts == [] then 0
    else Unanswered(attempts[..|attempts| - 1]) + if attempts[|attempts| - 1].reply.Answers() then 0 else 1
  }

  // One turn of the loop, with something pending: what is too old expires; of the
  // rest the batch is sent; an answer gives it its fate, no answer leaves it and
  // costs a delay.
  ghost predicate Turned(window: real, maxBatch: nat, backoff: seq<real>, clock: real, pending: seq<Item>, log: Log,
                         attempt: nat, clock': real, log': Log, next: nat)
    requires backoff != []
  {
    && log.enqueued <= log'.enqueued && clock <= clock'
    && exists n: nat :: TooOld(window, clock, pending, n)
         && if n == |pending| then log' == Gone(log, Expired, n, clock).(enqueued := log'.enqueued) && next == attempt
            else Requested(maxBatch, backoff, clock, pending[n..], Gone(log, Expired, n, clock), attempt, clock', log', next)
  }

  ghost predicate Requested(maxBatch: nat, backoff: seq<real>, clock: real, pending: seq<Item>, log: Log,
                            attempt: nat, clock': real, log': Log, next: nat)
    requires backoff != []
  {
    exists batch: seq<Item>, reply: Reply, left: real ::
      RequestedAs(maxBatch, backoff, clock, pending, log, attempt, clock', log', next, batch, reply, left)
  }

  ghost predicate RequestedAs(maxBatch: nat, backoff: seq<real>, clock: real, pending: seq<Item>, log: Log,
                              attempt: nat, clock': real, log': Log, next: nat, batch: seq<Item>, reply: Reply, left: real)
    requires backoff != []
  {
    && IsBatch(maxBatch, pending, batch) && clock <= left <= clock'
    && var sent := log.(enqueued := log'.enqueued, attempts := log.attempts + [Attempt(clock, |log.fates|, pending, batch, reply)]);
       if reply.Answers() then
         log' == Gone(sent, if reply.Accepts() then Sent else Rejected, |batch|, left) && next == 0
       else
         log' == sent.(retries := log.retries + 1) && next == attempt + 1 && clock' >= clock + DelayOf(backoff, attempt)
  }

  // The next n items met their fate.
  function Gone(log: Log, fate: Fate, n: nat, now: real): Log {
    log.(fates := log.fates + Repeat(fate, n), lefts := log.lefts + Times(now, n))
  }

  function Times(now: real, n: nat): (r: seq<real>)
    ensures |r| == n && forall i :: 0 <= i < n ==> r[i] == now
  {
    seq(n, _ => now)
  }

  // ------------------------------------------------------------ what the log says

  // Each request held the batch of what was pending, nothing of it too old.
  ghost predicate AttemptOk(window: real, maxBatch: nat, enqueued: seq<Item>, a: Attempt) {
    && a.first + |a.pending| <= |enqueued|
    && a.pending == enqueued[a.first..a.first + |a.pending|]
    && IsBatch(maxBatch, a.pending, a.items)
    && forall i :: 0 <= i < |a.pending| ==> a.at - a.pending[i].created <= window
  }

  // What a request leaves to the next, and when that may be.
  function After(a: Attempt): nat {
    if a.reply.Answers() then a.first + |a.items| else a.first
  }

  function Earliest(backoff: seq<real>, attempts: seq<Attempt>, k: nat): real
    requires backoff != [] && k < |attempts|
  {
    attempts[k].at + if attempts[k].reply.Answers() then 0.0 else DelayOf(backoff, InARow(attempts[..k]))
  }

  ghost predicate InTurn(backoff: seq<real>, attempts: seq<Attempt>)
    requires backoff != []
  {
    forall k :: 0 <= k < |attempts| - 1 ==>
      After(attempts[k]) <= attempts[k + 1].first && Earliest(backoff, attempts, k) <= attempts[k + 1].at
  }

  // An answered request is what its items' fate came from.
  predicate Decides(a: Attempt, i: nat, fate: Fate) {
    && a.first <= i < a.first + |a.items|
    && (fate == Sent ==> a.reply.Accepts()) && (fate == Rejected ==> a.reply.Refuses())
  }

  ghost predicate FateOk(window: real, enqueued: seq<Item>, fates: seq<Fate>, lefts: seq<real>, attempts: seq<Attempt>, i: nat)
    requires i < |fates| <= |enqueued| && |lefts| == |fates|
  {
    if fates[i] == Expired then lefts[i] - enqueued[i].created > window
    else exists k :: 0 <= k < |attempts| && Decides(attempts[k], i, fates[i])
  }

  ghost predicate AnswerKept(fates: seq<Fate>, a: Attempt) {
    a.reply.Answers() ==>
      && a.first + |a.items| <= |fates|
      && forall i :: a.first <= i < a.first + |a.items| ==> fates[i] == if a.reply.Accepts() then Sent else Rejected
  }

  ghost predicate AttemptsOk(window: real, maxBatch: nat, enqueued: seq<Item>, attempts: seq<Attempt>) {
    forall k :: 0 <= k < |attempts| ==> AttemptOk(window, maxBatch, enqueued, attempts[k])
  }

  ghost predicate AnswersKept(fates: seq<Fate>, attempts: seq<Attempt>) {
    forall k :: 0 <= k < |attempts| ==> AnswerKept(fates, attempts[k])
  }

  ghost predicate FatesOk(window: real, enqueued: seq<Item>, fates: seq<Fate>, lefts: seq<real>, attempts: seq<Attempt>) {
    && |lefts| == |fates| <= |enqueued|
    && forall i :: 0 <= i < |fates| ==> FateOk(window, enqueued, fates, lefts, attempts, i)
  }

  // The next request may come now, with what is at the head of the queue.
  ghost predicate Due(backoff: seq<real>, attempts: seq<Attempt>, first: nat, now: real)
    requires backoff != []
  {
    attempts != [] ==>
      var k := |attempts| - 1;
      After(attempts[k]) <= first && Earliest(backoff, attempts, k) <= now
  }

  // All of it, at the end of a turn; `attempt` counts the failures in a row.
  ghost predicate Told(window: real, maxBatch: nat, backoff: seq<real>, log: Log, attempt: nat, clock: real)
    requires backoff != []
  {
    && AttemptsOk(window, maxBatch, log.enqueued, log.attempts)
    && AnswersKept(log.fates, log.attempts)
    && FatesOk(window, log.enqueued, log.fates, log.lefts, log.attempts)
    && InTurn(backoff, log.attempts) && Due(backoff, log.attempts, |log.fates|, clock)
    && attempt == InARow(log.attempts) && log.retries == Unanswered(log.attempts)
  }

  lemma PutTold(window: real, maxBatch: nat, log: Log, enqueued: seq<Item>)
    requires AttemptsOk(window, maxBatch, log.enqueued, log.attempts) && log.enqueued <= enqueued
    requires FatesOk(window, log.enqueued, log.fates, log.lefts, log.attempts)
    ensures AttemptsOk(window, maxBatch, enqueued, log.attempts)
    ensures FatesOk(window, enqueued, log.fates, log.lefts, log.attempts)
  {
    hide IsBatch;
    forall k | 0 <= k < |log.attempts| ensures AttemptOk(window, maxBatch, enqueued, log.attempts[k]) {
      var a := log.attempts[k];
      assert AttemptOk(window, maxBatch, log.enqueued, a);
      assert enqueued[a.first..a.first + |a.pending|] == log.enqueued[a.first..a.first + |a.pending|];
    }
    forall i | 0 <= i < |log.fates| ensures FateOk(window, enqueued, log.fates, log.lefts, log.attempts, i) {
      assert FateOk(window, log.enqueued, log.fates, log.lefts, log.attempts, i);
    }
  }

  lemma Later(window: real, maxBatch: nat, backoff: seq<real>, log: Log, attempt: nat, clock: real, enqueued: seq<Item>, clock': real)
    requires backoff != [] && Told(window, maxBatch, backoff, log, attempt, clock)
    requires log.enqueued <= enqueued && clock <= clock'
    ensures Told(window, maxBatch, backoff, log.(enqueued := enqueued), attempt, clock')
  {
    hide AttemptsOk, AnswersKept, FatesOk, InTurn, InARow, Unanswered, Earliest;
    PutTold(window, maxBatch, log, enqueued);
  }

  // Answers that were kept stay kept.
  lemma KeptStays(fates: seq<Fate>, more: seq<Fate>, attempts: seq<Attempt>)
    requires AnswersKept(fates, attempts)
    ensures AnswersKept(fates + more, attempts)
  {
    forall k | 0 <= k < |attempts| ensures AnswerKept(fates + more, attempts[k]) {
      assert AnswerKept(fates, attempts[k]);
    }
  }

  // What is too old expires.
  lemma ExpireFates(window: real, log: Log, clock: real, n: nat)
    requires FatesOk(window, log.enqueued, log.fates, log.lefts, log.attempts)
    requires TooOld(window, clock, log.enqueued[|log.fates|..], n)
    ensures var log' := Gone(log, Expired, n, clock); FatesOk(window, log.enqueued, log'.fates, log'.lefts, log.attempts)
  {
    var log' := Gone(log, Expired, n, clock);
    assert |log'.fates| == |log.fates| + n;
    forall i | 0 <= i < |log'.fates| ensures FateOk(window, log.enqueued, log'.fates, log'.lefts, log.attempts, i) {
      if i < |log.fates| {
        assert FateOk(window, log.enqueued, log.fates, log.lefts, log.attempts, i);
      } else {
        assert log.enqueued[i] == log.enqueued[|log.fates|..][i - |log.fates|];
        assert log'.lefts[i] == clock && log'.fates[i] == Expired;
      }
    }
  }

  lemma ExpireTold(window: real, maxBatch: nat, backoff: seq<real>, log: Log, attempt: nat, clock: real, n: nat)
    requires backoff != [] && Told(window, maxBatch, backoff, log, attempt, clock)
    requires TooOld(window, clock, log.enqueued[|log.fates|..], n)
    ensures Told(window, maxBatch, backoff, Gone(log, Expired, n, clock), attempt, clock)
  {
    hide AttemptsOk, AnswersKept, FatesOk, InTurn, InARow, Unanswered, Earliest;
    ExpireFates(window, log, clock, n);
    KeptStays(log.fates, Repeat(Expired, n), log.attempts);
  }

  // One more request.
  lemma CountsMore(attempts: seq<Attempt>, a: Attempt)
    ensures InARow(attempts + [a]) == if a.reply.Answers() then 0 else InARow(attempts) + 1
    ensures Unanswered(attempts + [a]) == Unanswered(attempts) + if a.reply.Answers() then 0 else 1
  {
    assert (attempts + [a])[..|attempts|] == attempts;
  }

  lemma EarliestMore(backoff: seq<real>, attempts: seq<Attempt>, a: Attempt)
    requires backoff != []
    ensures forall k :: 0 <= k < |attempts| ==> Earliest(backoff, attempts + [a], k) == Earliest(backoff, attempts, k)
    ensures Earliest(backoff, attempts + [a], |attempts|) ==
      a.at + if a.reply.Answers() then 0.0 else DelayOf(backoff, InARow(attempts))
  {
    hide InARow, DelayOf;
    var all := attempts + [a];
    assert forall k :: 0 <= k <= |attempts| ==> all[..k] == attempts[..k];
    assert attempts[..|attempts|] == attempts;
  }

  lemma InTurnMore(backoff: seq<real>, attempts: seq<Attempt>, a: Attempt)
    requires backoff != [] && InTurn(backoff, attempts) && Due(backoff, attempts, a.first, a.at)
    ensures InTurn(backoff, attempts + [a])
  {
    EarliestMore(backoff, attempts, a);
    hide Earliest, After;
    var all := attempts + [a];
    forall k | 0 <= k < |all| - 1 ensures After(all[k]) <= all[k + 1].first && Earliest(backoff, all, k) <= all[k + 1].at {
      assert all[k] == attempts[k];
      if k + 1 < |attempts| {
        assert all[k + 1] == attempts[k + 1];
      }
    }
  }

  lemma FatesMore(window: real, enqueued: seq<Item>, fates: seq<Fate>, lefts: seq<real>, attempts: seq<Attempt>,
                  a: Attempt, fate: Fate, n: nat, now: real)
    requires FatesOk(window, enqueued, fates, lefts, attempts)
    requires |fates| == a.first && a.first + |a.items| <= |enqueued|
    requires if a.reply.Answers() then n == |a.items| && fate == (if a.reply.Accepts() then Sent else Rejected) else n == 0
    ensures FatesOk(window, enqueued, fates + Repeat(fate, n), lefts + Times(now, n), attempts + [a])
  {
    var all, fates', lefts' := attempts + [a], fates + Repeat(fate, n), lefts + Times(now, n);
    forall i | 0 <= i < |fates'| ensures FateOk(window, enqueued, fates', lefts', all, i) {
      if i < a.first {
        assert FateOk(window, enqueued, fates, lefts, attempts, i);
        if fates[i] != Expired {
          var k :| 0 <= k < |attempts| && Decides(attempts[k], i, fates[i]);
          assert all[k] == attempts[k];
        }
      } else {
        assert Decides(all[|attempts|], i, fates'[i]);
      }
    }
  }

  lemma KeptMore(fates: seq<Fate>, attempts: seq<Attempt>, a: Attempt, fate: Fate, n: nat)
    requires AnswersKept(fates, attempts) && |fates| == a.first
    requires if a.reply.Answers() then n == |a.items| && fate == (if a.reply.Accepts() then Sent else Rejected) else n == 0
    ensures AnswersKept(fates + Repeat(fate, n), attempts + [a])
  {
    KeptStays(fates, Repeat(fate, n), attempts);
    assert AnswerKept(fates + Repeat(fate, n), a);
    hide AnswerKept;
  }

  lemma AttemptsMore(window: real, maxBatch: nat, log: Log, clock: real, enqueued: seq<Item>, batch: seq<Item>, reply: Reply)
    requires AttemptsOk(window, maxBatch, enqueued, log.attempts) && log.enqueued <= enqueued && |log.fates| <= |log.enqueued|
    requires var pending := log.enqueued[|log.fates|..]; TooOld(window, clock, pending, 0) && IsBatch(maxBatch, pending, batch)
    ensures AttemptsOk(window, maxBatch, enqueued,
      log.attempts + [Attempt(clock, |log.fates|, log.enqueued[|log.fates|..], batch, reply)])
  {
    hide IsBatch;
    var pending := log.enqueued[|log.fates|..];
    assert pending == enqueued[|log.fates|..|log.fates| + |pending|];
    assert AttemptOk(window, maxBatch, enqueued, Attempt(clock, |log.fates|, pending, batch, reply));
    hide AttemptOk;
  }

  // The three parts of what a request leaves.
  lemma RequestFates(window: real, maxBatch: nat, log: Log, a: Attempt, log': Log, left: real)
    requires AttemptsOk(window, maxBatch, log.enqueued, log.attempts) && AnswersKept(log.fates, log.attempts)
    requires FatesOk(window, log.enqueued, log.fates, log.lefts, log.attempts) && log.enqueued <= log'.enqueued
    requires |log.fates| == a.first && a.first + |a.items| <= |log.enqueued|
    requires Delivered(log, a, log', left)
    ensures FatesOk(window, log'.enqueued, log'.fates, log'.lefts, log.attempts + [a])
    ensures AnswersKept(log'.fates, log.attempts + [a])
  {
    hide AttemptsOk, AnswersKept, FatesOk, Repeat, Times;
    PutTold(window, maxBatch, log, log'.enqueued);
    var fate := if a.reply.Accepts() then Sent else Rejected;
    var n := if a.reply.Answers() then |a.items| else 0;
    FatesMore(window, log'.enqueued, log.fates, log.lefts, log.attempts, a, fate, n, left);
    KeptMore(log.fates, log.attempts, a, fate, n);
    Nothing(log.fates, log.lefts, fate, left);
  }

  ghost predicate Delivered(log: Log, a: Attempt, log': Log, left: real) {
    if a.reply.Answers() then
      && log'.fates == log.fates + Repeat(if a.reply.Accepts() then Sent else Rejected, |a.items|)
      && log'.lefts == log.lefts + Times(left, |a.items|)
    else log'.fates == log.fates && log'.lefts == log.lefts
  }

  lemma RequestTurn(backoff: seq<real>, log: Log, a: Attempt, log': Log, left: real, attempt: nat, next: nat, clock': real)
    requires backoff != [] && InTurn(backoff, log.attempts) && Due(backoff, log.attempts, a.first, a.at)
    requires |log.fates| == a.first && Delivered(log, a, log', left) && a.at <= clock'
    requires attempt == InARow(log.attempts)
    requires if a.reply.Answers() then next == 0 else next == attempt + 1 && clock' >= a.at + DelayOf(backoff, attempt)
    ensures InTurn(backoff, log.attempts + [a]) && Due(backoff, log.attempts + [a], |log'.fates|, clock')
    ensures next == InARow(log.attempts + [a])
  {
    hide InARow, Unanswered, Earliest, DelayOf;
    CountsMore(log.attempts, a);
    EarliestMore(backoff, log.attempts, a);
    InTurnMore(backoff, log.attempts, a);
    hide InTurn;
  }

  lemma RequestTold(window: real, maxBatch: nat, backoff: seq<real>, clock: real, log: Log, attempt: nat,
                    clock': real, log': Log, next: nat)
    requires backoff != [] && Told(window, maxBatch, backoff, log, attempt, clock)
    requires var pending := log.enqueued[|log.fates|..];
      && TooOld(window, clock, pending, 0) && log.enqueued <= log'.enqueued && clock <= clock'
      && Requested(maxBatch, backoff, clock, pending, log, attempt, clock', log', next)
    ensures Told(window, maxBatch, backoff, log', next, clock')
  {
    assert |log.fates| <= |log.enqueued|;
    hide InARow, Unanswered, InTurn, Due, IsBatch, DelayOf, AttemptsOk, AnswersKept, FatesOk, TooOld;
    var pending := log.enqueued[|log.fates|..];
    var batch: seq<Item>, reply: Reply, left: real :|
      RequestedAs(maxBatch, backoff, clock, pending, log, attempt, clock', log', next, batch, reply, left);
    var a := Attempt(clock, |log.fates|, pending, batch, reply);
    BatchIsPrefix(maxBatch, pending, batch);
    assert Delivered(log, a, log', left);
    hide Delivered;
    PutTold(window, maxBatch, log, log'.enqueued);
    AttemptsMore(window, maxBatch, log, clock, log'.enqueued, batch, reply);
    CountsMore(log.attempts, a);
    RequestFates(window, maxBatch, log, a, log', left);
    RequestTurn(backoff, log, a, log', left, attempt, next, clock');
  }

  lemma Nothing(fates: seq<Fate>, lefts: seq<real>, fate: Fate, now: real)
    ensures fates + Repeat(fate, 0) == fates && lefts + Times(now, 0) == lefts
  {
  }

  // A turn keeps all of it.
  lemma TurnTold(window: real, maxBatch: nat, backoff: seq<real>, clock: real, pending: seq<Item>, log: Log,
                 attempt: nat, clock': real, log': Log, next: nat)
    requires backoff != [] && Told(window, maxBatch, backoff, log, attempt, clock) && pending == log.enqueued[|log.fates|..]
    requires Turned(window, maxBatch, backoff, clock, pending, log, attempt, clock', log', next)
    ensures Told(window, maxBatch, backoff, log', next, clock')
  {
    hide Requested, InTurn, InARow, Unanswered, Earliest, FateOk, AttemptsOk, AnswersKept;
    var n: nat :| TooOld(window, clock, pending, n)
      && if n == |pending| then log' == Gone(log, Expired, n, clock).(enqueued := log'.enqueued) && next == attempt
         else Requested(maxBatch, backoff, clock, pending[n..], Gone(log, Expired, n, clock), attempt, clock', log', next);
    var gone := Gone(log, Expired, n, clock);
    assert |log.fates| + n <= |log.enqueued| && |gone.fates| == |log.fates| + n;
    hide Told;
    ExpireTold(window, maxBatch, backoff, log, attempt, clock, n);
    if n == |pending| {
      Later(window, maxBatch, backoff, gone, attempt, clock, log'.enqueued, clock');
    } else {
      RestOf(log.enqueued, |log.fates|, n);
      RequestTold(window, maxBatch, backoff, clock, gone, attempt, clock', log', next);
    }
  }

  // ------------------------------------------------------------ the queue

  class Poster {
    const window: real
    const maxBatch: nat
    const backoff: seq<real>
    var pending: seq<Item>
    var idle: bool
    var closing: bool
    var sent: nat
    var rejected: nat
    var expired: nat
    var retries: nat
    var clock: real               // what the clock shows
    ghost var enqueued: seq<Item>  // every item ever put
    ghost var fates: seq<Fate>     // of those that left the queue
    ghost var arrived: seq<nat>    // first arrivals at the server
    ghost var seen: nat
    ghost var strays: seq<Request> // given up on, and not seen by the server yet
    ghost var harmed: bool         // one of them was not harmless when it was seen
    ghost var lefts: seq<real>     // when the items left
    ghost var attempts: seq<Attempt>  // every request

    ghost function History(): Log
      reads this
    {
      Log(enqueued, fates, lefts, attempts, retries)
    }

    // The queue is what is left of everything put, in time order.
    ghost predicate Queue()
      reads this
    {
      && maxBatch > 0 && backoff != [] && (forall i :: 0 <= i < |backoff| ==> backoff[i] >= 0.0)
      && |fates| <= |enqueued| && pending == enqueued[|fates|..]
      && expired == Count(fates, Expired)
      && Sorted(enqueued)
      && (forall i :: 0 <= i < |enqueued| ==> enqueued[i].created <= clock)
      && (idle && !closing ==> pending == [])
      && AtServer(arrived, seen, strays, harmed, fates, |enqueued|)
    }

    // At every suspension point.
    ghost predicate Valid()
      reads this
    {
      Queue() && sent == Count(fates, Sent) && rejected == Count(fates, Rejected)
    }

    constructor (window: real, maxBatch: nat, backoff: seq<real>)
      requires maxBatch > 0 && backoff != [] && forall i :: 0 <= i < |backoff| ==> backoff[i] >= 0.0
      ensures Valid() && pending == [] && enqueued == []
      ensures this.window == window && this.maxBatch == maxBatch && this.backoff == backoff
      ensures Told(window, maxBatch, backoff, History(), 0, clock)
    {
      this.window, this.maxBatch, this.backoff := window, maxBatch, backoff;
      pending, idle, closing := [], true, false;
      sent, rejected, expired, retries := 0, 0, 0, 0;
      clock, enqueued, fates, arrived, seen, strays, harmed := 0.0, [], [], [], 0, [], false;
      lefts, attempts := [], [];
    }

    // Every item put is exactly one of sent, rejected, expired and pending.
    lemma Conservation()
      requires Valid()
      ensures |enqueued| == sent + rejected + expired + |pending|
    {
      CountsAdd(fates);
    }

    // First arrivals are in enqueue order unless a request arrived that was not
    // harmless, and that takes an item that expired.
    lemma FirstArrivals()
      requires Valid()
      ensures Increasing(arrived) <==> !harmed
      ensures expired == 0 ==> Increasing(arrived)
    {
      NoneCounted(fates, Expired);
    }

    method Put(kind: Kind, payload: int)
      requires Valid()
      modifies this`pending, this`idle, this`enqueued
      ensures Valid()
      ensures enqueued == old(enqueued) + [Item(kind, payload, clock)]
      ensures pending == old(pending) + [Item(kind, payload, clock)]
    {
      hide Count, AtServer;
      PutKeeps(arrived, seen, strays, harmed, fates, |enqueued|);
      var item := Item(kind, payload, clock);
      pending := pending + [item];
      idle := false;
      enqueued := enqueued + [item];
    }

    // The server sees a request: one from the head, or one that was given up on.
    ghost method Reach(r: Request)
      requires Valid() && Sendable(r, |fates|, |enqueued|)
      modifies this`arrived, this`seen, this`harmed
      ensures Valid() && old(arrived) <= arrived == Arrive(old(arrived), r)
      ensures harmed <==> old(harmed) || !Harmless(old(arrived), r)
      ensures r.first == |fates| || Expired !in fates ==> harmed == old(harmed)
      ensures forall i: nat :: r.Holds(i) ==> i in arrived
    {
      ReachKeeps(arrived, seen, strays, harmed, fates, |enqueued|, r);
      hide AtServer, Count, Harmless, Sorted;
      harmed := harmed || !Harmless(arrived, r);
      arrived := Arrive(arrived, r);
      seen := Max(seen, r.first + r.n);
    }

    // Requests that were given up on arrive, any of them, in any order.
    ghost method Arrivals()
      requires Valid()
      modifies this`arrived, this`seen, this`harmed, this`strays
      ensures Valid() && old(arrived) <= arrived && (old(harmed) ==> harmed)
      ensures Expired !in fates ==> harmed == old(harmed)
    {
      hide Count, AtServer, Sorted, Arrive, Harmless, Sendable;
      var more: nat := *;
      while more > 0 && strays != []
        invariant Valid() && old(arrived) <= arrived && (old(harmed) ==> harmed)
        invariant Expired !in fates ==> harmed == old(harmed)
        decreases more
      {
        StraysMove(arrived, seen, strays, harmed, fates, |enqueued|);
        var k :| 0 <= k < |strays|;
        Reach(strays[k]);
        StraysMove(arrived, seen, strays, harmed, fates, |enqueued|);
        strays := strays[..k] + strays[k + 1..];
        more := more - 1;
      }
    }

    // Any number of items are put and time passes; the session may be closing.
    // Requests that were given up on may arrive.
    method Suspend(atLeast: real)
      requires Valid() && atLeast >= 0.0
      modifies this`pending, this`idle, this`enqueued, this`clock, this`closing, this`arrived, this`seen, this`harmed, this`strays
      ensures Valid() && clock >= old(clock) + atLeast
      ensures old(arrived) <= arrived && (old(harmed) ==> harmed)
      ensures old(enqueued) <= enqueued && pending == old(pending) + enqueued[|old(enqueued)|..]
      ensures old(closing) ==> closing
      ensures enqueued == old(enqueued) ==> idle == old(idle)
    {
      assert |fates| <= |enqueued| && pending == enqueued[|fates|..];
      hide Count, AtServer, Sorted, Arrive, Poster.Queue;
      Arrivals();
      var puts: nat := *;
      while puts > 0
        invariant Valid() && clock >= old(clock) && closing == old(closing)
        invariant old(arrived) <= arrived && (old(harmed) ==> harmed)
        invariant old(enqueued) <= enqueued && (enqueued == old(enqueued) ==> idle == old(idle))
        decreases puts
      {
        Elsewhere();
        puts := puts - 1;
      }
      Wait(atLeast);
      QueueIs(old(enqueued));
    }

    // Another task puts an item, later.
    method Elsewhere()
      requires Valid()
      modifies this`pending, this`idle, this`enqueued, this`clock, this`arrived, this`seen, this`harmed, this`strays
      ensures Valid() && clock >= old(clock) && |enqueued| == |old(enqueued)| + 1
      ensures old(arrived) <= arrived && (old(harmed) ==> harmed) && old(enqueued) <= enqueued
    {
      hide Count, AtServer, Sorted, Arrive;
      var later: real := *;
      if later > clock {
        clock := later;
      }
      var kind: Kind, payload: int := *, *;
      Put(kind, payload);
      Arrivals();
    }

    method Wait(atLeast: real)
      requires Valid() && atLeast >= 0.0
      modifies this`clock, this`closing
      ensures Valid() && clock >= old(clock) + atLeast && (old(closing) ==> closing)
    {
      hide Count, AtServer, Sorted;
      var later: real := *;
      if later > clock {
        clock := later;
      }
      clock := clock + atLeast;
      var closes: bool := *;
      closing := closing || closes;
    }

    lemma QueueIs(before: seq<Item>)
      requires Valid() && |fates| <= |before| && before <= enqueued
      ensures pending == before[|fates|..] + enqueued[|before|..]
    {
      PutBehind(before, enqueued, |fates|);
    }

    // Drop what is too old: exactly that, because the queue is in time order.
    method Expire()
      requires Valid()
      modifies this`pending, this`expired, this`fates, this`lefts
      ensures Valid()
      ensures var n := |old(pending)| - |pending|;
        && n >= 0 && pending == old(pending)[n..]
        && TooOld(window, clock, old(pending), n)
        && History() == Gone(old(History()), Expired, n, clock)
    {
      hide Count, AtServer, Sorted, TooOld;
      SortedTail(enqueued, |fates|);
      var dropped := DropOld();
      RestOf(enqueued, |fates|, dropped);
      expired := expired + dropped;
      Leave(Expired, dropped);
    }

    method DropOld() returns (dropped: nat)
      requires Sorted(pending)
      modifies this`pending
      ensures dropped <= |old(pending)| && pending == old(pending)[dropped..]
      ensures TooOld(window, clock, old(pending), dropped)
    {
      hide Sorted;
      dropped := 0;
      while pending != [] && clock - pending[0].created > window
        invariant dropped <= |old(pending)| && pending == old(pending)[dropped..]
        invariant forall i :: 0 <= i < dropped ==> clock - old(pending)[i].created > window
        decreases |pending|
      {
        pending := pending[1..];
        dropped := dropped + 1;
      }
      Younger(old(pending), dropped, clock, window);
    }

    // Bookkeeping: the next n items met their fate.
    ghost method Leave(fate: Fate, n: nat)
      requires |fates| + n <= |enqueued| && AtServer(arrived, seen, strays, harmed, fates, |enqueued|)
      requires fate != Expired ==> forall i: nat :: |fates| <= i < |fates| + n ==> i in arrived
      modifies this`fates, this`lefts
      ensures fates == old(fates) + Repeat(fate, n) && |fates| == |old(fates)| + n
      ensures lefts == old(lefts) + Times(clock, n)
      ensures forall f :: Count(fates, f) == Count(old(fates), f) + if f == fate then n else 0
      ensures AtServer(arrived, seen, strays, harmed, fates, |enqueued|)
      ensures enqueued[|fates|..] == enqueued[|old(fates)|..][n..]
    {
      LeaveKeeps(arrived, seen, strays, harmed, fates, |enqueued|, fate, n);
      hide AtServer;
      CountMore(fates, fate, n);
      fates := fates + Repeat(fate, n);
      lefts := lefts + Times(clock, n);
    }

    // The longest prefix of one kind, at most maxBatch; a status goes alone.
    method TakeBatch() returns (batch: seq<Item>)
      requires Valid() && pending != []
      ensures IsBatch(maxBatch, pending, batch)
    {
      var head := pending[0];
      if head.kind == Status {
        return [head];
      }
      batch := [head];
      var i := 1;
      while i < |pending| && i < maxBatch
        invariant 1 <= i <= |pending| && i <= maxBatch && batch == pending[..i]
        invariant forall k :: 0 <= k < i ==> pending[k].kind == head.kind
      {
        if pending[i].kind != head.kind {
          break;
        }
        batch := batch + [pending[i]];
        i := i + 1;
      }
    }

    // One request, awaited: the server sees it meanwhile or not, and its answer
    // is seen or not.  An answer means that the server saw the request, an error
    // above 499 may come from something in between.  A request that the server has
    // not seen may arrive any time later.
    method Exchange(n: nat) returns (reply: Reply)
      requires Valid() && n <= |pending|
      modifies this`pending, this`idle, this`enqueued, this`clock, this`closing, this`arrived, this`seen, this`harmed, this`strays
      ensures Valid() && clock >= old(clock) && old(enqueued) <= enqueued
      ensures reply.Answers() ==> forall i: nat :: |fates| <= i < |fates| + n ==> i in arrived
      ensures old(arrived) <= arrived && (old(harmed) ==> harmed)
    {
      hide Count, AtServer, Arrive, Sorted, Harmless;
      Suspend(0.0);
      var reached: bool := *;
      ghost var r := Request(|fates|, n);
      if reached {
        Reach(r);
      }
      ghost var before := arrived;
      Suspend(0.0);
      StillSeen(before, arrived);
      var answered: bool, code: nat := *, *;
      reply := if answered then Http(code) else NoReply;
      if !reached {
        StraysMove(arrived, seen, strays, harmed, fates, |enqueued|);
        strays := strays + [r];
        if reply.Answers() {
          reply := NoReply;
        }
      }
    }

    // What the answer says decides.
    method Send(batch: seq<Item>) returns (outcome: Outcome, ghost reply: Reply)
      requires Valid() && batch != [] && batch <= pending
      modifies this`pending, this`idle, this`enqueued, this`clock, this`closing, this`sent, this`rejected, this`arrived, this`seen, this`harmed, this`strays, this`attempts
      ensures Queue() && clock >= old(clock) && old(pending) <= pending && old(enqueued) <= enqueued
      ensures sent == old(sent) + if outcome == Ok then |batch| else 0
      ensures rejected == old(rejected) + if outcome == Refused then |batch| else 0
      ensures (outcome == Ok <==> reply.Accepts()) && (outcome == Refused <==> reply.Refuses())
      ensures attempts == old(attempts) + [Attempt(old(clock), |fates|, old(pending), batch, reply)]
      ensures outcome != Retry ==> forall i: nat :: |fates| <= i < |fates| + |batch| ==> i in arrived
      ensures old(arrived) <= arrived && (old(harmed) ==> harmed)
    {
      hide Count, AtServer, Arrive, Sorted, Harmless;
      var answer := Exchange(|batch|);
      PutBehind(old(enqueued), enqueued, |fates|);
      reply := answer;
      attempts := attempts + [Attempt(old(clock), |fates|, old(pending), batch, reply)];
      if answer.NoReply? || answer.code >= 500 {
        return Retry, reply;
      }
      if answer.code >= 400 {
        rejected := rejected + |batch|;
        return Refused, reply;
      }
      sent := sent + |batch|;
      return Ok, reply;
    }

    // The items of an answered batch leave the queue.
    method PopLeft(n: nat, ghost fate: Fate)
      requires Queue() && n <= |pending| && fate != Expired
      requires forall i: nat :: |fates| <= i < |fates| + n ==> i in arrived
      modifies this`pending, this`fates, this`lefts
      ensures Queue() && pending == old(pending)[n..] && History() == Gone(old(History()), fate, n, clock)
      ensures forall f :: Count(fates, f) == Count(old(fates), f) + if f == fate then n else 0
    {
      hide AtServer, Sorted;
      var k := 0;
      while k < n
        invariant k <= n && pending == old(pending)[k..] && fates == old(fates) && lefts == old(lefts)
      {
        pending := pending[1..];
        k := k + 1;
      }
      Leave(fate, n);
    }

    // Any stretch of the delivery loop, whatever the server and the other
    // tasks do.  Valid (conservation, time order, and order of first arrivals
    // unless a request was seen that was not harmless) holds at each of its
    // suspension points, which are the calls of Suspend; Told says of every
    // request what it held and when it was made, and of every item that left why.
    method Run(steps: nat)
      requires Valid() && Told(window, maxBatch, backoff, History(), 0, clock)
      modifies this
      ensures Valid() && old(enqueued) <= enqueued
      ensures old(fates) <= fates && old(arrived) <= arrived && old(attempts) <= attempts
      ensures exists attempt: nat :: Told(window, maxBatch, backoff, History(), attempt, clock)
      ensures closing ==> idle
    {
      assert backoff != [];
      hide Poster.Valid, Told;
      var attempt := 0;
      var left := steps;
      while !closing && left > 0
        invariant Valid() && old(enqueued) <= enqueued && old(fates) <= fates && old(arrived) <= arrived
        invariant old(attempts) <= attempts && backoff != []
        invariant Told(window, maxBatch, backoff, History(), attempt, clock)
        decreases left
      {
        attempt := Once(attempt);
        left := left - 1;
      }
      ghost var log, now := History(), clock;
      if closing {
        SetIdle();
      }
      assert Told(window, maxBatch, backoff, log, attempt, now) && log == History() && now == clock;
    }

    // One turn of the loop; `attempt` counts failures in a row.
    method Once(attempt: nat) returns (next: nat)
      requires Valid() && !closing
      modifies this
      ensures Valid()
      ensures backoff != [] && Turned(window, maxBatch, backoff, old(clock), old(pending), old(History()), attempt, clock, History(), next)
      ensures old(fates) <= fates && old(arrived) <= arrived && old(attempts) <= attempts
      ensures old(pending) == [] && enqueued == old(enqueued) ==> idle
      ensures Told(window, maxBatch, backoff, old(History()), attempt, old(clock)) ==>
        Told(window, maxBatch, backoff, History(), next, clock)
    {
      ghost var log := History();
      assert Queue();
      next := Turn(attempt);
      hide *;
      if Told(window, maxBatch, backoff, log, attempt, old(clock)) {
        TurnTold(window, maxBatch, backoff, old(clock), old(pending), log, attempt, clock, History(), next);
      }
    }

    method Turn(attempt: nat) returns (next: nat)
      requires Valid() && !closing
      modifies this
      ensures Valid()
      ensures backoff != [] && Turned(window, maxBatch, backoff, old(clock), old(pending), old(History()), attempt, clock, History(), next)
      ensures old(fates) <= fates && old(arrived) <= arrived && old(attempts) <= attempts
      ensures old(pending) == [] && enqueued == old(enqueued) ==> idle
    {
      hide AtServer, Sorted, Count, Requested, IsBatch;
      if pending == [] {
        SetIdle();
        Suspend(0.0);
        assert TooOld(window, old(clock), old(pending), 0);
        return attempt;
      }
      Expire();
      if pending == [] {
        return attempt;
      }
      next := Deliver(attempt);
    }

    method Deliver(attempt: nat) returns (next: nat)
      requires Valid() && pending != []
      modifies this
      ensures Valid() && old(enqueued) <= enqueued && clock >= old(clock)
      ensures old(fates) <= fates && old(arrived) <= arrived && old(attempts) <= attempts
      ensures backoff != [] && Requested(maxBatch, backoff, old(clock), old(pending), old(History()), attempt, clock, History(), next)
    {
      hide AtServer, Sorted, Count, Repeat, IsBatch;
      var batch := TakeBatch();
      assert 1 <= |batch| && batch <= pending by { BatchIsPrefix(maxBatch, pending, batch); }
      var outcome, reply := Send(batch);
      if outcome == Retry {
        WaitToRetry(attempt);
        next := attempt + 1;
        assert RequestedAs(maxBatch, backoff, old(clock), old(pending), old(History()), attempt, clock, History(), next, batch, reply, clock);
        return next;
      }
      PopLeft(|batch|, if outcome == Ok then Sent else Rejected);
      next := 0;
      assert RequestedAs(maxBatch, backoff, old(clock), old(pending), old(History()), attempt, clock, History(), next, batch, reply, clock);
    }

    method WaitToRetry(attempt: nat)
      requires Valid()
      modifies this`pending, this`idle, this`enqueued, this`clock, this`closing, this`arrived, this`seen, this`harmed, this`strays, this`retries
      ensures Valid() && old(enqueued) <= enqueued && old(arrived) <= arrived
      ensures retries == old(retries) + 1 && clock >= old(clock) + DelayOf(backoff, attempt)
    {
      retries := retries + 1;
      assert Queue();
      hide Poster.Queue, Count;
      var delay := Delay(attempt);
      Suspend(delay);
    }

    function Delay(attempt: nat): (d: real)
      requires Queue()
      reads this
      ensures d >= 0.0 && d == DelayOf(backoff, attempt)
    {
      backoff[Min(attempt, |backoff| - 1)]
    }

    // drain() waits for this: unless the session is closing it means that
    // everything put was answered or given up.
    method SetIdle()
      requires Valid() && (pending == [] || closing)
      modifies this`idle
      ensures Valid() && idle
    {
      idle := true;
    }
  }
}
