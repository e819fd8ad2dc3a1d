// The final pass: every stored utterance is transcribed once more, at most one
// request per speaker in flight and `concurrency` overall, in time order.
module FinalPass {
  import opened Wrappers

  datatype Entry = Entry(uid: string, ident: string)

  // A request in flight; `prompt` is the context it read, once it has.
  datatype Task = Task(entry: Entry, prompt: Option<string>)

  // Each carries the text the next prompt of the speaker will see.
  datatype Outcome = Refined(text: string) | Kept(text: string) | Failed(text: string)

  // How a request ended: an exception, or a text that may be judged degenerate.
  datatype Answer = Raised | Answered(text: string, degenerate: bool)

  // An answer that is empty or degenerate does not replace the earlier text.
  function OutcomeOf(uid: string, answer: Answer, earlier: string -> string): Outcome {
    match answer
    case Raised => Failed(earlier(uid))
    case Answered(text, degenerate) => if text == "" || degenerate then Kept(earlier(uid)) else Refined(text)
  }

  // Only a text that is neither empty nor degenerate replaces the earlier one.
  predicate Good(answer: Answer) {
    answer.Answered? && answer.text != "" && !answer.degenerate
  }

  datatype Settled = Settled(entry: Entry, prompt: Option<string>, answer: Answer, outcome: Outcome)

  // ------------------------------------------------------------ what to start

  function Of(es: seq<Entry>, ident: string): seq<Entry> {
    if es == [] then []
    else Of(es[..|es| - 1], ident) + if es[|es| - 1].ident == ident then [es[|es| - 1]] else []
  }

  function Idents(es: seq<Entry>): set<string> {
    set e | e in es :: e.ident
  }

  // One pass over the pending entries: those that start now, and the rest.
  function Pick(pending: seq<Entry>, busy: set<string>, room: nat): (seq<Entry>, seq<Entry>) {
    if room == 0 || pending == [] then ([], pending)
    else if pending[0].ident in busy then
      var (start, rest) := Pick(pending[1..], busy, room);
      (start, [pending[0]] + rest)
    else
      var (start, rest) := Pick(pending[1..], busy + {pending[0].ident}, room - 1);
      ([pending[0]] + start, rest)
  }

  lemma {:induction false} OfConcat(a: seq<Entry>, b: seq<Entry>, ident: string)
    ensures Of(a + b, ident) == Of(a, ident) + Of(b, ident)
  {
    if b == [] {
      assert a + b == a;
    } else {
      assert (a + b)[..|a + b| - 1] == a + b[..|b| - 1];
      OfConcat(a, b[..|b| - 1], ident);
    }
  }

  lemma {:induction false} OfNone(a: seq<Entry>, ident: string)
    ensures ident !in Idents(a) <==> Of(a, ident) == []
  {
    if a != [] {
      OfNone(a[..|a| - 1], ident);
      assert a == a[..|a| - 1] + [a[|a| - 1]];
    }
  }

  // What the scan of the pending entries has done up to position i: `begun`
  // are started, and Pick on what is ahead completes the answer.
  ghost predicate Scanned(start: seq<Entry>, rest: seq<Entry>, begun: seq<Entry>,
                          pending: seq<Entry>, i: nat, busy: set<string>, room: nat)
  {
    && i <= |pending|
    && var (s, r) := Pick(pending[i..], busy, room); start == begun + s && rest == pending[..i] + r
  }

  lemma ScanStep(start: seq<Entry>, rest: seq<Entry>, begun: seq<Entry>,
                 pending: seq<Entry>, i: nat, busy: set<string>, room: nat)
    requires room > 0 && i < |pending| && Scanned(start, rest, begun, pending, i, busy, room)
    ensures var e := pending[i];
      if e.ident in busy then Scanned(start, rest, begun, pending, i + 1, busy, room)
      else Scanned(start, rest, begun + [e], pending[..i] + pending[i + 1..], i, busy + {e.ident}, room - 1)
  {
    var e, left := pending[i], pending[i..];
    assert left[0] == e && left[1..] == pending[i + 1..];
    if e.ident !in busy {
      var pending' := pending[..i] + pending[i + 1..];
      assert pending'[i..] == left[1..] && pending'[..i] == pending[..i];
    }
  }

  lemma ScanEnd(start: seq<Entry>, rest: seq<Entry>, begun: seq<Entry>,
                pending: seq<Entry>, i: nat, busy: set<string>, room: nat)
    requires (room == 0 || i == |pending|) && Scanned(start, rest, begun, pending, i, busy, room)
    ensures start == begun && rest == pending
  {
  }

  // What is started is at most `room` entries of distinct free speakers, and
  // nothing startable is left behind.
  lemma {:induction false} PickIsFull(pending: seq<Entry>, busy: set<string>, room: nat)
    ensures var (start, rest) := Pick(pending, busy, room);
      && |start| <= room && |start| + |rest| == |pending|
      && (forall i :: 0 <= i < |start| ==> start[i].ident !in busy)
      && (forall i, j :: 0 <= i < j < |start| ==> start[i].ident != start[j].ident)
      && (|start| == room || forall e :: e in rest ==> e.ident in busy + Idents(start))
      && (room > 0 && pending != [] && busy == {} ==> start != [])
  {
    if room > 0 && pending != [] {
      var e := pending[0];
      var free := e.ident !in busy;
      PickIsFull(pending[1..], if free then busy + {e.ident} else busy, if free then room - 1 else room);
    }
  }

  // The first pending entry of a free speaker.
  ghost predicate First(pending: seq<Entry>, busy: set<string>, i: nat) {
    && i < |pending| && pending[i].ident !in busy
    && forall j :: 0 <= j < i ==> pending[j].ident != pending[i].ident
  }

  ghost predicate Increasing(at: seq<nat>) {
    forall a, b :: 0 <= a < b < |at| ==> at[a] < at[b]
  }

  function Shifted(at: seq<nat>): (r: seq<nat>)
    ensures |r| == |at| && forall k :: 0 <= k < |at| ==> r[k] == at[k] + 1
  {
    seq(|at|, k requires 0 <= k < |at| => at[k] + 1)
  }

  // Where the entries that start, and those that are left, stood.
  ghost predicate StoodAt(pending: seq<Entry>, start: seq<Entry>, rest: seq<Entry>, at: seq<nat>, left: seq<nat>) {
    && |at| == |start| && |left| == |rest| && |at| + |left| == |pending|
    && (forall k :: 0 <= k < |at| ==> at[k] < |pending| && start[k] == pending[at[k]])
    && (forall k :: 0 <= k < |left| ==> left[k] < |pending| && rest[k] == pending[left[k]])
    && Increasing(at) && Increasing(left)
    && (forall i: nat :: i < |pending| ==> i in at || i in left)
  }

  ghost predicate Earliest(pending: seq<Entry>, busy: set<string>, room: nat, at: seq<nat>) {
    && (forall k :: 0 <= k < |at| ==> First(pending, busy, at[k]))
    && (forall i: nat :: First(pending, busy, i) && i !in at ==>
          |at| == room && forall k :: 0 <= k < |at| ==> at[k] < i)
  }

  // Both keep their order, and what starts are the earliest entries that may.
  lemma {:induction false} PickIsEarliest(pending: seq<Entry>, busy: set<string>, room: nat) returns (at: seq<nat>, left: seq<nat>)
    ensures var (start, rest) := Pick(pending, busy, room); StoodAt(pending, start, rest, at, left)
    ensures Earliest(pending, busy, room, at)
  {
    if room == 0 || pending == [] {
      at, left := [], seq(|pending|, k requires 0 <= k < |pending| => k);
      forall i: nat | i < |pending| ensures i in left {
        assert left[i] == i;
      }
      assert StoodAt(pending, [], pending, at, left);
    } else {
      var e, tail := pending[0], pending[1..];
      PickHead(pending, busy, room);
      if e.ident in busy {
        at, left := PickIsEarliest(tail, busy, room);
        hide Pick;
        var (start, rest) := Pick(tail, busy, room);
        StoodSkip(pending, start, rest, at, left);
        hide StoodAt, Earliest;
        EarliestSkip(pending, busy, room, at);
        at, left := Shifted(at), [0] + Shifted(left);
      } else {
        at, left := PickIsEarliest(tail, busy + {e.ident}, room - 1);
        hide Pick;
        var (start, rest) := Pick(tail, busy + {e.ident}, room - 1);
        StoodStart(pending, start, rest, at, left);
        hide StoodAt, Earliest;
        EarliestStart(pending, busy, room, at);
        at, left := [0] + Shifted(at), Shifted(left);
      }
    }
  }

  lemma StoodSkip(pending: seq<Entry>, start: seq<Entry>, rest: seq<Entry>, at: seq<nat>, left: seq<nat>)
    requires pending != [] && StoodAt(pending[1..], start, rest, at, left)
    ensures StoodAt(pending, start, [pending[0]] + rest, Shifted(at), [0] + Shifted(left))
  {
    StoodShift(pending, start, at);
    StoodShift(pending, rest, left);
    forall i: nat | i < |pending| ensures i in Shifted(at) || i in [0] + Shifted(left) {
      if i == 0 {
        assert ([0] + Shifted(left))[0] == 0;
      } else {
        InShifted(at, i - 1);
        InShifted(left, i - 1);
      }
    }
  }

  lemma StoodStart(pending: seq<Entry>, start: seq<Entry>, rest: seq<Entry>, at: seq<nat>, left: seq<nat>)
    requires pending != [] && StoodAt(pending[1..], start, rest, at, left)
    ensures StoodAt(pending, [pending[0]] + start, rest, [0] + Shifted(at), Shifted(left))
  {
    StoodShift(pending, start, at);
    StoodShift(pending, rest, left);
    forall i: nat | i < |pending| ensures i in [0] + Shifted(at) || i in Shifted(left) {
      if i == 0 {
        assert ([0] + Shifted(at))[0] == 0;
      } else {
        InShifted(at, i - 1);
        InShifted(left, i - 1);
      }
    }
  }

  lemma StoodShift(pending: seq<Entry>, es: seq<Entry>, at: seq<nat>)
    requires pending != [] && |at| == |es| && forall k :: 0 <= k < |at| ==> at[k] < |pending[1..]| && es[k] == pending[1..][at[k]]
    ensures forall k :: 0 <= k < |at| ==> Shifted(at)[k] < |pending| && es[k] == pending[Shifted(at)[k]]
    ensures Increasing(at) ==> Increasing(Shifted(at)) && Increasing([0] + Shifted(at))
  {
  }

  lemma EarliestSkip(pending: seq<Entry>, busy: set<string>, room: nat, at: seq<nat>)
    requires pending != [] && pending[0].ident in busy && Earliest(pending[1..], busy, room, at)
    ensures Earliest(pending, busy, room, Shifted(at))
  {
    forall i: nat ensures First(pending, busy, i) <==> i > 0 && First(pending[1..], busy, i - 1) {
      FirstCons(pending, busy, i);
    }
    hide First;
    forall i: nat | First(pending, busy, i) && i !in Shifted(at)
      ensures |at| == room && forall k :: 0 <= k < |at| ==> Shifted(at)[k] < i
    {
      InShifted(at, i - 1);
    }
  }

  lemma EarliestStart(pending: seq<Entry>, busy: set<string>, room: nat, at: seq<nat>)
    requires pending != [] && pending[0].ident !in busy && room > 0
    requires Earliest(pending[1..], busy + {pending[0].ident}, room - 1, at)
    ensures Earliest(pending, busy, room, [0] + Shifted(at))
  {
    var all := [0] + Shifted(at);
    forall i: nat ensures First(pending, busy, i) <==> i == 0 || First(pending[1..], busy + {pending[0].ident}, i - 1) {
      FirstCons(pending, busy, i);
    }
    hide First;
    assert all[0] == 0 && forall k :: 0 < k < |all| ==> all[k] == at[k - 1] + 1;
    forall i: nat | First(pending, busy, i) && i !in all
      ensures |all| == room && forall k :: 0 <= k < |all| ==> all[k] < i
    {
      InShifted(at, i - 1);
      assert i - 1 in at ==> i in Shifted(at) && i in all;
    }
  }

  lemma FirstCons(pending: seq<Entry>, busy: set<string>, i: nat)
    requires pending != []
    ensures var e, tail := pending[0], pending[1..];
      var busy' := if e.ident !in busy then busy + {e.ident} else busy;
      First(pending, busy, i) <==> if i == 0 then e.ident !in busy else First(tail, busy', i - 1)
  {
    if i > 0 && First(pending, busy, i) {
      assert pending[0].ident != pending[i].ident;
      forall j | 0 <= j < i - 1 ensures pending[1..][j].ident != pending[i].ident {
        assert pending[1..][j] == pending[j + 1];
      }
    }
    if i < |pending| {
      forall j | 1 <= j < |pending| ensures pending[j] == pending[1..][j - 1] {
      }
    }
  }

  lemma InShifted(at: seq<nat>, i: nat)
    ensures i in at <==> i + 1 in Shifted(at)
  {
    if i in at {
      var k :| 0 <= k < |at| && at[k] == i;
      assert Shifted(at)[k] == i + 1;
    }
  }

  // Of every speaker the started entries come first, and in order: no entry is
  // lost and no speaker's order changes.
  lemma {:induction false} PickKeepsOrder(pending: seq<Entry>, busy: set<string>, room: nat, ident: string)
    ensures var (start, rest) := Pick(pending, busy, room);
      Of(start, ident) + Of(rest, ident) == Of(pending, ident)
  {
    if room > 0 && pending != [] {
      var e, tail := pending[0], pending[1..];
      if e.ident in busy {
        PickKeepsOrder(tail, busy, room, ident);
        SkipKeepsOrder(pending, busy, room, ident);
      } else {
        PickKeepsOrder(tail, busy + {e.ident}, room - 1, ident);
        StartKeepsOrder(pending, busy, room, ident);
      }
    }
  }

  lemma SkipKeepsOrder(pending: seq<Entry>, busy: set<string>, room: nat, ident: string)
    requires room > 0 && pending != [] && pending[0].ident in busy
    requires var (start, rest) := Pick(pending[1..], busy, room);
      Of(start, ident) + Of(rest, ident) == Of(pending[1..], ident)
    ensures var (start, rest) := Pick(pending, busy, room);
      Of(start, ident) + Of(rest, ident) == Of(pending, ident)
  {
    hide Of;
    var e, tail := pending[0], pending[1..];
    var (start, rest) := Pick(tail, busy, room);
    PickHead(pending, busy, room);
    PickAvoids(tail, busy, room, e.ident);
    hide Pick;
    OfCons(e, tail, ident);
    OfCons(e, rest, ident);
    assert pending == [e] + tail;
    Glue(if e.ident == ident then [e] else [], Of(start, ident), Of(rest, ident));
  }

  lemma StartKeepsOrder(pending: seq<Entry>, busy: set<string>, room: nat, ident: string)
    requires room > 0 && pending != [] && pending[0].ident !in busy
    requires var (start, rest) := Pick(pending[1..], busy + {pending[0].ident}, room - 1);
      Of(start, ident) + Of(rest, ident) == Of(pending[1..], ident)
    ensures var (start, rest) := Pick(pending, busy, room);
      Of(start, ident) + Of(rest, ident) == Of(pending, ident)
  {
    hide Of;
    var e, tail := pending[0], pending[1..];
    var (start, rest) := Pick(tail, busy + {e.ident}, room - 1);
    PickHead(pending, busy, room);
    hide Pick;
    OfCons(e, tail, ident);
    OfCons(e, start, ident);
    assert pending == [e] + tail;
    Glue(if e.ident == ident then [e] else [], Of(start, ident), Of(rest, ident));
  }

  lemma Glue(x: seq<Entry>, a: seq<Entry>, b: seq<Entry>)
    ensures (x + a) + b == x + (a + b)
    ensures x == [] || a == [] ==> a + (x + b) == x + (a + b)
  {
  }

  lemma PickHead(pending: seq<Entry>, busy: set<string>, room: nat)
    requires room > 0 && pending != []
    ensures var e, tail := pending[0], pending[1..];
      Pick(pending, busy, room) ==
        if e.ident in busy then (Pick(tail, busy, room).0, [e] + Pick(tail, busy, room).1)
        else ([e] + Pick(tail, busy + {e.ident}, room - 1).0, Pick(tail, busy + {e.ident}, room - 1).1)
  {
  }

  // Nothing is started for a busy speaker.
  lemma PickAvoids(pending: seq<Entry>, busy: set<string>, room: nat, ident: string)
    requires ident in busy
    ensures Of(Pick(pending, busy, room).0, ident) == []
  {
    PickIsFull(pending, busy, room);
    OfNone(Pick(pending, busy, room).0, ident);
  }

  lemma OfCons(e: Entry, es: seq<Entry>, ident: string)
    ensures Of([e] + es, ident) == (if e.ident == ident then [e] else []) + Of(es, ident)
  {
    OfConcat([e], es, ident);
    assert [e][..0] == [];
  }

  // ------------------------------------------------------------ what is known

  function Entries(done: seq<Settled>): (es: seq<Entry>)
    ensures |es| == |done|
  {
    seq(|done|, i requires 0 <= i < |done| => done[i].entry)
  }

  function InFlight(running: seq<Task>): (es: seq<Entry>)
    ensures |es| == |running|
  {
    seq(|running|, i requires 0 <= i < |running| => running[i].entry)
  }

  // A speaker's context: the texts of the speaker's settled entries, in order.
  function Context(tail: (string, string) -> string, done: seq<Settled>, ident: string): string {
    if done == [] then ""
    else
      var before := Context(tail, done[..|done| - 1], ident);
      var last := done[|done| - 1];
      if last.entry.ident == ident then tail(before, last.outcome.text) else before
  }

  datatype Kind = IsOk | IsKept | IsFailed

  function KindOf(answer: Answer): Kind {
    if answer.Raised? then IsFailed else if Good(answer) then IsOk else IsKept
  }

  function Count(done: seq<Settled>, kind: Kind): nat {
    if done == [] then 0
    else Count(done[..|done| - 1], kind) + if KindOf(done[|done| - 1].answer) == kind then 1 else 0
  }

  lemma CountSnoc(done: seq<Settled>, last: Settled)
    ensures forall kind :: Count(done + [last], kind) == Count(done, kind) + if KindOf(last.answer) == kind then 1 else 0
  {
    assert (done + [last])[..|done|] == done;
  }

  // The refinements handed to the delivery queue, in order.
  function Posted(done: seq<Settled>): seq<(string, string)> {
    if done == [] then []
    else
      var last := done[|done| - 1];
      Posted(done[..|done| - 1]) + if Good(last.answer) then [(last.entry.uid, last.answer.text)] else []
  }

  lemma PostedSnoc(done: seq<Settled>, last: Settled)
    ensures Posted(done + [last]) ==
      Posted(done) + if Good(last.answer) then [(last.entry.uid, last.answer.text)] else []
  {
    assert (done + [last])[..|done|] == done;
  }

  // What each answer came to: exactly a good one refines, with its own text;
  // everything else keeps the earlier text.
  ghost predicate TextsOk(earlier: string -> string, done: seq<Settled>) {
    forall k :: 0 <= k < |done| ==> Judged(earlier, done[k].entry.uid, done[k].answer, done[k].outcome)
  }

  ghost predicate Judged(earlier: string -> string, uid: string, answer: Answer, o: Outcome) {
    && (o.Failed? <==> answer.Raised?)
    && (o.Refined? <==> Good(answer))
    && o.text == if o.Refined? then answer.text else earlier(uid)
  }

  // The texts handed on are exactly the good ones.
  lemma {:induction false} PostedMeans(done: seq<Settled>, uid: string, text: string)
    ensures (uid, text) in Posted(done) <==>
      exists k :: 0 <= k < |done| && done[k].entry.uid == uid && Good(done[k].answer) && done[k].answer.text == text
    ensures |Posted(done)| == Count(done, IsOk)
  {
    if done != [] {
      var front, n := done[..|done| - 1], |done| - 1;
      PostedMeans(front, uid, text);
      if (uid, text) in Posted(front) {
        var k :| 0 <= k < |front| && front[k].entry.uid == uid && Good(front[k].answer) && front[k].answer.text == text;
        assert done[k] == front[k];
      }
      if k :| 0 <= k < n && done[k].entry.uid == uid && Good(done[k].answer) && done[k].answer.text == text {
        assert front[k] == done[k];
      }
    }
  }

  lemma OutcomeIsJudged(earlier: string -> string, uid: string, answer: Answer)
    ensures Judged(earlier, uid, answer, OutcomeOf(uid, answer, earlier))
  {
  }

  // Every prompt that was read is the speaker's context at that point, and a
  // result needs one.
  ghost predicate PromptsOk(tail: (string, string) -> string, done: seq<Settled>) {
    forall k :: 0 <= k < |done| ==>
      && (done[k].prompt.Some? ==> done[k].prompt.value == Context(tail, done[..k], done[k].entry.ident))
      && (done[k].outcome.Failed? || done[k].prompt.Some?)
  }

  // busy is exactly the speakers of the running requests, one each.
  ghost predicate OnePerSpeaker(running: seq<Task>, busy: set<string>, concurrency: nat) {
    && busy == Idents(InFlight(running))
    && |running| <= concurrency
    && forall i, j :: 0 <= i < j < |running| ==> running[i].entry.ident != running[j].entry.ident
  }

  // Of every speaker, what is settled, in flight and pending are the stored
  // entries in time order.
  ghost predicate InTimeOrder(entries: seq<Entry>, done: seq<Settled>, running: seq<Task>, pending: seq<Entry>) {
    && |done| + |running| + |pending| == |entries|
    && forall ident :: Of(Entries(done), ident) + Of(InFlight(running), ident) + Of(pending, ident) == Of(entries, ident)
  }

  // The context kept for a speaker, and the prompt a running request read,
  // are the texts of all the speaker's settled entries.
  ghost predicate ContextsOk(tail: (string, string) -> string, context: map<string, string>, running: seq<Task>, done: seq<Settled>) {
    && (forall ident :: (if ident in context then context[ident] else "") == Context(tail, done, ident))
    && (forall t :: t in running && t.prompt.Some? ==> t.prompt.value == Context(tail, done, t.entry.ident))
    && PromptsOk(tail, done)
  }

  function Begin(es: seq<Entry>): (ts: seq<Task>)
    ensures |ts| == |es|
  {
    seq(|es|, i requires 0 <= i < |es| => Task(es[i], None))
  }

  lemma BeginNone()
    ensures Begin([]) == [] && Idents([]) == {}
  {
  }

  lemma BeginSnoc(es: seq<Entry>, e: Entry)
    ensures Begin(es + [e]) == Begin(es) + [Task(e, None)]
  {
  }

  lemma InFlightConcat(a: seq<Task>, b: seq<Task>)
    ensures InFlight(a + b) == InFlight(a) + InFlight(b)
  {
  }

  lemma InFlightBegin(es: seq<Entry>)
    ensures InFlight(Begin(es)) == es
  {
  }

  lemma IdentsConcat(a: seq<Entry>, b: seq<Entry>)
    ensures Idents(a + b) == Idents(a) + Idents(b)
  {
    assert forall e :: e in a + b <==> e in a || e in b;
  }

  // Starting entries keeps the limits and the order.
  lemma FillKeepsSpeakers(running: seq<Task>, pending: seq<Entry>, busy: set<string>, concurrency: nat)
    requires OnePerSpeaker(running, busy, concurrency)
    ensures var start := Pick(pending, busy, concurrency - |running|).0;
      OnePerSpeaker(running + Begin(start), busy + Idents(start), concurrency)
  {
    var start := Pick(pending, busy, concurrency - |running|).0;
    PickIsFull(pending, busy, concurrency - |running|);
    var running' := running + Begin(start);
    InFlightConcat(running, Begin(start));
    InFlightBegin(start);
    IdentsConcat(InFlight(running), start);
    hide Pick, Idents;
    forall i, j | 0 <= i < j < |running'| ensures running'[i].entry.ident != running'[j].entry.ident {
      if i < |running| <= j {
        BusyHas(running, i);
      }
    }
  }

  lemma BusyHas(running: seq<Task>, i: nat)
    requires i < |running|
    ensures running[i].entry.ident in Idents(InFlight(running))
  {
    assert InFlight(running)[i] in InFlight(running);
  }

  lemma FillKeepsOrder(done: seq<Settled>, running: seq<Task>, pending: seq<Entry>, busy: set<string>, room: nat, ident: string)
    ensures var (start, rest) := Pick(pending, busy, room);
      Of(Entries(done), ident) + Of(InFlight(running + Begin(start)), ident) + Of(rest, ident)
      == Of(Entries(done), ident) + Of(InFlight(running), ident) + Of(pending, ident)
  {
    var (start, rest) := Pick(pending, busy, room);
    PickKeepsOrder(pending, busy, room, ident);
    InFlightConcat(running, Begin(start));
    InFlightBegin(start);
    OfConcat(InFlight(running), start, ident);
    Regroup(Of(Entries(done), ident), Of(InFlight(running), ident), Of(start, ident), Of(rest, ident));
  }

  lemma Regroup(a: seq<Entry>, b: seq<Entry>, c: seq<Entry>, d: seq<Entry>)
    ensures a + (b + c) + d == a + b + (c + d)
  {
  }

  lemma Filled(entries: seq<Entry>, done: seq<Settled>, running: seq<Task>, pending: seq<Entry>, busy: set<string>, concurrency: nat)
    requires OnePerSpeaker(running, busy, concurrency) && InTimeOrder(entries, done, running, pending)
    ensures var (start, rest) := Pick(pending, busy, concurrency - |running|);
      && OnePerSpeaker(running + Begin(start), busy + Idents(start), concurrency)
      && InTimeOrder(entries, done, running + Begin(start), rest)
  {
    var room := concurrency - |running|;
    FillKeepsSpeakers(running, pending, busy, concurrency);
    PickIsFull(pending, busy, room);
    forall ident {
      FillKeepsOrder(done, running, pending, busy, room, ident);
    }
  }

  lemma FillContexts(tail: (string, string) -> string, context: map<string, string>, running: seq<Task>, done: seq<Settled>, es: seq<Entry>)
    requires ContextsOk(tail, context, running, done)
    ensures ContextsOk(tail, context, running + Begin(es), done)
  {
  }

  function Drop<T>(s: seq<T>, i: nat): seq<T>
    requires i < |s|
  {
    s[..i] + s[i + 1..]
  }

  // Settling the request at position i keeps the order.
  lemma SettleKeepsOrder(done: seq<Settled>, running: seq<Task>, i: nat, answer: Answer, outcome: Outcome, ident: string)
    requires i < |running|
    requires forall j, k :: 0 <= j < k < |running| ==> running[j].entry.ident != running[k].entry.ident
    ensures var t := running[i];
      Of(Entries(done + [Settled(t.entry, t.prompt, answer, outcome)]), ident) + Of(InFlight(Drop(running, i)), ident)
      == Of(Entries(done), ident) + Of(InFlight(running), ident)
  {
    hide Of, Idents;
    var t := running[i];
    var r := InFlight(running);
    var before, after := r[..i], r[i + 1..];
    assert t.entry in [t.entry] && (ident == t.entry.ident <==> ident in Idents([t.entry])) by { OneIdent(t.entry); }
    assert Entries(done + [Settled(t.entry, t.prompt, answer, outcome)]) == Entries(done) + [t.entry];
    OfConcat(Entries(done), [t.entry], ident);
    assert InFlight(Drop(running, i)) == before + after;
    OfConcat(before, after, ident);
    assert r == before + ([t.entry] + after);
    OfConcat(before, [t.entry] + after, ident);
    OfConcat([t.entry], after, ident);
    SpeakersLeft(running, i);
    OfNone(before, ident);
    OfNone(after, ident);
    OfNone([t.entry], ident);
    Move(Of(Entries(done), ident), Of(before, ident), Of([t.entry], ident), Of(after, ident));
  }

  lemma OneIdent(e: Entry)
    ensures Idents([e]) == {e.ident}
  {
  }

  lemma Move(d: seq<Entry>, b: seq<Entry>, x: seq<Entry>, a: seq<Entry>)
    requires x == [] || (b == [] && a == [])
    ensures (d + x) + (b + a) == d + (b + (x + a))
  {
  }

  lemma SettleKeeps(entries: seq<Entry>, done: seq<Settled>, running: seq<Task>, pending: seq<Entry>,
                    busy: set<string>, concurrency: nat, i: nat, answer: Answer, outcome: Outcome)
    requires OnePerSpeaker(running, busy, concurrency) && InTimeOrder(entries, done, running, pending)
    requires i < |running|
    ensures var t := running[i];
      && OnePerSpeaker(Drop(running, i), busy - {t.entry.ident}, concurrency)
      && InTimeOrder(entries, done + [Settled(t.entry, t.prompt, answer, outcome)], Drop(running, i), pending)
  {
    SpeakersLeft(running, i);
    forall ident {
      SettleKeepsOrder(done, running, i, answer, outcome, ident);
    }
  }

  lemma SettleContexts(tail: (string, string) -> string, context: map<string, string>, running: seq<Task>,
                       done: seq<Settled>, busy: set<string>, concurrency: nat, i: nat, answer: Answer, outcome: Outcome)
    requires ContextsOk(tail, context, running, done) && OnePerSpeaker(running, busy, concurrency) && i < |running|
    requires outcome.Failed? || running[i].prompt.Some?
    ensures var t := running[i]; var ident := t.entry.ident;
      ContextsOk(tail, context[ident := tail(if ident in context then context[ident] else "", outcome.text)],
                 Drop(running, i), done + [Settled(t.entry, t.prompt, answer, outcome)])
  {
    var t := running[i];
    var done' := done + [Settled(t.entry, t.prompt, answer, outcome)];
    assert done'[..|done|] == done;
    forall k | 0 <= k < |done| ensures done'[..k] == done[..k] {
    }
    forall u | u in Drop(running, i) ensures u in running && u.entry.ident != t.entry.ident {
      var k :| 0 <= k < |Drop(running, i)| && Drop(running, i)[k] == u;
      assert u == running[if k < i then k else k + 1];
    }
  }

  lemma SpeakersLeft(running: seq<Task>, i: nat)
    requires i < |running|
    requires forall i, j :: 0 <= i < j < |running| ==> running[i].entry.ident != running[j].entry.ident
    ensures var r := InFlight(running); var ident := running[i].entry.ident;
      && ident !in Idents(r[..i]) && ident !in Idents(r[i + 1..])
      && Idents(InFlight(Drop(running, i))) == Idents(r) - {ident}
  {
    var r := InFlight(running);
    var r' := InFlight(Drop(running, i));
    assert r' == r[..i] + r[i + 1..];
    assert forall e :: e in r <==> e in r[..i] || e == r[i] || e in r[i + 1..];
    forall k | 0 <= k < |r| && k != i ensures r[k].ident != r[i].ident {
    }
  }

  // The scheduler.  Requests finish in any order and with any outcome: the
  // choices marked `*` are the environment's.
  class Scheduler {
    const entries: seq<Entry>
    const concurrency: nat
    const tail: (string, string) -> string
    const earlier: string -> string        // by utterance: the text there was before
    var pending: seq<Entry>
    var running: seq<Task>
    var busy: set<string>
    var context: map<string, string>
    var ok: nat
    var kept: nat
    var failed: nat
    var posted: seq<(string, string)>
    ghost var done: seq<Settled>

    ghost predicate Valid()
      reads this
    {
      && concurrency > 0
      && OnePerSpeaker(running, busy, concurrency)
      && InTimeOrder(entries, done, running, pending)
      && ContextsOk(tail, context, running, done)
      && ok == Count(done, IsOk) && kept == Count(done, IsKept) && failed == Count(done, IsFailed)
      && posted == Posted(done) && TextsOk(earlier, done)
    }

    constructor (entries: seq<Entry>, concurrency: nat, tail: (string, string) -> string, earlier: string -> string)
      requires concurrency > 0
      ensures Valid() && this.entries == entries && this.concurrency == concurrency
      ensures this.tail == tail && this.earlier == earlier
      ensures pending == entries && running == [] && done == []
    {
      this.entries, this.concurrency, this.tail, this.earlier := entries, concurrency, tail, earlier;
      pending, running, busy, context := entries, [], {}, map[];
      ok, kept, failed, posted := 0, 0, 0, [];
      done := [];
      new;
      assert forall ident :: [] + [] + Of(entries, ident) == Of(entries, ident);
    }

    // Start what may start.  Afterwards the concurrency is used up or every
    // pending speaker is busy; something runs if anything was left to do.
    method Fill()
      requires Valid()
      modifies this`pending, this`running, this`busy
      ensures Valid()
      ensures var (start, rest) := Pick(old(pending), old(busy), concurrency - old(|running|));
        pending == rest && running == old(running) + Begin(start) && busy == old(busy) + Idents(start)
      ensures |running| == concurrency || forall e :: e in pending ==> e.ident in busy
      ensures old(running) != [] || old(pending) != [] ==> running != []
      ensures |running| + |pending| == old(|running| + |pending|)
    {
      hide Pick, InTimeOrder, ContextsOk, Of;
      ghost var start := Pick(pending, busy, concurrency - |running|).0;
      StartFree();
      Filled(entries, done, old(running), old(pending), old(busy), concurrency);
      PickIsFull(old(pending), old(busy), concurrency - old(|running|));
      FillContexts(tail, context, old(running), done, start);
    }

    method StartFree()
      requires |running| <= concurrency
      modifies this`pending, this`running, this`busy
      ensures var (start, rest) := Pick(old(pending), old(busy), concurrency - old(|running|));
        pending == rest && running == old(running) + Begin(start) && busy == old(busy) + Idents(start)
    {
      ghost var (start, rest) := Pick(pending, busy, concurrency - |running|);
      ghost var begun: seq<Entry> := [];
      assert Scanned(start, rest, begun, pending, 0, busy, concurrency - |running|) by {
        assert pending[0..] == pending;
      }
      hide Pick, Idents, Begin, Scanned;
      BeginNone();
      var i := 0;
      while |running| < concurrency && i < |pending|
        invariant i <= |pending| && |running| <= concurrency
        invariant running == old(running) + Begin(begun) && busy == old(busy) + Idents(begun)
        invariant Scanned(start, rest, begun, pending, i, busy, concurrency - |running|)
        decreases |pending| - i
      {
        var e := pending[i];
        ScanStep(start, rest, begun, pending, i, busy, concurrency - |running|);
        if e.ident in busy {
          i := i + 1;
        } else {
          pending := pending[..i] + pending[i + 1..];
          IdentsConcat(begun, [e]);
          OneIdent(e);
          BeginSnoc(begun, e);
          busy := busy + {e.ident};
          running := running + [Task(e, None)];
          begun := begun + [e];
        }
      }
      ScanEnd(start, rest, begun, pending, i, busy, concurrency - |running|);
    }

    // A request reads its speaker's context before it is sent.
    method ReadPrompt(i: nat)
      requires Valid() && i < |running| && running[i].prompt.None?
      modifies this`running
      ensures Valid() && |running| == old(|running|)
      ensures running == old(running)[i := Task(old(running)[i].entry, Some(Context(tail, done, old(running)[i].entry.ident)))]
    {
      var ident := running[i].entry.ident;
      var prompt := if ident in context then context[ident] else "";
      running := running[i := running[i].(prompt := Some(prompt))];
      assert InFlight(running) == InFlight(old(running));
    }

    // A finished request: count it, hand on its text, and extend its speaker's
    // context with the text that now stands.
    method Settle(i: nat, answer: Answer)
      requires Valid() && i < |running|
      requires answer.Raised? || running[i].prompt.Some?
      modifies this`running, this`busy, this`context, this`ok, this`kept, this`failed, this`posted, this`done
      ensures Valid() && running == Drop(old(running), i)
      ensures var t := old(running)[i];
        done == old(done) + [Settled(t.entry, t.prompt, answer, OutcomeOf(t.entry.uid, answer, earlier))]
    {
      hide OnePerSpeaker, InTimeOrder, ContextsOk, Count, Drop, Posted, OutcomeOf;
      var t := running[i];
      var ident, uid := t.entry.ident, t.entry.uid;
      ghost var outcome := OutcomeOf(uid, answer, earlier);
      OutcomeIsJudged(earlier, uid, answer);
      SettleKeeps(entries, done, running, pending, busy, concurrency, i, answer, outcome);
      SettleContexts(tail, context, running, done, busy, concurrency, i, answer, outcome);
      CountSnoc(done, Settled(t.entry, t.prompt, answer, outcome));
      PostedSnoc(done, Settled(t.entry, t.prompt, answer, outcome));
      running := Drop(running, i);
      busy := busy - {ident};
      var before := if ident in context then context[ident] else "";
      match answer {
        case Raised =>
          failed := failed + 1;
          context := context[ident := tail(before, earlier(uid))];
        case Answered(text, degenerate) =>
          if text == "" || degenerate {
            kept := kept + 1;
            context := context[ident := tail(before, earlier(uid))];
          } else {
            posted := posted + [(uid, text)];
            ok := ok + 1;
            context := context[ident := tail(before, text)];
          }
      }
      done := done + [Settled(t.entry, t.prompt, answer, outcome)];
    }

    // The whole pass, for every order in which requests read their prompts and
    // finish, and every outcome.  It ends; every entry is settled once; each
    // speaker's entries are settled in time order; and every prompt was made
    // of the texts of all earlier entries of its speaker.
    method Run() returns (success: bool)
      requires Valid() && pending == entries && running == [] && done == []
      modifies this
      ensures Valid() && pending == [] && running == []
      ensures ok + kept + failed == |entries| && |done| == |entries|
      ensures success <==> failed == 0
      ensures forall ident :: Of(Entries(done), ident) == Of(entries, ident)
      ensures PromptsOk(tail, done) && posted == Posted(done) && TextsOk(earlier, done)
    {
      while pending != [] || running != []
        invariant Valid()
        decreases |pending| + |running|
      {
        Fill();
        AwaitSome();
      }
      Counted(done);
      assert forall ident :: Of(Entries(done), ident) + [] + [] == Of(entries, ident);
      return failed == 0;
    }

    // asyncio.wait until at least one request is done, then settle those that are.
    method AwaitSome()
      requires Valid() && running != []
      modifies this`running, this`busy, this`context, this`ok, this`kept, this`failed, this`posted, this`done
      ensures Valid() && |running| < old(|running|)
    {
      hide OnePerSpeaker, InTimeOrder, ContextsOk;
      assert 0 < |running|;
      var prompts: nat := *;
      while prompts > 0
        invariant Valid() && |running| == old(|running|)
        decreases prompts
      {
        assert 0 < |running|;
        var i: nat :| i < |running|;
        if running[i].prompt.None? {
          ReadPrompt(i);
        }
        prompts := prompts - 1;
      }
      assert 1 <= 1 <= |running|;
      var finished: nat :| 1 <= finished <= |running|;
      while finished > 0
        invariant Valid() && finished <= |running|
        invariant |running| < old(|running|) || (|running| == old(|running|) && finished > 0)
        decreases finished
      {
        assert 0 < |running|;
        var i: nat :| i < |running|;
        var answer: Answer := *;
        if running[i].prompt.None? {
          answer := Raised;
        }
        Settle(i, answer);
        finished := finished - 1;
      }
    }
  }

  lemma {:induction false} Counted(done: seq<Settled>)
    ensures Count(done, IsOk) + Count(done, IsKept) + Count(done, IsFailed) == |done|
  {
    if done != [] {
      Counted(done[..|done| - 1]);
    }
  }
}
