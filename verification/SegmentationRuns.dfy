// What every run of process / flush / reset keeps.  The framed stream, the
// probabilities heard, the last boundary and every piece of speech that was
// closed are history: the program does not store them.
module SegmentationRuns {
  import opened Wrappers
  import opened EnergyCut
  import opened Segmentation

  // When a piece was closed: the boundary it was opened after, the number of
  // frames heard, and whether a reset dropped it.
  datatype Mark = Mark(boundary: nat, heard: nat, reset: bool)

  // A closed stretch of speech.  `out` is None when it was too short or reset.
  datatype Piece = Piece(start: nat, end: nat, cut: bool, out: Option<Utterance>, mark: Mark)

  // boundary: where the last finish, flush or reset left the stream
  datatype History = History(stream: seq<Sample>, probs: seq<real>, boundary: nat, pieces: seq<Piece>)

  function Emitted(pieces: seq<Piece>): seq<Utterance> {
    if pieces == [] then []
    else Emitted(pieces[..|pieces| - 1])
         + (var out := pieces[|pieces| - 1].out; if out.Some? then [out.value] else [])
  }

  function Pieces(us: seq<Utterance>, mark: Mark): (ps: seq<Piece>)
    ensures |ps| == |us|
    ensures forall i :: 0 <= i < |us| ==> ps[i] == Piece(us[i].start, us[i].end, us[i].cut, Some(us[i]), mark)
  {
    seq(|us|, i requires 0 <= i < |us| => Piece(us[i].start, us[i].end, us[i].cut, Some(us[i]), mark))
  }

  function Here(h: History): Mark {
    Mark(h.boundary, |h.probs|, false)
  }

  // The history after a frame took `s` to `s'` and returned `us`.
  ghost function Heard<V>(h: History, s: Core<V>, frame: seq<Sample>, s': Core<V>, us: seq<Utterance>): History {
    var closed := s.inSpeech && !s'.inSpeech;
    var mark := Mark(h.boundary, |h.probs| + 1, false);
    History(
      h.stream + frame,
      h.probs + [s'.lastProb],
      if closed then s'.bufStart else h.boundary,
      h.pieces + if closed && us == [] then [Piece(s.bufStart, s'.bufStart, false, None, mark)] else Pieces(us, mark))
  }

  // The history after flush or reset closed the open speech (if any) at `end`;
  // `u` is what was returned.
  ghost function Stopped<V>(h: History, s: Core<V>, end: nat, u: Option<Utterance>, reset: bool): History {
    h.(boundary := s.total,
       pieces := h.pieces + if s.inSpeech then [Piece(s.bufStart, end, false, u, Here(h).(reset := reset))] else [])
  }

  // Where flush ends the utterance that is open.
  function FlushEnd<V>(p: Params, s: Core<V>): nat {
    Max(s.bufStart, Min(if s.silenceStart.Some? then s.silenceStart.value + p.post else s.total, s.total))
  }

  // ------------------------------------------------------------ what was heard

  // Frames >= startProb from frame f on.
  function Hot(p: Params, probs: seq<real>, f: nat): nat {
    if |probs| <= f then 0
    else Hot(p, probs[..|probs| - 1], f) + if probs[|probs| - 1] >= p.startProb then 1 else 0
  }

  // A run that began at sample r is still alive: it began with a frame that
  // is loud enough, no frame has been below endProb since, and it is not too old.
  ghost predicate LiveRun(p: Params, probs: seq<real>, r: nat) {
    && r % FRAME == 0
    && r / FRAME < |probs|
    && FRAME * |probs| - r <= p.runMax
    && probs[r / FRAME] >= p.startProb
    && forall g :: r / FRAME <= g < |probs| ==> probs[g] >= p.endProb
  }

  // j is the last frame >= startProb before k, and none below endProb follows it.
  ghost predicate Steady(p: Params, probs: seq<real>, j: nat, k: nat) {
    && j < k <= |probs|
    && probs[j] >= p.startProb
    && forall g :: j < g < k ==> p.endProb <= probs[g] < p.startProb
  }

  // f is the first frame below endProb since the last frame >= startProb.
  ghost predicate SilentFrom(p: Params, probs: seq<real>, f: nat) {
    && f < |probs|
    && probs[f] < p.endProb
    && (forall g :: f < g < |probs| ==> probs[g] < p.startProb)
    && exists j :: Steady(p, probs, j, f)
  }

  ghost predicate SilenceNoted(p: Params, probs: seq<real>, silence: Option<nat>) {
    match silence
    case None => exists j :: Steady(p, probs, j, |probs|)
    case Some(x) => x % FRAME == 0 && SilentFrom(p, probs, x / FRAME)
  }

  // ------------------------------------------------------------ invariant

  // The buffer is exactly the tail of the framed stream from bufStart on.
  ghost predicate Buffered<V>(s: Core<V>, h: History) {
    && s.total == |h.stream| == FRAME * |h.probs|
    && s.bufStart + |s.buf| == s.total
    && s.buf == h.stream[s.bufStart..]
    && h.boundary <= s.bufStart
  }

  ghost predicate IdleInv<V>(p: Params, s: Core<V>, h: History) {
    && s.silenceStart.None?
    && match s.runStart
       case None => s.runSpeech == 0 && s.bufStart <= Max(h.boundary, s.total - p.pre)
       case Some(r) =>
         && h.boundary <= r
         && LiveRun(p, h.probs, r)
         && s.runSpeech == FRAME * Hot(p, h.probs, r / FRAME) < p.startSamples
         && s.bufStart <= Max(h.boundary, r - p.pre)
  }

  ghost predicate SpeechInv<V>(p: Params, s: Core<V>, h: History) {
    && s.runStart.None?
    && |s.buf| < p.maxSamples
    && s.bufStart <= s.onset <= s.total
    && SilenceNoted(p, h.probs, s.silenceStart)
    && (s.silenceStart.Some? ==> s.total - s.silenceStart.value < p.endSamples)
  }

  function Millis(samples: nat): nat {
    samples * 1000 / SAMPLE_RATE
  }

  // The audio is that stretch of the stream; it is neither too long nor (cuts
  // apart) too short, and so is the speech in it.
  ghost predicate UtteranceOk(p: Params, stream: seq<Sample>, u: Utterance) {
    && u.start <= u.end <= |stream|
    && u.audio == stream[u.start..u.end]
    && u.end - u.start <= p.maxSamples
    && (if u.cut then u.start < u.end else p.minSpeech <= u.end - u.start)
    && (if u.cut then 0 else Millis(p.minSpeech)) <= u.speechMs <= Millis(u.end - u.start)
  }

  ghost predicate PieceOk(p: Params, stream: seq<Sample>, q: Piece) {
    && q.start <= q.end <= |stream|
    && (q.cut ==> q.out.Some?)
    && (q.out.Some? ==>
          var u := q.out.value;
          u.start == q.start && u.end == q.end && u.cut == q.cut && UtteranceOk(p, stream, u))
  }

  // In order, disjoint, and contiguous after a cut.
  ghost predicate Chained(pieces: seq<Piece>) {
    forall i, j :: 0 <= i < j < |pieces| ==>
      && pieces[i].end <= pieces[j].start
      && (j == i + 1 && pieces[i].cut ==> pieces[i].end == pieces[j].start)
  }

  ghost predicate PiecesOk<V>(p: Params, s: Core<V>, h: History) {
    && (forall k :: 0 <= k < |h.pieces| ==> PieceOk(p, h.stream, h.pieces[k]))
    && Chained(h.pieces)
    && (h.pieces != [] ==>
          var last := h.pieces[|h.pieces| - 1];
          && last.end <= s.bufStart
          && (last.cut ==> s.inSpeech && last.end == s.bufStart))
  }

  ghost predicate Inv<V>(p: Params, s: Core<V>, h: History) {
    && Buffered(s, h)
    && (if s.inSpeech then SpeechInv(p, s, h) else IdleInv(p, s, h))
    && PiecesOk(p, s, h)
  }

  lemma FreshInv<V>(p: Params, m: Model<V>)
    ensures Inv(p, Fresh(m), History([], [], 0, []))
  {
  }

  // ------------------------------------------------------------ one frame

  lemma HotStep(p: Params, probs: seq<real>, q: real, f: nat)
    requires f <= |probs|
    ensures Hot(p, probs + [q], f) == Hot(p, probs, f) + if q >= p.startProb then 1 else 0
  {
    assert (probs + [q])[..|probs + [q]| - 1] == probs;
  }

  lemma TrimKeeps<V>(p: Params, s: Core<V>, h: History)
    requires p.Valid()
    requires Buffered(s, h)
    requires s.runStart.Some? ==> s.runStart.value <= s.total
    ensures var t := Trim(p, s);
      && Buffered(t, h) && t == s.(buf := t.buf, bufStart := t.bufStart)
      && s.bufStart <= t.bufStart
      && |t.buf| <= p.IdleMax()
      && var wanted := (if s.runStart.Some? then s.runStart.value else s.total) - p.pre;
         t.bufStart == Max(s.bufStart, Max(wanted, s.total - p.IdleMax()))
  {
  }

  // The state and history right after a frame was appended.
  ghost function HeardOnly<V>(h: History, t: Core<V>, frame: seq<Sample>): History {
    h.(stream := h.stream + frame, probs := h.probs + [t.lastProb])
  }

  lemma HearKeeps<V>(p: Params, m: Model<V>, s: Core<V>, h: History, frame: seq<Sample>)
    requires Buffered(s, h) && PiecesOk(p, s, h) && |frame| == FRAME
    ensures var t := Hear(m, s, frame); var h1 := HeardOnly(h, t, frame);
      Buffered(t, h1) && PiecesOk(p, t, h1)
  {
    var t := Hear(m, s, frame);
    var h1 := HeardOnly(h, t, frame);
    assert t.buf == h1.stream[t.bufStart..];
    forall k | 0 <= k < |h.pieces| ensures PieceOk(p, h1.stream, h.pieces[k]) {
      var q := h.pieces[k];
      assert PieceOk(p, h.stream, q);
      assert h1.stream[q.start..q.end] == h.stream[q.start..q.end];
    }
  }

  // Idle: a run is dropped when it is too old, else it goes on.
  lemma ExpireKeeps<V>(p: Params, m: Model<V>, s: Core<V>, h: History, frame: seq<Sample>)
    requires p.Valid() && Inv(p, s, h) && !s.inSpeech && |frame| == FRAME
    ensures var t := ExpireRun(p, Hear(m, s, frame)); var h1 := HeardOnly(h, t, frame);
      && (t.runStart.None? ==> t.runSpeech == 0 && t.bufStart <= Max(h.boundary, s.total - p.pre))
      && (t.runStart.Some? ==>
            var r := t.runStart.value;
            && s.runStart == t.runStart && s.runSpeech == t.runSpeech
            && FRAME * |h1.probs| - r <= p.runMax)
  {
  }

  // The run after a frame >= startProb: it opens the utterance or lives on.
  lemma RunGrows<V>(p: Params, m: Model<V>, s: Core<V>, h: History, frame: seq<Sample>)
    requires p.Valid() && Inv(p, s, h) && !s.inSpeech && |frame| == FRAME
    requires Hear(m, s, frame).lastProb >= p.startProb
    ensures var t := ExpireRun(p, Hear(m, s, frame)); var h1 := HeardOnly(h, t, frame);
      var r := if t.runStart.Some? then t.runStart.value else s.total;
      && h.boundary <= r
      && LiveRun(p, h1.probs, r)
      && t.runSpeech + FRAME == FRAME * Hot(p, h1.probs, r / FRAME)
      && t.bufStart <= Max(h.boundary, r - p.pre)
  {
    hide PiecesOk, Trim;
    var t := ExpireRun(p, Hear(m, s, frame));
    var h1 := HeardOnly(h, t, frame);
    ExpireKeeps(p, m, s, h, frame);
    var r := if t.runStart.Some? then t.runStart.value else s.total;
    assert r / FRAME <= |h.probs|;
    HotStep(p, h.probs, t.lastProb, r / FRAME);
    if t.runStart.None? {
      assert Hot(p, h.probs, r / FRAME) == 0;
    }
  }

  // An opening utterance starts exactly at the later of its onset minus the
  // pre-roll and the last boundary, and the evidence for it is what the
  // parameters ask for, reached with this very frame.
  ghost predicate OpenedAt<V>(p: Params, s: Core<V>, h: History, s': Core<V>, probs: seq<real>) {
    && s'.bufStart == Max(h.boundary, s'.onset - p.pre)
    && h.boundary <= s'.onset
    && LiveRun(p, probs, s'.onset)
    && FRAME * (Hot(p, probs, s'.onset / FRAME) - 1) < Max(1, p.startSamples)
    && p.startSamples <= FRAME * Hot(p, probs, s'.onset / FRAME)
  }

  // Trimming keeps all the audio a live run (or a run to come) will need.
  lemma TrimInv<V>(p: Params, t: Core<V>, h: History)
    requires p.Valid() && Buffered(t, h) && PiecesOk(p, t, h) && !t.inSpeech
    requires t.silenceStart.None?
    requires t.runStart.None? ==> t.runSpeech == 0 && t.bufStart <= Max(h.boundary, t.total - p.pre)
    requires t.runStart.Some? ==>
      var r := t.runStart.value;
      && h.boundary <= r && LiveRun(p, h.probs, r)
      && t.runSpeech == FRAME * Hot(p, h.probs, r / FRAME) < p.startSamples
      && t.bufStart <= Max(h.boundary, r - p.pre)
    ensures Inv(p, Trim(p, t), h) && !Trim(p, t).inSpeech && |Trim(p, t).buf| <= p.IdleMax()
  {
    TrimKeeps(p, t, h);
  }

  lemma IdleHistory<V>(p: Params, m: Model<V>, s: Core<V>, h: History, frame: seq<Sample>)
    requires p.Valid() && !s.inSpeech
    ensures var (s', us) := PushFrame(p, m, s, frame);
      us == [] && Heard(h, s, frame, s', us) == HeardOnly(h, Hear(m, s, frame), frame)
  {
    assert h.pieces + [] == h.pieces;
  }

  lemma IdleFrame<V>(p: Params, m: Model<V>, s: Core<V>, h: History, frame: seq<Sample>)
    requires p.Valid() && Inv(p, s, h) && !s.inSpeech && |frame| == FRAME
    ensures var (s', us) := PushFrame(p, m, s, frame); var h' := Heard(h, s, frame, s', us);
      && us == [] && Inv(p, s', h') && h'.boundary == h.boundary
      && (s'.inSpeech ==> OpenedAt(p, s, h, s', h'.probs))
      && (!s'.inSpeech ==> |s'.buf| <= p.IdleMax())
  {
    IdleHistory(p, m, s, h, frame);
    HearKeeps(p, m, s, h, frame);
    ExpireKeeps(p, m, s, h, frame);
    var t := ExpireRun(p, Hear(m, s, frame));
    if t.lastProb >= p.startProb {
      RunFrame(p, m, s, h, frame);
    } else {
      QuietFrame(p, m, s, h, frame);
    }
  }

  lemma RunFrame<V>(p: Params, m: Model<V>, s: Core<V>, h: History, frame: seq<Sample>)
    requires p.Valid() && Inv(p, s, h) && !s.inSpeech && |frame| == FRAME
    requires Hear(m, s, frame).lastProb >= p.startProb
    ensures var t := Hear(m, s, frame); var s' := PushIdle(p, t, s.total); var h1 := HeardOnly(h, t, frame);
      && Inv(p, s', h1)
      && (s'.inSpeech ==> OpenedAt(p, s, h, s', h1.probs))
      && (!s'.inSpeech ==> |s'.buf| <= p.IdleMax())
  {
    hide Inv, Trim, Open, Buffered, PiecesOk, LiveRun, Hot;
    var h1 := HeardOnly(h, Hear(m, s, frame), frame);
    var t1 := ExtendRun(p, Hear(m, s, frame), s.total);
    var r := t1.runStart.value;
    RunReady(p, m, s, h, frame);
    if t1.runSpeech >= p.startSamples {
      OpenKeeps(p, t1, h1, r);
      assert PushIdle(p, Hear(m, s, frame), s.total) == Open(p, t1, r);
      OpenSpeaks(p, t1, r);
    } else {
      TrimInv(p, t1, h1);
      assert PushIdle(p, Hear(m, s, frame), s.total) == Trim(p, t1);
    }
  }

  lemma OpenSpeaks<V>(p: Params, t: Core<V>, r: nat)
    ensures Open(p, t, r).inSpeech
  {
  }

  lemma RunReady<V>(p: Params, m: Model<V>, s: Core<V>, h: History, frame: seq<Sample>)
    requires p.Valid() && Inv(p, s, h) && !s.inSpeech && |frame| == FRAME
    requires Hear(m, s, frame).lastProb >= p.startProb
    ensures var h1 := HeardOnly(h, Hear(m, s, frame), frame);
      var t1 := ExtendRun(p, Hear(m, s, frame), s.total);
      var r := t1.runStart.value;
      && Buffered(t1, h1) && PiecesOk(p, t1, h1) && !t1.inSpeech && t1.silenceStart.None?
      && h.boundary <= r && LiveRun(p, h1.probs, r)
      && t1.runSpeech == FRAME * Hot(p, h1.probs, r / FRAME)
      && t1.runSpeech - FRAME < Max(1, p.startSamples)
      && t1.bufStart <= Max(h.boundary, r - p.pre)
  {
    HearKeeps(p, m, s, h, frame);
    RunGrows(p, m, s, h, frame);
  }

  lemma QuietFrame<V>(p: Params, m: Model<V>, s: Core<V>, h: History, frame: seq<Sample>)
    requires p.Valid() && Inv(p, s, h) && !s.inSpeech && |frame| == FRAME
    requires Hear(m, s, frame).lastProb < p.startProb
    ensures var t := Hear(m, s, frame); var s' := PushIdle(p, t, s.total); var h1 := HeardOnly(h, t, frame);
      Inv(p, s', h1) && !s'.inSpeech && |s'.buf| <= p.IdleMax()
  {
    hide Trim, Buffered, PiecesOk;
    var t := ExpireRun(p, Hear(m, s, frame));
    var h1 := HeardOnly(h, t, frame);
    HearKeeps(p, m, s, h, frame);
    ExpireKeeps(p, m, s, h, frame);
    if t.lastProb < p.endProb {
      TrimInv(p, t.(runStart := None, runSpeech := 0), h1);
      assert PushIdle(p, Hear(m, s, frame), s.total) == Trim(p, t.(runStart := None, runSpeech := 0));
    } else {
      if t.runStart.Some? {
        HotStep(p, h.probs, t.lastProb, t.runStart.value / FRAME);
      }
      TrimInv(p, t, h1);
    }
  }

  // The opening, field by field.
  lemma OpenIs<V>(p: Params, t: Core<V>, boundary: nat, r: nat)
    requires p.Valid() && t.bufStart + |t.buf| == t.total && r < t.total <= r + p.runMax
    requires boundary <= r && boundary <= t.bufStart <= Max(boundary, r - p.pre)
    ensures var start := Max(boundary, r - p.pre);
      && t.bufStart <= start <= r && t.total - start <= p.IdleMax()
      && Open(p, t, r) == t.(buf := t.buf[start - t.bufStart..], bufStart := start, inSpeech := true,
           onset := r, silenceStart := None, runStart := None, runSpeech := 0)
  {
    var start := Max(boundary, r - p.pre);
    assert t.bufStart <= start <= r && t.total - start <= p.IdleMax();
    assert start == Max(t.bufStart, Max(r - p.pre, t.total - p.IdleMax()));
    assert DropFront(t.buf, start - t.bufStart) == t.buf[start - t.bufStart..];
    hide Max, DropFront;
  }

  lemma OpenKeeps<V>(p: Params, t: Core<V>, h: History, r: nat)
    requires p.Valid() && Buffered(t, h) && PiecesOk(p, t, h) && !t.inSpeech
    requires t.lastProb >= p.startProb && h.probs != [] && h.probs[|h.probs| - 1] == t.lastProb
    requires h.boundary <= r && LiveRun(p, h.probs, r)
    requires t.bufStart <= Max(h.boundary, r - p.pre)
    ensures var o := Open(p, t, r);
      && Inv(p, o, h) && o.onset == r && o.bufStart == Max(h.boundary, r - p.pre)
  {
    RunAge(p, h.probs, r);
    OpenIs(p, t, h.boundary, r);
    assert Steady(p, h.probs, |h.probs| - 1, |h.probs|);
    hide LiveRun, Steady, Open, Max;
    var o := Open(p, t, r);
    assert o.buf == h.stream[o.bufStart..];
    assert Buffered(o, h) && SpeechInv(p, o, h);
    hide Buffered, SpeechInv, PieceOk, Chained;
    assert PiecesOk(p, o, h);
  }

  lemma RunAge(p: Params, probs: seq<real>, r: nat)
    requires LiveRun(p, probs, r)
    ensures r < FRAME * |probs| <= r + p.runMax
  {
  }

  // ------------------------------------------------------------ in speech

  // The silence mark always is the first frame below endProb since the last
  // frame >= startProb.
  lemma SilenceKeeps(p: Params, probs: seq<real>, silence: Option<nat>, q: real)
    requires p.Valid() && SilenceNoted(p, probs, silence)
    ensures var silence' :=
              if q >= p.startProb then None
              else if q < p.endProb && silence.None? then Some(FRAME * |probs|) else silence;
            SilenceNoted(p, probs + [q], silence')
  {
    var probs' := probs + [q];
    if q >= p.startProb {
      assert Steady(p, probs', |probs|, |probs'|);
    } else {
      match silence
      case None =>
        var j :| Steady(p, probs, j, |probs|);
        if q < p.endProb {
          assert (FRAME * |probs|) / FRAME == |probs|;
          assert Steady(p, probs', j, |probs|);
        } else {
          assert Steady(p, probs', j, |probs'|);
        }
      case Some(x) =>
        var j :| Steady(p, probs, j, x / FRAME);
        assert Steady(p, probs', j, x / FRAME);
    }
  }

  // There is at most one such frame, so the mark is determined by what was heard.
  lemma SilenceUnique(p: Params, probs: seq<real>, f: nat, g: nat)
    requires p.Valid() && SilentFrom(p, probs, f) && SilentFrom(p, probs, g)
    ensures f == g
  {
    var i :| Steady(p, probs, i, f);
    var j :| Steady(p, probs, j, g);
  }

  // What PushSpeech starts from once the frame was heard and the silence noted.
  ghost predicate Listening<V>(p: Params, t: Core<V>, h: History) {
    && Buffered(t, h) && PiecesOk(p, t, h)
    && t.inSpeech && t.runStart.None?
    && t.bufStart <= t.onset <= t.total
    && SilenceNoted(p, h.probs, t.silenceStart)
  }

  // The history after Finish took `t` to `t'`.
  ghost function Ended<V>(h: History, t: Core<V>, t': Core<V>, u: Option<Utterance>): History {
    h.(boundary := t'.bufStart, pieces := h.pieces + [Piece(t.bufStart, t'.bufStart, false, u, Here(h))])
  }

  lemma FinishKeeps<V>(p: Params, t: Core<V>, h: History, end: nat)
    requires p.Valid() && Listening(p, t, h)
    requires end <= t.total && end - t.bufStart <= p.maxSamples
    requires t.silenceStart.Some? ==> t.silenceStart.value <= end
    ensures var (t', u) := Finish(p, t, end);
      && Inv(p, t', Ended(h, t, t', u)) && !t'.inSpeech && t'.total == t.total
      && t'.bufStart == Max(t.bufStart, end)
      && (u.None? <==> (if t.silenceStart.Some? then t.silenceStart.value else t'.bufStart) - t.onset < p.minSpeech)
  {
    hide SilentFrom, Steady, LiveRun, Hot;
    var (t', u) := Finish(p, t, end);
    var n := t'.bufStart - t.bufStart;
    assert t'.buf == h.stream[t'.bufStart..];
    assert t.buf[..n] == h.stream[t.bufStart..t'.bufStart];
  }

  lemma CutKeeps<V>(p: Params, t: Core<V>, h: History)
    requires p.Valid() && Listening(p, t, h) && p.maxSamples <= |t.buf|
    ensures var (t', u) := Cut(p, t); var h' := CutHistory(h, [u]);
      && Listening(p, t', h') && t'.silenceStart == t.silenceStart && t'.total == t.total
      && u.start == t.bufStart && u.end == t'.bufStart == t'.onset && u.cut
  {
    var (t', u) := Cut(p, t);
    CutPosition(t.buf[..p.maxSamples], p.cutSearch, CUT_WINDOW, CUT_HOP);
    var cut := t'.bufStart - t.bufStart;
    assert t.buf[..cut] == h.stream[t.bufStart..t'.bufStart];
    assert t'.buf == h.stream[t'.bufStart..];
  }

  lemma PiecesConcat(ps: seq<Piece>, u: Utterance, us: seq<Utterance>, mark: Mark)
    ensures (ps + Pieces([u], mark)) + Pieces(us, mark) == ps + Pieces([u] + us, mark)
  {
  }

  lemma {:induction false} CutAllKeeps<V>(p: Params, t: Core<V>, h: History)
    requires p.Valid() && Listening(p, t, h)
    ensures var (t', us) := CutAll(p, t); var h' := CutHistory(h, us);
      && Listening(p, t', h') && t'.silenceStart == t.silenceStart && t'.total == t.total
      && |t'.buf| < p.maxSamples
    decreases |t.buf|
  {
    if |t.buf| < p.maxSamples {
      assert h.pieces + Pieces([], Here(h)) == h.pieces;
    } else {
      CutKeeps(p, t, h);
      var (t1, u) := Cut(p, t);
      var h1 := CutHistory(h, [u]);
      CutAllKeeps(p, t1, h1);
      PiecesConcat(h.pieces, u, CutAll(p, t1).1, Here(h));
    }
  }

  // What a frame in speech hears before the branch on the silence.
  function Noted<V>(p: Params, m: Model<V>, s: Core<V>, frame: seq<Sample>): Core<V> {
    NoteSilence(p, Hear(m, s, frame), s.total)
  }

  ghost predicate LongSilence(p: Params, probs: seq<real>, f: nat) {
    SilentFrom(p, probs, f) && FRAME * |probs| - FRAME * f >= p.endSamples
  }

  lemma SpeechHears<V>(p: Params, m: Model<V>, s: Core<V>, h: History, frame: seq<Sample>)
    requires p.Valid() && Inv(p, s, h) && s.inSpeech && |frame| == FRAME
    ensures var t := Noted(p, m, s, frame); var h1 := HeardOnly(h, t, frame);
      && Listening(p, t, h1) && |t.buf| < p.maxSamples + FRAME
      && t.total == s.total + FRAME && t.bufStart == s.bufStart
      && h1.probs == h.probs + [t.lastProb]
      && ((t.silenceStart.Some? && t.total - t.silenceStart.value >= p.endSamples)
          <==> exists f :: LongSilence(p, h1.probs, f))
  {
    var t := Noted(p, m, s, frame);
    var h1 := HeardOnly(h, t, frame);
    HearKeeps(p, m, s, h, frame);
    SilenceKeeps(p, h.probs, s.silenceStart, t.lastProb);
    assert Listening(p, t, h1);
    MarkIsLongSilence(p, h1.probs, t.silenceStart);
  }

  lemma MarkIsLongSilence(p: Params, probs: seq<real>, silence: Option<nat>)
    requires p.Valid() && SilenceNoted(p, probs, silence)
    ensures (silence.Some? && FRAME * |probs| - silence.value >= p.endSamples) <==> exists f :: LongSilence(p, probs, f)
  {
    if silence.Some? && FRAME * |probs| - silence.value >= p.endSamples {
      assert LongSilence(p, probs, silence.value / FRAME);
    }
    forall f | LongSilence(p, probs, f)
      ensures silence.Some? && FRAME * |probs| - silence.value >= p.endSamples
    {
      if silence.Some? {
        SilenceUnique(p, probs, f, silence.value / FRAME);
      }
    }
  }

  // A frame in speech.  The utterance ends with it exactly when the first
  // frame below endProb since the last frame >= startProb is endSamples old.
  lemma SpeechFrame<V>(p: Params, m: Model<V>, s: Core<V>, h: History, frame: seq<Sample>)
    requires p.Valid() && Inv(p, s, h) && s.inSpeech && |frame| == FRAME
    ensures var (s', us) := PushFrame(p, m, s, frame); var h' := Heard(h, s, frame, s', us);
      && Inv(p, s', h')
      && (!s'.inSpeech <==> exists f :: LongSilence(p, h'.probs, f))
  {
    var t := Noted(p, m, s, frame);
    SpeechHears(p, m, s, h, frame);
    if t.silenceStart.Some? && t.total - t.silenceStart.value >= p.endSamples {
      SpeechEnds(p, m, s, h, frame);
    } else {
      SpeechGoesOn(p, m, s, h, frame);
    }
  }

  lemma SpeechEnds<V>(p: Params, m: Model<V>, s: Core<V>, h: History, frame: seq<Sample>)
    requires p.Valid() && Inv(p, s, h) && s.inSpeech && |frame| == FRAME
    requires var t := Noted(p, m, s, frame);
      t.silenceStart.Some? && t.total - t.silenceStart.value >= p.endSamples
    ensures var (s', us) := PushFrame(p, m, s, frame); var h' := Heard(h, s, frame, s', us);
      && Inv(p, s', h') && !s'.inSpeech
      && h'.probs == HeardOnly(h, Noted(p, m, s, frame), frame).probs
  {
    hide *;
    var t := Noted(p, m, s, frame);
    SpeechHears(p, m, s, h, frame);
    EndKeeps(p, t, HeardOnly(h, t, frame));
    EndHistory(p, m, s, h, frame);
  }

  lemma BufferEnds<V>(p: Params, t: Core<V>, h: History)
    requires Listening(p, t, h)
    ensures t.bufStart + |t.buf| == t.total
  {
  }

  // The post-roll ends before this frame, so the utterance fits maxSamples.
  lemma EndKeeps<V>(p: Params, t: Core<V>, h: History)
    requires p.Valid() && Listening(p, t, h) && |t.buf| < p.maxSamples + FRAME
    requires t.silenceStart.Some? && t.total - t.silenceStart.value >= p.endSamples
    ensures var (t', u) := Finish(p, t, t.silenceStart.value + p.post);
      && !t'.inSpeech
      && Inv(p, t', Ended(h, t, t', u))
  {
    hide Listening, Inv, Finish, Ended;
    var end := t.silenceStart.value + p.post;
    BufferEnds(p, t, h);
    FinishKeeps(p, t, h, end);
  }

  lemma EndFrame<V>(p: Params, m: Model<V>, s: Core<V>, frame: seq<Sample>)
    requires p.Valid() && s.inSpeech
    requires var t := Noted(p, m, s, frame);
      t.silenceStart.Some? && t.total - t.silenceStart.value >= p.endSamples
    ensures var t := Noted(p, m, s, frame);
      var (t', u) := Finish(p, t, t.silenceStart.value + p.post);
      && PushFrame(p, m, s, frame) == (t', if u.None? then [] else [u.value])
      && !t'.inSpeech && t'.lastProb == t.lastProb && t.bufStart == s.bufStart
      && (u.Some? ==> u.value.start == t.bufStart && u.value.end == t'.bufStart && !u.value.cut)
  {
    hide LowestEnergyCut, CutAll, PushIdle;
  }

  lemma EndHistory<V>(p: Params, m: Model<V>, s: Core<V>, h: History, frame: seq<Sample>)
    requires p.Valid() && s.inSpeech
    requires var t := Noted(p, m, s, frame);
      t.silenceStart.Some? && t.total - t.silenceStart.value >= p.endSamples
    ensures var (s', us) := PushFrame(p, m, s, frame);
      var t := Noted(p, m, s, frame); var h1 := HeardOnly(h, t, frame);
      var (t', u) := Finish(p, t, t.silenceStart.value + p.post);
      s' == t' && Heard(h, s, frame, s', us) == Ended(h1, t, t', u) && Ended(h1, t, t', u).probs == h1.probs
  {
    EndFrame(p, m, s, frame);
    hide PushFrame, Finish, Noted;
    var t := Noted(p, m, s, frame);
    var (t', u) := Finish(p, t, t.silenceStart.value + p.post);
    if u.Some? {
      var mark := Mark(h.boundary, |h.probs| + 1, false);
      assert Pieces([u.value], mark) == [Piece(t.bufStart, t'.bufStart, false, u, mark)];
    }
  }

  lemma SpeechGoesOn<V>(p: Params, m: Model<V>, s: Core<V>, h: History, frame: seq<Sample>)
    requires p.Valid() && Inv(p, s, h) && s.inSpeech && |frame| == FRAME
    requires var t := Noted(p, m, s, frame);
      !(t.silenceStart.Some? && t.total - t.silenceStart.value >= p.endSamples)
    ensures var (s', us) := PushFrame(p, m, s, frame); var h' := Heard(h, s, frame, s', us);
      && Inv(p, s', h') && s'.inSpeech
      && h'.probs == HeardOnly(h, Noted(p, m, s, frame), frame).probs
  {
    hide Inv, Listening, PushFrame, Heard, CutAll, Noted, CutHistory, LongSilence;
    var t := Noted(p, m, s, frame);
    SpeechHears(p, m, s, h, frame);
    CutAllKeeps(p, t, HeardOnly(h, t, frame));
    GoesOnHistory(p, m, s, h, frame);
    StillSpeech(p, CutAll(p, t).0, CutHistory(HeardOnly(h, t, frame), CutAll(p, t).1));
  }

  function CutHistory(h: History, us: seq<Utterance>): History {
    h.(pieces := h.pieces + Pieces(us, Here(h)))
  }

  lemma GoesOnHistory<V>(p: Params, m: Model<V>, s: Core<V>, h: History, frame: seq<Sample>)
    requires p.Valid() && s.inSpeech
    requires var t := Noted(p, m, s, frame);
      !(t.silenceStart.Some? && t.total - t.silenceStart.value >= p.endSamples)
    ensures var t := Noted(p, m, s, frame); var (t', us) := CutAll(p, t); var h1 := HeardOnly(h, t, frame);
      && PushFrame(p, m, s, frame) == (t', us) && t'.inSpeech
      && Heard(h, s, frame, t', us) == CutHistory(h1, us) && CutHistory(h1, us).probs == h1.probs
  {
    hide Finish, PushIdle, LowestEnergyCut;
    CutAllFrame(p, Noted(p, m, s, frame));
    hide CutAll;
  }

  lemma StillSpeech<V>(p: Params, t: Core<V>, h: History)
    requires Listening(p, t, h) && |t.buf| < p.maxSamples
    requires !(t.silenceStart.Some? && t.total - t.silenceStart.value >= p.endSamples)
    ensures Inv(p, t, h) && t.inSpeech
  {
    hide Buffered, PiecesOk, SilenceNoted;
  }

  // Cutting changes the buffer, its start and the onset, and nothing else.
  lemma {:induction false} CutAllFrame<V>(p: Params, t: Core<V>)
    requires p.Valid()
    ensures var t' := CutAll(p, t).0; t' == t.(buf := t'.buf, bufStart := t'.bufStart, onset := t'.onset)
    decreases |t.buf|
  {
    if p.maxSamples <= |t.buf| {
      CutAllFrame(p, Cut(p, t).0);
    }
  }

  // ------------------------------------------------------------ flush and reset

  lemma FlushKeeps<V>(p: Params, s: Core<V>, h: History)
    requires p.Valid() && Inv(p, s, h)
    ensures var (s', u) := Flush(p, s);
      && Inv(p, s', Stopped(h, s, FlushEnd(p, s), u, false)) && !s'.inSpeech && s'.bufStart == s.total
      && (u.Some? ==> s.inSpeech)
  {
    hide Inv, Finish, FlushEnd;
    if s.inSpeech {
      var end := if s.silenceStart.Some? then s.silenceStart.value + p.post else s.total;
      FlushFinish(p, s, h);
      var (s1, u) := Finish(p, s, Min(end, s.total));
      ClearKeeps(p, s1, Ended(h, s, s1, u));
      assert Stopped(h, s, FlushEnd(p, s), u, false) == Ended(h, s, s1, u).(boundary := s.total);
    } else {
      ClearKeeps(p, s, h);
      assert h.pieces + [] == h.pieces;
    }
  }

  lemma FlushFinish<V>(p: Params, s: Core<V>, h: History)
    requires p.Valid() && Inv(p, s, h) && s.inSpeech
    ensures var (s1, u) := Finish(p, s, Min(if s.silenceStart.Some? then s.silenceStart.value + p.post else s.total, s.total));
      && Inv(p, s1, Ended(h, s, s1, u)) && !s1.inSpeech && s1.total == s.total && s1.bufStart == FlushEnd(p, s)
  {
    var end := if s.silenceStart.Some? then s.silenceStart.value + p.post else s.total;
    SilenceIsPast(p, h.probs, s.silenceStart);
    assert s.silenceStart.Some? ==> s.silenceStart.value <= s.total;
    assert Listening(p, s, h) && s.total - s.bufStart <= p.maxSamples;
    hide Inv, Listening, Finish;
    FinishKeeps(p, s, h, Min(end, s.total));
  }

  lemma SilenceIsPast(p: Params, probs: seq<real>, silence: Option<nat>)
    requires SilenceNoted(p, probs, silence)
    ensures silence.Some? ==> silence.value < FRAME * |probs|
  {
  }

  // Forgetting the buffered audio of an idle stream moves the boundary up.
  lemma ClearKeeps<V>(p: Params, s: Core<V>, h: History)
    requires p.Valid() && Inv(p, s, h) && !s.inSpeech
    ensures Inv(p, Idle(s, [], s.total), h.(boundary := s.total))
  {
    hide SilentFrom, Steady, LiveRun, Hot, UtteranceOk;
  }

  lemma ResetKeeps<V>(p: Params, m: Model<V>, s: Core<V>, h: History)
    requires p.Valid() && Inv(p, s, h)
    ensures Inv(p, Reset(m, s), Stopped(h, s, s.total, None, true)) && Reset(m, s).vad == m.initial
  {
  }

  // ------------------------------------------------------------ runs

  datatype Call = Process(pcm: seq<Sample>) | FlushCall | ResetCall

  // returned: every utterance handed to the caller so far
  datatype World<V> = World(core: Core<V>, pending: seq<Sample>, history: History, returned: seq<Utterance>)

  ghost function Push<V>(p: Params, m: Model<V>, w: World<V>, frame: seq<Sample>): World<V>
    requires p.Valid()
  {
    var (s', us) := PushFrame(p, m, w.core, frame);
    World(s', w.pending, Heard(w.history, w.core, frame, s', us), w.returned + us)
  }

  ghost function PushAll<V>(p: Params, m: Model<V>, w: World<V>): World<V>
    requires p.Valid()
    decreases |w.pending|
  {
    if |w.pending| < FRAME then w
    else PushAll(p, m, Push(p, m, w, w.pending[..FRAME]).(pending := w.pending[FRAME..]))
  }

  ghost function After<V>(p: Params, m: Model<V>, w: World<V>, call: Call): World<V>
    requires p.Valid()
  {
    match call
    case Process(pcm) => PushAll(p, m, w.(pending := w.pending + pcm))
    case FlushCall =>
      var (s', u) := Flush(p, w.core);
      World(s', w.pending, Stopped(w.history, w.core, FlushEnd(p, w.core), u, false), w.returned + if u.Some? then [u.value] else [])
    case ResetCall =>
      World(Reset(m, w.core), [], Stopped(w.history, w.core, w.core.total, None, true), w.returned)
  }

  ghost function Run<V>(p: Params, m: Model<V>, calls: seq<Call>): World<V>
    requires p.Valid()
  {
    if calls == [] then World(Fresh(m), [], History([], [], 0, []), [])
    else After(p, m, Run(p, m, calls[..|calls| - 1]), calls[|calls| - 1])
  }

  // The history is a shadow: PushAll computes what Drain computes.
  lemma {:induction false} PushAllIsDrain<V>(p: Params, m: Model<V>, w: World<V>)
    requires p.Valid()
    ensures var w' := PushAll(p, m, w); var (s', rest, us) := Drain(p, m, w.core, w.pending);
      w'.core == s' && w'.pending == rest && w'.returned == w.returned + us
    decreases |w.pending|
  {
    if |w.pending| < FRAME {
      assert w.returned + [] == w.returned;
    } else {
      var w1 := Push(p, m, w, w.pending[..FRAME]).(pending := w.pending[FRAME..]);
      PushAllIsDrain(p, m, w1);
      var us := PushFrame(p, m, w.core, w.pending[..FRAME]).1;
      Assoc(w.returned, us, Drain(p, m, w1.core, w1.pending).2);
    }
  }

  ghost predicate WorldInv<V>(p: Params, w: World<V>) {
    Inv(p, w.core, w.history) && w.returned == Emitted(w.history.pieces)
  }

  lemma {:induction false} EmittedPieces(ps: seq<Piece>, us: seq<Utterance>, mark: Mark)
    ensures Emitted(ps + Pieces(us, mark)) == Emitted(ps) + us
  {
    hide Emitted, Pieces;
    if us == [] {
      assert ps + Pieces(us, mark) == ps;
    } else {
      var front, last := us[..|us| - 1], us[|us| - 1];
      var q := Piece(last.start, last.end, last.cut, Some(last), mark);
      EmittedPieces(ps, front, mark);
      EmittedMore(ps + Pieces(front, mark), q);
      PiecesSnoc(us, mark);
      Assoc(ps, Pieces(front, mark), [q]);
      Assoc(Emitted(ps), front, [last]);
      assert front + [last] == us;
    }
  }

  lemma PiecesSnoc(us: seq<Utterance>, mark: Mark)
    requires us != []
    ensures var last := us[|us| - 1];
      Pieces(us, mark) == Pieces(us[..|us| - 1], mark) + [Piece(last.start, last.end, last.cut, Some(last), mark)]
  {
  }

  lemma EmittedMore(ps: seq<Piece>, q: Piece)
    ensures Emitted(ps + [q]) == Emitted(ps) + if q.out.Some? then [q.out.value] else []
  {
    assert (ps + [q])[..|ps|] == ps;
  }

  lemma EmittedSilent(ps: seq<Piece>, q: Piece)
    requires q.out.None?
    ensures Emitted(ps + [q]) == Emitted(ps)
  {
    EmittedMore(ps, q);
  }

  lemma PushKeeps<V>(p: Params, m: Model<V>, w: World<V>, frame: seq<Sample>)
    requires p.Valid() && WorldInv(p, w) && |frame| == FRAME
    ensures WorldInv(p, Push(p, m, w, frame))
  {
    var s, h := w.core, w.history;
    var (s', us) := PushFrame(p, m, s, frame);
    if s.inSpeech && !s'.inSpeech && us == [] {
      EmittedSilent(h.pieces, Piece(s.bufStart, s'.bufStart, false, None, Mark(h.boundary, |h.probs| + 1, false)));
    } else {
      EmittedPieces(h.pieces, us, Mark(h.boundary, |h.probs| + 1, false));
    }
    FrameKeeps(p, m, s, h, frame);
  }

  lemma FrameKeeps<V>(p: Params, m: Model<V>, s: Core<V>, h: History, frame: seq<Sample>)
    requires p.Valid() && Inv(p, s, h) && |frame| == FRAME
    ensures var (s', us) := PushFrame(p, m, s, frame); Inv(p, s', Heard(h, s, frame, s', us))
  {
    hide *;
    if s.inSpeech {
      SpeechFrame(p, m, s, h, frame);
    } else {
      IdleFrame(p, m, s, h, frame);
    }
  }

  lemma {:induction false} PushAllKeeps<V>(p: Params, m: Model<V>, w: World<V>)
    requires p.Valid() && WorldInv(p, w)
    ensures WorldInv(p, PushAll(p, m, w))
    decreases |w.pending|
  {
    if |w.pending| >= FRAME {
      PushKeeps(p, m, w, w.pending[..FRAME]);
      PushAllKeeps(p, m, Push(p, m, w, w.pending[..FRAME]).(pending := w.pending[FRAME..]));
    }
  }

  lemma AfterKeeps<V>(p: Params, m: Model<V>, w: World<V>, call: Call)
    requires p.Valid() && WorldInv(p, w)
    ensures WorldInv(p, After(p, m, w, call))
  {
    var s, h := w.core, w.history;
    match call
    case Process(pcm) =>
      PushAllKeeps(p, m, w.(pending := w.pending + pcm));
    case FlushCall =>
      FlushKeeps(p, s, h);
      StoppedEmits(h, s, FlushEnd(p, s), Flush(p, s).1, false);
    case ResetCall =>
      ResetKeeps(p, m, s, h);
      StoppedEmits(h, s, s.total, None, true);
  }

  lemma StoppedEmits<V>(h: History, s: Core<V>, end: nat, u: Option<Utterance>, reset: bool)
    requires u.Some? ==> s.inSpeech
    ensures Emitted(Stopped(h, s, end, u, reset).pieces) == Emitted(h.pieces) + if u.Some? then [u.value] else []
  {
    if s.inSpeech {
      EmittedMore(h.pieces, Piece(s.bufStart, end, false, u, Here(h).(reset := reset)));
    } else {
      assert h.pieces + [] == h.pieces;
    }
  }

  lemma {:induction false} RunKeeps<V>(p: Params, m: Model<V>, calls: seq<Call>)
    requires p.Valid()
    ensures WorldInv(p, Run(p, m, calls))
  {
    if calls == [] {
      FreshInv(p, m);
    } else {
      RunKeeps(p, m, calls[..|calls| - 1]);
      AfterKeeps(p, m, Run(p, m, calls[..|calls| - 1]), calls[|calls| - 1]);
    }
  }

  // ------------------------------------------------------------ main results

  // What process was given.  A reset throws away what does not fill a frame yet.
  function Given(calls: seq<Call>): seq<Sample> {
    if calls == [] then []
    else
      var before := Given(calls[..|calls| - 1]);
      match calls[|calls| - 1]
      case Process(pcm) => before + pcm
      case FlushCall => before
      case ResetCall => before[..|before| - |before| % FRAME]
  }

  // The framed stream and what is pending are what was given.
  lemma {:induction false} StreamOfARun<V>(p: Params, m: Model<V>, calls: seq<Call>)
    requires p.Valid()
    ensures var w := Run(p, m, calls);
      w.history.stream + w.pending == Given(calls) && |w.pending| < FRAME && |w.history.stream| % FRAME == 0
  {
    if calls != [] {
      var front := calls[..|calls| - 1];
      StreamOfARun(p, m, front);
      StreamOfCall(p, m, Run(p, m, front), calls[|calls| - 1]);
      hide After;
    }
  }

  lemma StreamOfCall<V>(p: Params, m: Model<V>, w: World<V>, call: Call)
    requires p.Valid() && |w.pending| < FRAME && |w.history.stream| % FRAME == 0
    ensures var w' := After(p, m, w, call); var before := w.history.stream + w.pending;
      && |w'.pending| < FRAME && |w'.history.stream| % FRAME == 0
      && w'.history.stream + w'.pending ==
           match call
           case Process(pcm) => before + pcm
           case FlushCall => before
           case ResetCall => before[..|before| - |before| % FRAME]
  {
    hide PushAll, Flush, FlushEnd;
    match call
    case Process(pcm) =>
      StreamOfPushAll(p, m, w.(pending := w.pending + pcm));
      Assoc(w.history.stream, w.pending, pcm);
    case FlushCall =>
    case ResetCall =>
      assert w.history.stream + [] == w.history.stream;
  }

  lemma {:induction false} StreamOfPushAll<V>(p: Params, m: Model<V>, w: World<V>)
    requires p.Valid() && |w.history.stream| % FRAME == 0
    ensures var w' := PushAll(p, m, w);
      && w'.history.stream + w'.pending == w.history.stream + w.pending
      && |w'.pending| < FRAME && |w'.history.stream| % FRAME == 0
    decreases |w.pending|
  {
    if |w.pending| >= FRAME {
      var frame, rest := w.pending[..FRAME], w.pending[FRAME..];
      StreamOfPushAll(p, m, Push(p, m, w, frame).(pending := rest));
      Assoc(w.history.stream, frame, rest);
      assert frame + rest == w.pending;
    }
  }

  // Every utterance any run returns is exactly what was given between its
  // indices, fits maxSamples, and (unless cut) holds minSpeech.  Utterances
  // come in order and never overlap.
  lemma UtterancesOfARun<V>(p: Params, m: Model<V>, calls: seq<Call>)
    requires p.Valid()
    ensures var w := Run(p, m, calls); var us := w.returned;
      && (forall i :: 0 <= i < |us| ==> UtteranceOk(p, Given(calls), us[i]))
      && (forall i, j :: 0 <= i < j < |us| ==> us[i].end <= us[j].start)
  {
    hide Run, Emitted, PieceOk, UtteranceOk, Chained, Given;
    RunKeeps(p, m, calls);
    StreamOfARun(p, m, calls);
    var w := Run(p, m, calls);
    EmittedInOrder(p, w.history.stream, w.history.pieces);
    forall i | 0 <= i < |w.returned| ensures UtteranceOk(p, Given(calls), w.returned[i]) {
      StillOk(p, w.history.stream, w.pending, w.returned[i]);
    }
  }

  lemma StillOk(p: Params, stream: seq<Sample>, more: seq<Sample>, u: Utterance)
    requires UtteranceOk(p, stream, u)
    ensures UtteranceOk(p, stream + more, u)
  {
    assert (stream + more)[u.start..u.end] == stream[u.start..u.end];
  }

  ghost predicate OutOk(p: Params, stream: seq<Sample>, us: seq<Utterance>, end: nat) {
    && (forall i :: 0 <= i < |us| ==> UtteranceOk(p, stream, us[i]) && us[i].end <= end)
    && (forall i, j :: 0 <= i < j < |us| ==> us[i].end <= us[j].start)
  }

  lemma {:induction false} EmittedInOrder(p: Params, stream: seq<Sample>, ps: seq<Piece>)
    requires forall k :: 0 <= k < |ps| ==> PieceOk(p, stream, ps[k])
    requires Chained(ps)
    ensures OutOk(p, stream, Emitted(ps), if ps == [] then 0 else ps[|ps| - 1].end)
  {
    if ps != [] {
      var front, last := ps[..|ps| - 1], ps[|ps| - 1];
      assert forall k :: 0 <= k < |front| ==> front[k] == ps[k];
      assert (if front == [] then 0 else front[|front| - 1].end) <= last.start;
      EmittedInOrder(p, stream, front);
      OutMore(p, stream, Emitted(front), if front == [] then 0 else front[|front| - 1].end, last);
    }
  }

  lemma OutMore(p: Params, stream: seq<Sample>, us: seq<Utterance>, end: nat, q: Piece)
    requires OutOk(p, stream, us, end) && end <= q.start && PieceOk(p, stream, q)
    ensures OutOk(p, stream, us + if q.out.Some? then [q.out.value] else [], q.end)
  {
  }

  // After a max-length cut the speech goes on exactly where the cut ended: in
  // the next piece if there is one, else in the utterance still open.
  lemma CutContinues<V>(p: Params, m: Model<V>, calls: seq<Call>, k: nat)
    requires p.Valid()
    requires k < |Run(p, m, calls).history.pieces| && Run(p, m, calls).history.pieces[k].cut
    ensures var w := Run(p, m, calls); var ps := w.history.pieces;
      if k + 1 < |ps| then ps[k + 1].start == ps[k].end
      else w.core.inSpeech && w.core.bufStart == ps[k].end
  {
    RunKeeps(p, m, calls);
  }

  // In any run: speech ends with a frame exactly when the first frame below
  // endProb since the last frame >= startProb is then endSamples old.
  lemma EndingsOfARun<V>(p: Params, m: Model<V>, calls: seq<Call>, frame: seq<Sample>)
    requires p.Valid() && |frame| == FRAME
    requires Run(p, m, calls).core.inSpeech
    ensures var w := Run(p, m, calls); var w' := Push(p, m, w, frame);
      !w'.core.inSpeech <==> exists f :: LongSilence(p, w'.history.probs, f)
  {
    hide Run, Inv, LongSilence;
    RunKeeps(p, m, calls);
    var w := Run(p, m, calls);
    SpeechFrame(p, m, w.core, w.history, frame);
  }
}
