// The utterance segmenter as a transition system on values: one function per
// operation of the program, and what every run of them keeps.  The class that
// updates fields and a buffer in place is in Segmenter.dfy.
module Segmentation {
  import opened Wrappers
  import opened EnergyCut

  const FRAME: nat := 512
  const SAMPLE_RATE: nat := 16000
  const CUT_WINDOW: nat := 480
  const CUT_HOP: nat := 160

  // Thresholds and lengths (in samples).
  datatype Params = Params(
    startProb: real, endProb: real, startSamples: nat, runMax: nat, endSamples: nat,
    minSpeech: nat, pre: nat, post: nat, maxSamples: nat, cutSearch: nat)
  {
    function IdleMax(): nat { pre + runMax }

    // Without it the cut loop would not end.
    predicate Cuts() { maxSamples > 0 }

    // What the default parameters meet.
    predicate Valid() {
      && endProb <= startProb
      && FRAME <= runMax
      && post + FRAME <= endSamples
      && IdleMax() < maxSamples
    }
  }

  const DEFAULTS := Params(0.5, 0.35, 4000, 16000, 12800, 6400, 4800, 2400, 240000, 48000)

  lemma DefaultsAreValid()
    ensures DEFAULTS.Valid()
  {
  }

  // The speech model: any function of its recurrent state and a frame.
  datatype Model<!V> = Model(initial: V, prob: (V, seq<Sample>) -> (real, V))

  datatype Utterance = Utterance(audio: seq<Sample>, start: nat, end: nat, speechMs: nat, cut: bool)

  // The segmenter's fields, without the samples that do not fill a frame yet.
  datatype Core<V> = Core(
    vad: V, lastProb: real, total: nat, inSpeech: bool,
    buf: seq<Sample>, bufStart: nat,
    runStart: Option<nat>, runSpeech: nat, onset: nat, silenceStart: Option<nat>,
    shortDiscarded: nat)

  function Fresh<V>(m: Model<V>): Core<V> {
    Core(m.initial, 0.0, 0, false, [], 0, None, 0, 0, None, 0)
  }

  function Idle<V>(s: Core<V>, buf: seq<Sample>, start: nat): Core<V> {
    s.(inSpeech := false, buf := buf, bufStart := start,
       runStart := None, runSpeech := 0, onset := 0, silenceStart := None)
  }

  function DropFront(buf: seq<Sample>, k: int): seq<Sample> {
    buf[Min(Max(0, k), |buf|)..]
  }

  // _push_frame up to the branch on _in_speech
  function Hear<V>(m: Model<V>, s: Core<V>, frame: seq<Sample>): Core<V> {
    var (p, vad) := m.prob(s.vad, frame);
    s.(vad := vad, lastProb := p, total := s.total + |frame|, buf := s.buf + frame)
  }

  function ExpireRun<V>(p: Params, s: Core<V>): Core<V> {
    if s.runStart.Some? && s.total - s.runStart.value > p.runMax
    then s.(runStart := None, runSpeech := 0)
    else s
  }

  function Trim<V>(p: Params, s: Core<V>): Core<V> {
    var keepFrom := Max((if s.runStart.Some? then s.runStart.value else s.total) - p.pre, s.total - p.IdleMax());
    if keepFrom > s.bufStart
    then s.(buf := DropFront(s.buf, keepFrom - s.bufStart), bufStart := keepFrom)
    else s
  }

  function Open<V>(p: Params, s: Core<V>, onset: nat): Core<V> {
    var start := Max(s.bufStart, Max(onset - p.pre, s.total - p.IdleMax()));
    s.(buf := DropFront(s.buf, start - s.bufStart), bufStart := start, inSpeech := true,
       onset := Max(onset, start), silenceStart := None, runStart := None, runSpeech := 0)
  }

  function Finish<V>(p: Params, s: Core<V>, end: nat): (r: (Core<V>, Option<Utterance>)) {
    var end := Max(s.bufStart, Min(end, s.bufStart + |s.buf|));
    var n := end - s.bufStart;
    var speech := (if s.silenceStart.Some? then s.silenceStart.value else end) - s.onset;
    var idle := Idle(s, s.buf[n..], end);
    if speech < p.minSpeech then (idle.(shortDiscarded := s.shortDiscarded + 1), None)
    else (idle, Some(Utterance(s.buf[..n], s.bufStart, end, speech * 1000 / SAMPLE_RATE, false)))
  }

  lemma FinishStays<V>(p: Params, s: Core<V>, end: nat)
    ensures Finish(p, s, end).0.total == s.total
  {
  }

  function Cut<V>(p: Params, s: Core<V>): (r: (Core<V>, Utterance))
    requires p.Cuts() && p.maxSamples <= |s.buf|
    ensures |r.0.buf| < |s.buf| && |r.1.audio| + |r.0.buf| == |s.buf|
    ensures r.1.start == s.bufStart && r.1.end == r.1.start + |r.1.audio|
    ensures r.0.bufStart == r.0.onset == r.1.end
  {
    CutPosition(s.buf[..p.maxSamples], p.cutSearch, CUT_WINDOW, CUT_HOP);
    var cut := LowestEnergyCut(s.buf[..p.maxSamples], p.cutSearch, CUT_WINDOW, CUT_HOP);
    var start := s.bufStart;
    (s.(buf := DropFront(s.buf, cut), bufStart := start + cut, onset := start + cut),
     Utterance(s.buf[..cut], start, start + cut, Max(0, start + cut - s.onset) * 1000 / SAMPLE_RATE, true))
  }

  function CutAll<V>(p: Params, s: Core<V>): (r: (Core<V>, seq<Utterance>))
    requires p.Cuts()
    decreases |s.buf|
  {
    if |s.buf| < p.maxSamples then (s, [])
    else
      var (s1, u) := Cut(p, s);
      var (s2, us) := CutAll(p, s1);
      (s2, [u] + us)
  }

  // A frame >= startProb starts a run or extends it.
  function ExtendRun<V>(p: Params, s: Core<V>, frameStart: nat): Core<V> {
    var s := ExpireRun(p, s);
    s.(runStart := Some(if s.runStart.Some? then s.runStart.value else frameStart),
       runSpeech := s.runSpeech + FRAME)
  }

  function PushIdle<V>(p: Params, s: Core<V>, frameStart: nat): Core<V> {
    if s.lastProb >= p.startProb then
      var t := ExtendRun(p, s, frameStart);
      if t.runSpeech >= p.startSamples then Open(p, t, t.runStart.value) else Trim(p, t)
    else if s.lastProb < p.endProb then Trim(p, s.(runStart := None, runSpeech := 0))
    else Trim(p, ExpireRun(p, s))
  }

  function NoteSilence<V>(p: Params, s: Core<V>, frameStart: nat): Core<V> {
    if s.lastProb >= p.startProb then s.(silenceStart := None)
    else if s.lastProb < p.endProb && s.silenceStart.None? then s.(silenceStart := Some(frameStart))
    else s
  }

  function PushSpeech<V>(p: Params, s: Core<V>, frameStart: nat): (Core<V>, seq<Utterance>)
    requires p.Cuts()
  {
    var s := NoteSilence(p, s, frameStart);
    if s.silenceStart.Some? && s.total - s.silenceStart.value >= p.endSamples then
      var (s', u) := Finish(p, s, s.silenceStart.value + p.post);
      (s', if u.None? then [] else [u.value])
    else CutAll(p, s)
  }

  function PushFrame<V>(p: Params, m: Model<V>, s: Core<V>, frame: seq<Sample>): (Core<V>, seq<Utterance>)
    requires p.Cuts()
  {
    var h := Hear(m, s, frame);
    if h.inSpeech then PushSpeech(p, h, s.total) else (PushIdle(p, h, s.total), [])
  }

  // flush: closes an open utterance and goes idle at the end of the stream
  function Flush<V>(p: Params, s: Core<V>): (Core<V>, Option<Utterance>)
  {
    if s.inSpeech then
      var end := if s.silenceStart.Some? then s.silenceStart.value + p.post else s.total;
      var (s', u) := Finish(p, s, Min(end, s.total));
      (Idle(s', [], s.total), u)
    else (Idle(s, [], s.total), None)
  }

  function Reset<V>(m: Model<V>, s: Core<V>): Core<V> {
    Idle(s, [], s.total).(vad := m.initial)
  }

  // ------------------------------------------------------------ chunks

  // Push every whole frame of `pending`; what is left stays pending.
  function Drain<V>(p: Params, m: Model<V>, s: Core<V>, pending: seq<Sample>): (r: (Core<V>, seq<Sample>, seq<Utterance>))
    requires p.Cuts()
    ensures |r.1| < FRAME
    decreases |pending|
  {
    if |pending| < FRAME then (s, pending, [])
    else
      var (s1, us) := PushFrame(p, m, s, pending[..FRAME]);
      var (s2, rest, vs) := Drain(p, m, s1, pending[FRAME..]);
      (s2, rest, us + vs)
  }

  // Chunk independence: feeding a and then b gives the same utterances and
  // leaves the same state as feeding a + b.
  lemma {:induction false} ChunkIndependence<V>(p: Params, m: Model<V>, s: Core<V>, pending: seq<Sample>, a: seq<Sample>, b: seq<Sample>)
    requires p.Cuts()
    ensures var (s1, rest, us) := Drain(p, m, s, pending + a);
            var (s2, rest', vs) := Drain(p, m, s1, rest + b);
            Drain(p, m, s, pending + (a + b)) == (s2, rest', us + vs)
  {
    assert pending + (a + b) == (pending + a) + b;
    DrainSplit(p, m, s, pending + a, b);
  }

  lemma Assoc<T>(a: seq<T>, b: seq<T>, c: seq<T>)
    ensures a + (b + c) == (a + b) + c
  {
  }

  lemma {:induction false} DrainSplit<V>(p: Params, m: Model<V>, s: Core<V>, x: seq<Sample>, b: seq<Sample>)
    requires p.Cuts()
    ensures var (s1, rest, us) := Drain(p, m, s, x);
            var (s2, rest', vs) := Drain(p, m, s1, rest + b);
            Drain(p, m, s, x + b) == (s2, rest', us + vs)
    decreases |x|
  {
    if |x| >= FRAME {
      var (s0, ws) := PushFrame(p, m, s, x[..FRAME]);
      assert (x + b)[..FRAME] == x[..FRAME];
      assert (x + b)[FRAME..] == x[FRAME..] + b;
      DrainSplit(p, m, s0, x[FRAME..], b);
      var (s1, rest, us) := Drain(p, m, s0, x[FRAME..]);
      Assoc(ws, us, Drain(p, m, s1, rest + b).2);
    } else {
      var (s2, rest', vs) := Drain(p, m, s, x + b);
      assert [] + vs == vs;
    }
  }
}
