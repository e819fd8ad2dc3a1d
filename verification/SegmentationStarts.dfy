// When an utterance opens, said of the probabilities alone: which frame the
// current run of loud frames began with, and exactly when the run is enough.
module SegmentationStarts {
  import opened Wrappers
  import opened EnergyCut
  import opened Segmentation
  import opened SegmentationRuns

  // A run that began with frame f still lasts at frame g: no frame below
  // endProb, and not too long.
  ghost predicate Lasts(p: Params, probs: seq<real>, f: nat, g: nat) {
    && f <= g < |probs|
    && FRAME * (g + 1 - f) <= p.runMax
    && forall k :: f <= k <= g ==> probs[k] >= p.endProb
  }

  // A run begins with each frame >= startProb, after the boundary, at which no
  // run that began earlier still lasts.
  ghost predicate Begins(p: Params, probs: seq<real>, boundary: nat, g: nat)
    decreases g
  {
    && g < |probs| && boundary <= FRAME * g
    && probs[g] >= p.startProb
    && forall f: nat | f < g :: Begins(p, probs, boundary, f) ==> !Lasts(p, probs, f, g)
  }

  ghost predicate Current(p: Params, probs: seq<real>, boundary: nat, f: nat) {
    probs != [] && Begins(p, probs, boundary, f) && Lasts(p, probs, f, |probs| - 1)
  }

  // The loud frames of the current run add up to what an opening asks for.
  ghost predicate Evidence(p: Params, probs: seq<real>, boundary: nat, f: nat) {
    Current(p, probs, boundary, f) && FRAME * Hot(p, probs, f) >= p.startSamples
  }

  lemma {:induction false} BeginsStays(p: Params, probs: seq<real>, q: real, boundary: nat, g: nat)
    requires g < |probs|
    ensures Begins(p, probs + [q], boundary, g) <==> Begins(p, probs, boundary, g)
    decreases g
  {
    forall f: nat | f < g ensures Begins(p, probs + [q], boundary, f) <==> Begins(p, probs, boundary, f) {
      BeginsStays(p, probs, q, boundary, f);
    }
    forall f: nat | f < g ensures Lasts(p, probs + [q], f, g) <==> Lasts(p, probs, f, g) {
      LastsStays(p, probs, q, f, g);
    }
  }

  lemma LastsStays(p: Params, probs: seq<real>, q: real, f: nat, g: nat)
    requires g < |probs|
    ensures Lasts(p, probs + [q], f, g) <==> Lasts(p, probs, f, g)
  {
    if Lasts(p, probs + [q], f, g) {
      forall k | f <= k <= g ensures probs[k] >= p.endProb {
        assert (probs + [q])[k] >= p.endProb;
      }
    }
  }

  lemma OneCurrent(p: Params, probs: seq<real>, boundary: nat, f: nat, g: nat)
    requires Current(p, probs, boundary, f) && Current(p, probs, boundary, g)
    ensures f == g
  {
    LastsBetween(p, probs, f, g);
    LastsBetween(p, probs, g, f);
  }

  lemma LastsBetween(p: Params, probs: seq<real>, f: nat, g: nat)
    ensures probs != [] && Lasts(p, probs, f, |probs| - 1) && f <= g < |probs| ==> Lasts(p, probs, f, g)
  {
  }

  // ------------------------------------------------------------ the run mark

  // `run` is the first sample of the current run, or there is none.
  ghost predicate Marks(p: Params, probs: seq<real>, boundary: nat, run: Option<nat>) {
    forall f :: Current(p, probs, boundary, f) <==> run == Some(FRAME * f)
  }

  // What a frame does to the mark of an idle segmenter.
  function NextRun(p: Params, total: nat, run: Option<nat>, q: real): Option<nat> {
    var alive := if run.Some? && total + FRAME - run.value > p.runMax then None else run;
    if q >= p.startProb then Some(if alive.Some? then alive.value else total)
    else if q < p.endProb then None
    else alive
  }

  // An earlier run goes on unless the frame is quiet or makes it too long.
  lemma GoesOn(p: Params, probs: seq<real>, q: real, boundary: nat, f: nat)
    requires f < |probs|
    ensures Current(p, probs + [q], boundary, f) <==>
      Current(p, probs, boundary, f) && FRAME * (|probs| + 1 - f) <= p.runMax && q >= p.endProb
  {
    var n := |probs|;
    BeginsStays(p, probs, q, boundary, f);
    hide Begins;
    if Lasts(p, probs + [q], f, n) {
      assert (probs + [q])[n] == q;
      assert Lasts(p, probs + [q], f, n - 1);
    }
    LastsStays(p, probs, q, f, n - 1);
  }

  // Otherwise the frame begins one if it is loud.
  lemma BeginsNow(p: Params, probs: seq<real>, q: real, boundary: nat)
    requires p.Valid() && boundary <= FRAME * |probs|
    ensures Current(p, probs + [q], boundary, |probs|) <==>
      q >= p.startProb && forall f: nat :: f < |probs| ==> !Current(p, probs + [q], boundary, f)
  {
    var n, probs' := |probs|, probs + [q];
    assert probs'[n] == q && |probs'| - 1 == n;
    assert q >= p.startProb ==> Lasts(p, probs', n, n);
    hide Lasts;
    forall f: nat | f < n
      ensures Current(p, probs', boundary, f) <==> Begins(p, probs', boundary, f) && Lasts(p, probs', f, n)
    {
    }
    assert Begins(p, probs', boundary, n) <==>
      q >= p.startProb && forall f: nat | f < n :: !(Begins(p, probs', boundary, f) && Lasts(p, probs', f, n));
  }

  lemma MarkStep(p: Params, probs: seq<real>, q: real, boundary: nat, run: Option<nat>)
    requires p.Valid() && boundary <= FRAME * |probs| && Marks(p, probs, boundary, run)
    requires run.Some? ==> run.value % FRAME == 0 && run.value < FRAME * |probs|
    ensures Marks(p, probs + [q], boundary, NextRun(p, FRAME * |probs|, run, q))
  {
    var probs', n := probs + [q], |probs|;
    forall f: nat | f < n
      ensures Current(p, probs', boundary, f) <==>
        run == Some(FRAME * f) && FRAME * (n + 1 - f) <= p.runMax && q >= p.endProb
    {
      GoesOn(p, probs, q, boundary, f);
    }
    BeginsNow(p, probs, q, boundary);
    assert forall f: nat :: Current(p, probs', boundary, f) ==> f <= n;
    hide Current;
    if run.Some? {
      var f := run.value / FRAME;
      assert FRAME * f == run.value;
      assert FRAME * (n + 1 - f) <= p.runMax <==> FRAME * n + FRAME - run.value <= p.runMax;
    }
    var next := NextRun(p, FRAME * n, run, q);
    forall f: nat ensures Current(p, probs', boundary, f) <==> next == Some(FRAME * f) {
    }
  }

  ghost predicate RunMarked<V>(p: Params, s: Core<V>, h: History) {
    !s.inSpeech ==> Marks(p, h.probs, h.boundary, s.runStart)
  }

  // ------------------------------------------------------------ one frame

  // The mark and the speech of the run after an idle frame that opens nothing.
  lemma IdleMark<V>(p: Params, m: Model<V>, s: Core<V>, frame: seq<Sample>)
    requires !s.inSpeech && |frame| == FRAME
    ensures var t := Hear(m, s, frame); var s' := PushIdle(p, t, s.total);
      var next := NextRun(p, s.total, s.runStart, t.lastProb);
      && (t.lastProb >= p.startProb ==>
            && ExtendRun(p, t, s.total).runStart == next
            && (s'.inSpeech <==> ExtendRun(p, t, s.total).runSpeech >= p.startSamples))
      && (s'.inSpeech ==> t.lastProb >= p.startProb)
      && (!s'.inSpeech ==> s'.runStart == next)
  {
  }

  // An idle frame opens an utterance exactly when the current run is evidence
  // enough, and then at the start of that run.
  lemma OpensExactly<V>(p: Params, m: Model<V>, s: Core<V>, h: History, frame: seq<Sample>)
    requires p.Valid() && Inv(p, s, h) && RunMarked(p, s, h) && !s.inSpeech && |frame| == FRAME
    ensures var (s', us) := PushFrame(p, m, s, frame); var h' := Heard(h, s, frame, s', us);
      && (s'.inSpeech <==> exists f :: Evidence(p, h'.probs, h.boundary, f))
      && (s'.inSpeech ==> Evidence(p, h'.probs, h.boundary, s'.onset / FRAME))
      && RunMarked(p, s', h')
  {
    hide OpenedAt, Marks;
    var t := Hear(m, s, frame);
    var q := t.lastProb;
    IdleHistory(p, m, s, h, frame);
    IdleMark(p, m, s, frame);
    IdleAligned(p, s, h);
    MarkStep(p, h.probs, q, h.boundary, s.runStart);
    if q >= p.startProb {
      LoudOpens(p, m, s, h, frame);
    } else {
      QuietEvidence(p, s, h, q);
    }
  }

  lemma IdleAligned<V>(p: Params, s: Core<V>, h: History)
    requires p.Valid() && Inv(p, s, h) && !s.inSpeech
    ensures s.total == FRAME * |h.probs| && h.boundary <= s.total
    ensures s.runStart.Some? ==> s.runStart.value % FRAME == 0 && s.runStart.value < s.total
  {
  }

  lemma LoudOpens<V>(p: Params, m: Model<V>, s: Core<V>, h: History, frame: seq<Sample>)
    requires p.Valid() && Inv(p, s, h) && !s.inSpeech && |frame| == FRAME
    requires var t := Hear(m, s, frame);
      && t.lastProb >= p.startProb
      && Marks(p, h.probs + [t.lastProb], h.boundary, NextRun(p, s.total, s.runStart, t.lastProb))
    ensures var t := Hear(m, s, frame); var s' := PushIdle(p, t, s.total); var probs' := h.probs + [t.lastProb];
      && (s'.inSpeech <==> exists f :: Evidence(p, probs', h.boundary, f))
      && (s'.inSpeech ==> Evidence(p, probs', h.boundary, s'.onset / FRAME))
  {
    var t := Hear(m, s, frame);
    var h1 := HeardOnly(h, t, frame);
    var t1 := ExtendRun(p, t, s.total);
    var r := t1.runStart.value;
    IdleMark(p, m, s, frame);
    RunReady(p, m, s, h, frame);
    assert r % FRAME == 0 by {
      assert LiveRun(p, h1.probs, r);
    }
    var f := r / FRAME;
    assert r == FRAME * f;
    assert Current(p, h1.probs, h.boundary, f);
    assert Evidence(p, h1.probs, h.boundary, f) <==> t1.runSpeech >= p.startSamples;
    hide Current, Inv, Hot, LiveRun, Buffered, PiecesOk;
    forall g | Evidence(p, h1.probs, h.boundary, g) ensures g == f {
      OneCurrent(p, h1.probs, h.boundary, f, g);
    }
    if t1.runSpeech >= p.startSamples {
      OpenKeeps(p, t1, h1, r);
    }
  }

  lemma QuietEvidence<V>(p: Params, s: Core<V>, h: History, q: real)
    requires p.Valid() && Inv(p, s, h) && !s.inSpeech && q < p.startProb
    requires Marks(p, h.probs + [q], h.boundary, NextRun(p, s.total, s.runStart, q))
    ensures forall f :: !Evidence(p, h.probs + [q], h.boundary, f)
  {
    forall f: nat ensures !Evidence(p, h.probs + [q], h.boundary, f) {
      if Current(p, h.probs + [q], h.boundary, f) {
        assert s.runStart == Some(FRAME * f);
        assert (FRAME * f) / FRAME == f;
        HotStep(p, h.probs, q, f);
      }
    }
  }

  // ------------------------------------------------------------ in speech

  // From the end of an utterance on every frame heard is below startProb.
  lemma QuietMarks(p: Params, probs: seq<real>, boundary: nat, silence: nat)
    requires p.Valid() && silence % FRAME == 0 && SilentFrom(p, probs, silence / FRAME) && silence <= boundary
    ensures Marks(p, probs, boundary, None)
  {
    forall f: nat ensures !Current(p, probs, boundary, f) {
      if boundary <= FRAME * f && f < |probs| {
        assert silence / FRAME <= f;
        assert probs[f] < p.startProb;
      }
    }
  }

  lemma EndBoundary<V>(p: Params, t: Core<V>, h: History)
    requires p.Valid() && Listening(p, t, h) && |t.buf| < p.maxSamples + FRAME
    requires t.silenceStart.Some? && t.total - t.silenceStart.value >= p.endSamples
    ensures var x := t.silenceStart.value; var t' := Finish(p, t, x + p.post).0;
      && x % FRAME == 0 && SilentFrom(p, h.probs, x / FRAME)
      && x <= t'.bufStart && t'.runStart.None?
  {
    BufferEnds(p, t, h);
    assert SilenceNoted(p, h.probs, t.silenceStart);
    hide Listening, Buffered, PiecesOk, SilentFrom;
    assert t.silenceStart.value <= t.bufStart + |t.buf|;
  }

  lemma EndsQuietly<V>(p: Params, m: Model<V>, s: Core<V>, h: History, frame: seq<Sample>)
    requires p.Valid() && Inv(p, s, h) && s.inSpeech && |frame| == FRAME
    ensures var (s', us) := PushFrame(p, m, s, frame); RunMarked(p, s', Heard(h, s, frame, s', us))
  {
    hide Inv, Noted, PushFrame, Finish, Heard, Marks, Listening, Buffered, PiecesOk, LongSilence;
    var t := Noted(p, m, s, frame);
    var h1 := HeardOnly(h, t, frame);
    SpeechHears(p, m, s, h, frame);
    if t.silenceStart.Some? && t.total - t.silenceStart.value >= p.endSamples {
      EndHistory(p, m, s, h, frame);
      EndBoundary(p, t, h1);
      QuietMarks(p, h1.probs, Finish(p, t, t.silenceStart.value + p.post).0.bufStart, t.silenceStart.value);
    } else {
      SpeechGoesOn(p, m, s, h, frame);
    }
  }

  lemma NothingYet(p: Params, probs: seq<real>, boundary: nat)
    requires boundary >= FRAME * |probs|
    ensures Marks(p, probs, boundary, None)
  {
  }
}
