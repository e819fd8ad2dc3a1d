// Every piece of speech of every run, said of the probabilities alone: where it
// starts and ends, from where to where its speech is counted, and whether it is
// returned.
module SegmentationSpeech {
  import opened Wrappers
  import opened EnergyCut
  import opened Segmentation
  import opened SegmentationRuns
  import opened SegmentationStarts

  // ------------------------------------------------------------ openings

  // The first evidence since the boundary comes with the n-th frame, for the
  // run that began with frame f.
  ghost predicate OpensAt(p: Params, probs: seq<real>, boundary: nat, n: nat, f: nat) {
    && n <= |probs| && Evidence(p, probs[..n], boundary, f)
    && forall k: nat, g: nat :: k < n ==> !Evidence(p, probs[..k], boundary, g)
  }

  ghost predicate Quiet(p: Params, probs: seq<real>, boundary: nat) {
    forall k: nat, g: nat :: k <= |probs| ==> !Evidence(p, probs[..k], boundary, g)
  }

  lemma OpensOnce(p: Params, probs: seq<real>, boundary: nat, n: nat, f: nat, k: nat, g: nat)
    requires OpensAt(p, probs, boundary, n, f) && OpensAt(p, probs, boundary, k, g)
    ensures n == k && f == g
  {
    assert n == k;
    OneCurrent(p, probs[..n], boundary, f, g);
  }

  lemma OpensStays(p: Params, probs: seq<real>, more: seq<real>, boundary: nat, n: nat, f: nat)
    requires OpensAt(p, probs, boundary, n, f)
    ensures OpensAt(p, probs + more, boundary, n, f)
  {
    assert forall k :: 0 <= k <= |probs| ==> (probs + more)[..k] == probs[..k];
  }

  lemma QuietOrOpens(p: Params, probs: seq<real>, q: real, boundary: nat, f: nat)
    requires Quiet(p, probs, boundary)
    ensures Evidence(p, probs + [q], boundary, f) ==> OpensAt(p, probs + [q], boundary, |probs| + 1, f)
    ensures (forall g: nat :: !Evidence(p, probs + [q], boundary, g)) ==> Quiet(p, probs + [q], boundary)
  {
    var all := probs + [q];
    assert forall k :: 0 <= k <= |probs| ==> all[..k] == probs[..k];
    assert all[..|all|] == all;
  }

  // Nothing opens after a boundary with no loud frame since.
  lemma QuietSince(p: Params, probs: seq<real>, boundary: nat)
    requires forall g: nat :: g < |probs| && boundary <= FRAME * g ==> probs[g] < p.startProb
    ensures Quiet(p, probs, boundary)
  {
    forall k: nat, g: nat | k <= |probs| ensures !Evidence(p, probs[..k], boundary, g) {
      if g < k && boundary <= FRAME * g {
        assert probs[..k][g] == probs[g];
      }
    }
  }

  // ------------------------------------------------------------ the account of a piece

  // Where the piece before was cut, if it was.
  function Prior(ps: seq<Piece>, k: nat): Option<nat>
    requires k <= |ps|
  {
    if k > 0 && ps[k - 1].cut then Some(ps[k - 1].end) else None
  }

  // Speech is counted from the end of the cut before, else from the start of the
  // run that opened it.
  ghost predicate CountsFrom(p: Params, probs: seq<real>, boundary: nat, prior: Option<nat>, from: nat) {
    if prior.Some? then from == prior.value
    else exists n: nat, f: nat :: OpensAt(p, probs, boundary, n, f) && from == FRAME * f
  }

  // Its audio starts there too, or with the pre-roll, after the boundary.
  function StartOf(p: Params, boundary: nat, prior: Option<nat>, from: nat): nat {
    if prior.Some? then prior.value else Max(boundary, from - p.pre)
  }

  // The first frame below endProb since the last frame >= startProb.
  ghost function SilentSince(p: Params, probs: seq<real>): Option<nat> {
    if exists f :: SilentFrom(p, probs, f) then
      var f :| SilentFrom(p, probs, f);
      Some(FRAME * f)
    else None
  }

  // A cut is made as soon as there is too much audio, at the quietest place of
  // what is allowed.
  ghost predicate CutRight(p: Params, stream: seq<Sample>, q: Piece, from: nat) {
    var latest := q.start + p.maxSamples;
    && q.out.Some?
    && latest <= |stream| && latest <= FRAME * q.mark.heard < latest + FRAME
    && q.end == q.start + LowestEnergyCut(stream[q.start..latest], p.cutSearch, CUT_WINDOW, CUT_HOP)
    && q.out.value.speechMs == Millis(Max(0, q.end - from))
  }

  // Speech ends with the silence, the audio with the post-roll; without silence
  // both end with what was heard.  It is returned exactly if there is enough.
  ghost predicate EndRight(p: Params, probs: seq<real>, q: Piece, from: nat) {
    var heard := FRAME * |probs|;
    var silent := SilentSince(p, probs);
    var until := if silent.Some? then silent.value else q.end;
    && q.end == Max(q.start, if silent.Some? then Min(heard, silent.value + p.post) else heard)
    && (q.out.Some? <==> until - from >= p.minSpeech)
    && (q.out.Some? ==> q.out.value.speechMs == Millis(Max(0, until - from)))
  }

  ghost predicate Accounted(p: Params, stream: seq<Sample>, probs: seq<real>, q: Piece, prior: Option<nat>, from: nat) {
    && q.start == StartOf(p, q.mark.boundary, prior, from)
    && if q.mark.reset then !q.cut && q.out.None? && q.end == FRAME * |probs|
       else if q.cut then CutRight(p, stream, q, from)
       else EndRight(p, probs, q, from)
  }

  ghost predicate PieceRight(p: Params, stream: seq<Sample>, probs: seq<real>, ps: seq<Piece>, k: nat)
    requires k < |ps|
  {
    var q := ps[k];
    && q.mark.heard <= |probs|
    && exists from :: CountsFrom(p, probs[..q.mark.heard], q.mark.boundary, Prior(ps, k), from)
         && Accounted(p, stream, probs[..q.mark.heard], q, Prior(ps, k), from)
  }

  // Where speech is counted from is determined.
  lemma FromUnique(p: Params, probs: seq<real>, boundary: nat, prior: Option<nat>, from: nat, other: nat)
    requires CountsFrom(p, probs, boundary, prior, from) && CountsFrom(p, probs, boundary, prior, other)
    ensures from == other
  {
    if prior.None? {
      var n: nat, f: nat :| OpensAt(p, probs, boundary, n, f) && from == FRAME * f;
      var k: nat, g: nat :| OpensAt(p, probs, boundary, k, g) && other == FRAME * g;
      OpensOnce(p, probs, boundary, n, f, k, g);
    }
  }

  lemma FromStays(p: Params, probs: seq<real>, more: seq<real>, boundary: nat, prior: Option<nat>, from: nat)
    requires CountsFrom(p, probs, boundary, prior, from)
    ensures CountsFrom(p, probs + more, boundary, prior, from)
  {
    if prior.None? {
      var n: nat, f: nat :| OpensAt(p, probs, boundary, n, f) && from == FRAME * f;
      OpensStays(p, probs, more, boundary, n, f);
    }
  }

  // What was closed stays as it is.
  lemma PieceStays(p: Params, stream: seq<Sample>, audio: seq<Sample>, probs: seq<real>, more: seq<real>, ps: seq<Piece>, next: seq<Piece>, k: nat)
    requires k < |ps| && PieceRight(p, stream, probs, ps, k)
    ensures PieceRight(p, stream + audio, probs + more, ps + next, k)
  {
    hide Accounted, CountsFrom;
    var q := ps[k];
    var heard := probs[..q.mark.heard];
    assert (probs + more)[..q.mark.heard] == heard;
    assert Prior(ps + next, k) == Prior(ps, k);
    var from :| CountsFrom(p, heard, q.mark.boundary, Prior(ps, k), from) && Accounted(p, stream, heard, q, Prior(ps, k), from);
    AccountStays(p, stream, audio, heard, q, Prior(ps, k), from);
    assert CountsFrom(p, heard, q.mark.boundary, Prior(ps + next, k), from)
      && Accounted(p, stream + audio, heard, q, Prior(ps + next, k), from);
  }

  lemma AccountStays(p: Params, stream: seq<Sample>, audio: seq<Sample>, probs: seq<real>, q: Piece, prior: Option<nat>, from: nat)
    requires Accounted(p, stream, probs, q, prior, from)
    ensures Accounted(p, stream + audio, probs, q, prior, from)
  {
    hide EndRight, StartOf, LowestEnergyCut;
    if !q.mark.reset && q.cut {
      assert (stream + audio)[q.start..q.start + p.maxSamples] == stream[q.start..q.start + p.maxSamples];
    }
  }

  // ------------------------------------------------------------ the invariant

  function Short(ps: seq<Piece>): nat {
    if ps == [] then 0
    else
      var q := ps[|ps| - 1];
      Short(ps[..|ps| - 1]) + if q.out.None? && !q.mark.reset then 1 else 0
  }

  ghost predicate AllRight(p: Params, h: History) {
    forall k :: 0 <= k < |h.pieces| ==> PieceRight(p, h.stream, h.probs, h.pieces, k)
  }

  ghost predicate Opened(p: Params, probs: seq<real>, boundary: nat) {
    exists n: nat, f: nat :: OpensAt(p, probs, boundary, n, f)
  }

  // Speech that is open is counted from where it should be.
  ghost predicate OpenRight<V>(p: Params, s: Core<V>, h: History) {
    var prior := Prior(h.pieces, |h.pieces|);
    && Opened(p, h.probs, h.boundary)
    && CountsFrom(p, h.probs, h.boundary, prior, s.onset)
    && s.bufStart == StartOf(p, h.boundary, prior, s.onset)
  }

  ghost predicate SpokenInv<V>(p: Params, s: Core<V>, h: History) {
    && RunMarked(p, s, h)
    && AllRight(p, h)
    && s.shortDiscarded == Short(h.pieces)
    && if s.inSpeech then OpenRight(p, s, h) else Quiet(p, h.probs, h.boundary)
  }

  lemma AllStay(p: Params, h: History, audio: seq<Sample>, more: seq<real>, next: seq<Piece>)
    requires AllRight(p, h)
    ensures forall k :: 0 <= k < |h.pieces| ==> PieceRight(p, h.stream + audio, h.probs + more, h.pieces + next, k)
  {
    forall k | 0 <= k < |h.pieces| ensures PieceRight(p, h.stream + audio, h.probs + more, h.pieces + next, k) {
      PieceStays(p, h.stream, audio, h.probs, more, h.pieces, next, k);
    }
  }

  // One more piece, closed now.
  lemma OneMoreRight(p: Params, stream: seq<Sample>, probs: seq<real>, ps: seq<Piece>, q: Piece, from: nat)
    requires forall k :: 0 <= k < |ps| ==> PieceRight(p, stream, probs, ps + [q], k)
    requires q.mark.heard == |probs|
    requires CountsFrom(p, probs, q.mark.boundary, Prior(ps, |ps|), from)
    requires Accounted(p, stream, probs, q, Prior(ps, |ps|), from)
    ensures forall k :: 0 <= k < |ps + [q]| ==> PieceRight(p, stream, probs, ps + [q], k)
    ensures Short(ps + [q]) == Short(ps) + if q.out.None? && !q.mark.reset then 1 else 0
  {
    assert probs[..|probs|] == probs;
    assert Prior(ps + [q], |ps|) == Prior(ps, |ps|);
    assert (ps + [q])[..|ps|] == ps;
    hide CountsFrom, Accounted;
    assert PieceRight(p, stream, probs, ps + [q], |ps|);
  }

  // ------------------------------------------------------------ idle

  lemma IdleHears<V>(p: Params, m: Model<V>, s: Core<V>, h: History, frame: seq<Sample>)
    requires p.Valid() && Inv(p, s, h) && !s.inSpeech
    ensures var (s', us) := PushFrame(p, m, s, frame); var h' := Heard(h, s, frame, s', us);
      && h'.probs == h.probs + [s'.lastProb] && h'.stream == h.stream + frame
      && h'.pieces == h.pieces + [] && h'.boundary == h.boundary
      && s'.shortDiscarded == s.shortDiscarded
    ensures Prior(h.pieces, |h.pieces|) == None
  {
    IdleHistory(p, m, s, h, frame);
    hide ExpireRun;
  }

  lemma OpenedThere<V>(p: Params, s: Core<V>, h: History, s': Core<V>, probs: seq<real>)
    requires OpenedAt(p, s, h, s', probs)
    ensures s'.bufStart == StartOf(p, h.boundary, None, s'.onset)
    ensures s'.onset == FRAME * (s'.onset / FRAME)
  {
  }

  lemma IdleSpoken<V>(p: Params, m: Model<V>, s: Core<V>, h: History, frame: seq<Sample>)
    requires p.Valid() && Inv(p, s, h) && SpokenInv(p, s, h) && !s.inSpeech && |frame| == FRAME
    ensures var (s', us) := PushFrame(p, m, s, frame); SpokenInv(p, s', Heard(h, s, frame, s', us))
  {
    hide Inv, PushFrame, Heard, RunMarked, PieceRight, Quiet, OpenedAt, Evidence;
    var (s', us) := PushFrame(p, m, s, frame);
    var h' := Heard(h, s, frame, s', us);
    IdleFrame(p, m, s, h, frame);
    IdleHears(p, m, s, h, frame);
    OpensExactly(p, m, s, h, frame);
    QuietOrOpens(p, h.probs, s'.lastProb, h.boundary, s'.onset / FRAME);
    AllStay(p, h, frame, [s'.lastProb], []);
    assert h'.pieces == h.pieces;
    if s'.inSpeech {
      OpenedThere(p, s, h, s', h'.probs);
      assert OpensAt(p, h'.probs, h.boundary, |h.probs| + 1, s'.onset / FRAME);
    }
  }

  // ------------------------------------------------------------ in speech

  lemma SilentIs(p: Params, probs: seq<real>, silence: Option<nat>)
    requires p.Valid() && SilenceNoted(p, probs, silence)
    ensures SilentSince(p, probs) == silence
  {
    match silence
    case None =>
      var j: nat :| Steady(p, probs, j, |probs|);
      forall f: nat | f < j ensures !SilentFrom(p, probs, f) {
        assert probs[j] >= p.startProb;
      }
    case Some(x) =>
      forall f | SilentFrom(p, probs, f) ensures f == x / FRAME {
        SilenceUnique(p, probs, f, x / FRAME);
      }
  }

  // What finishing answers, from where speech is counted to where it ends.
  lemma FinishCounts<V>(p: Params, t: Core<V>, end: nat)
    ensures var (t', u) := Finish(p, t, end);
      var until := if t.silenceStart.Some? then t.silenceStart.value else t'.bufStart;
      && t'.bufStart == Max(t.bufStart, Min(end, t.bufStart + |t.buf|))
      && (u.Some? <==> until - t.onset >= p.minSpeech)
      && (u.Some? ==> u.value.speechMs == Millis(Max(0, until - t.onset)))
      && t'.shortDiscarded == t.shortDiscarded + (if u.None? then 1 else 0)
      && !t'.inSpeech && t'.total == t.total
  {
  }

  // The piece that finishing at `end` closes.
  lemma EndsRight<V>(p: Params, t: Core<V>, h: History, end: nat)
    requires p.Valid() && Listening(p, t, h)
    requires end == if t.silenceStart.Some? then Min(t.total, t.silenceStart.value + p.post) else t.total
    requires OpenRight(p, t, h)
    ensures var (t', u) := Finish(p, t, end);
      Accounted(p, h.stream, h.probs, Piece(t.bufStart, t'.bufStart, false, u, Here(h)), Prior(h.pieces, |h.pieces|), t.onset)
  {
    FinishCounts(p, t, end);
    BufferEnds(p, t, h);
    assert t.total == FRAME * |h.probs| && SilenceNoted(p, h.probs, t.silenceStart);
    SilentIs(p, h.probs, t.silenceStart);
    hide Listening, Finish, SilentSince, Opened, CountsFrom, SilenceNoted;
  }

  lemma EndedRight<V>(p: Params, t: Core<V>, h: History, end: nat)
    requires p.Valid() && Listening(p, t, h)
    requires end == if t.silenceStart.Some? then Min(t.total, t.silenceStart.value + p.post) else t.total
    requires OpenRight(p, t, h) && AllRight(p, h) && t.shortDiscarded == Short(h.pieces)
    ensures var (t', u) := Finish(p, t, end); var h' := Ended(h, t, t', u);
      AllRight(p, h') && t'.shortDiscarded == Short(h'.pieces)
  {
    hide Listening, Accounted, PieceRight, CountsFrom, Opened, Finish;
    var (t', u) := Finish(p, t, end);
    var q := Piece(t.bufStart, t'.bufStart, false, u, Here(h));
    EndsRight(p, t, h, end);
    FinishCounts(p, t, end);
    AllStay(p, h, [], [], [q]);
    assert h.stream + [] == h.stream && h.probs + [] == h.probs;
    OneMoreRight(p, h.stream, h.probs, h.pieces, q, t.onset);
  }

  // A frame heard in speech changes nothing of that.
  lemma SpeechStays<V>(p: Params, m: Model<V>, s: Core<V>, h: History, frame: seq<Sample>)
    requires p.Valid() && AllRight(p, h) && OpenRight(p, s, h)
    ensures var t := Noted(p, m, s, frame); var h1 := HeardOnly(h, t, frame);
      && AllRight(p, h1) && OpenRight(p, t, h1) && t.shortDiscarded == s.shortDiscarded && h1.pieces == h.pieces
  {
    hide PieceRight, CountsFrom, OpensAt;
    var t := Noted(p, m, s, frame);
    AllStay(p, h, frame, [t.lastProb], []);
    assert h.pieces + [] == h.pieces;
    FromStays(p, h.probs, [t.lastProb], h.boundary, Prior(h.pieces, |h.pieces|), s.onset);
    var n: nat, f: nat :| OpensAt(p, h.probs, h.boundary, n, f);
    OpensStays(p, h.probs, [t.lastProb], h.boundary, n, f);
  }

  lemma EndsSpoken<V>(p: Params, m: Model<V>, s: Core<V>, h: History, frame: seq<Sample>)
    requires p.Valid() && Inv(p, s, h) && SpokenInv(p, s, h) && s.inSpeech && |frame| == FRAME
    requires var t := Noted(p, m, s, frame);
      t.silenceStart.Some? && t.total - t.silenceStart.value >= p.endSamples
    ensures var (s', us) := PushFrame(p, m, s, frame); SpokenInv(p, s', Heard(h, s, frame, s', us))
  {
    hide Inv, Noted, PushFrame, Finish, Heard, Listening, LongSilence, RunMarked, AllRight, OpenRight, Quiet;
    var t := Noted(p, m, s, frame);
    var h1 := HeardOnly(h, t, frame);
    var end := t.silenceStart.value + p.post;
    SpeechHears(p, m, s, h, frame);
    SpeechStays(p, m, s, h, frame);
    EndsQuietly(p, m, s, h, frame);
    EndHistory(p, m, s, h, frame);
    EndBoundary(p, t, h1);
    EndedRight(p, t, h1, end);
    FinishCounts(p, t, end);
    SilentQuiet(p, h1.probs, Finish(p, t, end).0.bufStart, t.silenceStart.value);
  }

  lemma SilentQuiet(p: Params, probs: seq<real>, boundary: nat, silence: nat)
    requires p.Valid() && silence % FRAME == 0 && SilentFrom(p, probs, silence / FRAME) && silence <= boundary
    ensures Quiet(p, probs, boundary)
  {
    forall g: nat | g < |probs| && boundary <= FRAME * g ensures probs[g] < p.startProb {
      assert silence / FRAME <= g;
    }
    QuietSince(p, probs, boundary);
  }

  // ------------------------------------------------------------ cuts

  ghost predicate OneCut(p: Params, stream: seq<Sample>, u: Utterance, start: nat, from: nat) {
    && u.cut && u.start == start && start + p.maxSamples <= |stream|
    && u.end == start + LowestEnergyCut(stream[start..start + p.maxSamples], p.cutSearch, CUT_WINDOW, CUT_HOP)
    && u.speechMs == Millis(Max(0, u.end - from))
  }

  // The pieces that cutting makes, one after the other.
  ghost predicate CutsRight(p: Params, stream: seq<Sample>, start: nat, from: nat, us: seq<Utterance>) {
    forall k :: 0 <= k < |us| ==>
      start <= us[k].start && OneCut(p, stream, us[k], EndBefore(us, k, start), EndBefore(us, k, from))
  }

  function EndBefore(us: seq<Utterance>, k: nat, first: nat): nat
    requires k <= |us|
  {
    if k == 0 then first else us[k - 1].end
  }

  lemma CutCounts<V>(p: Params, t: Core<V>, stream: seq<Sample>)
    requires p.Valid() && p.maxSamples <= |t.buf|
    requires t.bufStart + |t.buf| == |stream| && t.buf == stream[t.bufStart..]
    ensures var (t', u) := Cut(p, t);
      && OneCut(p, stream, u, t.bufStart, t.onset)
      && t'.onset == t'.bufStart == u.end > t.bufStart
      && t'.shortDiscarded == t.shortDiscarded
      && t'.bufStart + |t'.buf| == |stream| && t'.buf == stream[t'.bufStart..]
  {
    hide LowestEnergyCut;
    var zone := t.buf[..p.maxSamples];
    CutPosition(zone, p.cutSearch, CUT_WINDOW, CUT_HOP);
    assert zone == stream[t.bufStart..t.bufStart + p.maxSamples];
    var (t', u) := Cut(p, t);
    TailOf(stream, t.bufStart, t.buf, LowestEnergyCut(zone, p.cutSearch, CUT_WINDOW, CUT_HOP));
  }

  lemma TailOf(stream: seq<Sample>, start: nat, buf: seq<Sample>, k: nat)
    requires start + |buf| == |stream| && buf == stream[start..] && k <= |buf|
    ensures DropFront(buf, k) == stream[start + k..]
  {
  }

  lemma {:induction false} CutAllCounts<V>(p: Params, t: Core<V>, stream: seq<Sample>)
    requires p.Valid()
    requires t.bufStart + |t.buf| == |stream| && t.buf == stream[t.bufStart..]
    ensures var (t', us) := CutAll(p, t);
      && CutsRight(p, stream, t.bufStart, t.onset, us)
      && t'.shortDiscarded == t.shortDiscarded
      && (if us == [] then t'.onset == t.onset && t'.bufStart == t.bufStart
          else t'.onset == t'.bufStart == us[|us| - 1].end)
    decreases |t.buf|
  {
    if p.maxSamples <= |t.buf| {
      CutCounts(p, t, stream);
      var (t1, u) := Cut(p, t);
      CutAllCounts(p, t1, stream);
      MoreCuts(p, stream, t.bufStart, t.onset, u, CutAll(p, t1).1);
      hide Cut, OneCut, CutsRight;
    }
  }

  lemma MoreCuts(p: Params, stream: seq<Sample>, start: nat, from: nat, u: Utterance, us: seq<Utterance>)
    requires OneCut(p, stream, u, start, from) && start <= u.end
    requires CutsRight(p, stream, u.end, u.end, us)
    ensures CutsRight(p, stream, start, from, [u] + us)
  {
    hide OneCut;
    var all := [u] + us;
    assert u.start == start by { hide *; OneCutStart(p, stream, u, start, from); }
    forall k | 0 <= k < |all|
      ensures start <= all[k].start && OneCut(p, stream, all[k], EndBefore(all, k, start), EndBefore(all, k, from))
    {
      if k > 0 {
        assert all[k] == us[k - 1];
        assert EndBefore(all, k, start) == EndBefore(all, k, from) == EndBefore(us, k - 1, u.end);
      }
    }
  }

  lemma OneCutStart(p: Params, stream: seq<Sample>, u: Utterance, start: nat, from: nat)
    requires OneCut(p, stream, u, start, from)
    ensures u.start == start && u.cut
  {
  }

  lemma CutIsAccounted(p: Params, stream: seq<Sample>, probs: seq<real>, u: Utterance, mark: Mark, prior: Option<nat>, start: nat, from: nat)
    requires OneCut(p, stream, u, start, from)
    requires |stream| == FRAME * |probs| == FRAME * mark.heard < start + p.maxSamples + FRAME
    requires !mark.reset && start == StartOf(p, mark.boundary, prior, from)
    ensures Accounted(p, stream, probs, Piece(u.start, u.end, u.cut, Some(u), mark), prior, from)
  {
    hide StartOf, EndRight, LowestEnergyCut, Millis;
  }

  // Each of them is accounted for.
  lemma {:induction false} CutsAccounted<V>(p: Params, t: Core<V>, h: History, us: seq<Utterance>)
    requires p.Valid() && CutsRight(p, h.stream, t.bufStart, t.onset, us)
    requires AllRight(p, h) && OpenRight(p, t, h)
    requires |h.stream| == FRAME * |h.probs| < t.bufStart + p.maxSamples + FRAME
    ensures var h' := CutHistory(h, us);
      && AllRight(p, h') && Short(h'.pieces) == Short(h.pieces)
      && Prior(h'.pieces, |h'.pieces|) == if us == [] then Prior(h.pieces, |h.pieces|) else Some(us[|us| - 1].end)
  {
    hide OneCut, Prior, PieceRight, Opened, OpensAt, Accounted;
    var h' := CutHistory(h, us);
    if us == [] {
      assert h'.pieces == h.pieces;
    } else {
      var front, last := us[..|us| - 1], us[|us| - 1];
      FrontRight(p, h.stream, t.bufStart, t.onset, us);
      hide CutsRight;
      CutsAccounted(p, t, h, front);
      var ps := CutHistory(h, front).pieces;
      var q := Piece(last.start, last.end, last.cut, Some(last), Here(h));
      PiecesSnoc(us, Here(h));
      assert h'.pieces == ps + [q];
      var start, from := EndBefore(front, |front|, t.bufStart), EndBefore(front, |front|, t.onset);
      OneCutStart(p, h.stream, last, start, from);
      CutIsAccounted(p, h.stream, h.probs, last, Here(h), Prior(ps, |ps|), start, from);
      assert CountsFrom(p, h.probs, h.boundary, Prior(ps, |ps|), from);
      hide CountsFrom;
      AllStay(p, CutHistory(h, front), [], [], [q]);
      assert h.stream + [] == h.stream && h.probs + [] == h.probs;
      OneMoreRight(p, h.stream, h.probs, ps, q, from);
      LastPrior(ps, q);
    }
  }

  lemma FrontRight(p: Params, stream: seq<Sample>, start: nat, from: nat, us: seq<Utterance>)
    requires us != [] && CutsRight(p, stream, start, from, us)
    ensures var front, last := us[..|us| - 1], us[|us| - 1];
      && CutsRight(p, stream, start, from, front) && start <= last.start
      && OneCut(p, stream, last, EndBefore(front, |front|, start), EndBefore(front, |front|, from))
  {
    hide OneCut;
    var front := us[..|us| - 1];
    forall k | 0 <= k < |us|
      ensures EndBefore(us, k, start) == EndBefore(front, k, start) && EndBefore(us, k, from) == EndBefore(front, k, from)
    {
    }
    assert forall k :: 0 <= k < |front| ==> front[k] == us[k];
  }

  lemma LastPrior(ps: seq<Piece>, q: Piece)
    ensures Prior(ps + [q], |ps + [q]|) == if q.cut then Some(q.end) else None
  {
  }

  lemma GoesOnSpoken<V>(p: Params, m: Model<V>, s: Core<V>, h: History, frame: seq<Sample>)
    requires p.Valid() && Inv(p, s, h) && SpokenInv(p, s, h) && s.inSpeech && |frame| == FRAME
    requires var t := Noted(p, m, s, frame);
      !(t.silenceStart.Some? && t.total - t.silenceStart.value >= p.endSamples)
    ensures var (s', us) := PushFrame(p, m, s, frame); SpokenInv(p, s', Heard(h, s, frame, s', us))
  {
    hide Inv, Noted, PushFrame, CutAll, Heard, Listening, LongSilence, AllRight, OpenRight, Quiet, CutHistory, CutsRight;
    var t := Noted(p, m, s, frame);
    var h1 := HeardOnly(h, t, frame);
    var (t', us) := CutAll(p, t);
    SpeechHears(p, m, s, h, frame);
    SpeechStays(p, m, s, h, frame);
    GoesOnHistory(p, m, s, h, frame);
    Tail(p, t, h1);
    CutAllCounts(p, t, h1.stream);
    CutsAccounted(p, t, h1, us);
    StillOpen(p, t, h1, t', us);
  }

  lemma Tail<V>(p: Params, t: Core<V>, h: History)
    requires Listening(p, t, h)
    ensures t.bufStart + |t.buf| == |h.stream| == FRAME * |h.probs| && t.buf == h.stream[t.bufStart..]
  {
  }

  lemma StillOpen<V>(p: Params, t: Core<V>, h: History, t': Core<V>, us: seq<Utterance>)
    requires OpenRight(p, t, h)
    requires if us == [] then t'.onset == t.onset && t'.bufStart == t.bufStart
             else t'.onset == t'.bufStart == us[|us| - 1].end
    requires var h' := CutHistory(h, us);
      Prior(h'.pieces, |h'.pieces|) == if us == [] then Prior(h.pieces, |h.pieces|) else Some(us[|us| - 1].end)
    ensures OpenRight(p, t', CutHistory(h, us))
  {
    hide Opened, Prior;
  }

  // ------------------------------------------------------------ flush and reset

  lemma NothingOpens(p: Params, probs: seq<real>, boundary: nat)
    requires boundary >= FRAME * |probs|
    ensures Quiet(p, probs, boundary) && Marks(p, probs, boundary, None)
  {
    NothingYet(p, probs, boundary);
    QuietSince(p, probs, boundary);
  }

  lemma FlushSpoken<V>(p: Params, s: Core<V>, h: History)
    requires p.Valid() && Inv(p, s, h) && SpokenInv(p, s, h)
    ensures var (s', u) := Flush(p, s); SpokenInv(p, s', Stopped(h, s, FlushEnd(p, s), u, false))
  {
    hide Inv, Listening, AllRight, OpenRight, Quiet, Marks, Finish;
    FlushTotal(p, s, h);
    NothingOpens(p, h.probs, s.total);
    var (s', u) := Flush(p, s);
    if s.inSpeech {
      FlushListens(p, s, h);
      var end := if s.silenceStart.Some? then Min(s.total, s.silenceStart.value + p.post) else s.total;
      EndedRight(p, s, h, end);
      FlushFinish(p, s, h);
      FinishCounts(p, s, end);
      SameRight(p, Ended(h, s, Finish(p, s, end).0, u), s.total);
    } else {
      assert h.pieces + [] == h.pieces;
      SameRight(p, h, s.total);
    }
  }

  lemma FlushTotal<V>(p: Params, s: Core<V>, h: History)
    requires Inv(p, s, h)
    ensures s.total == FRAME * |h.probs|
  {
  }

  lemma FlushListens<V>(p: Params, s: Core<V>, h: History)
    requires p.Valid() && Inv(p, s, h) && s.inSpeech
    ensures Listening(p, s, h)
  {
  }

  lemma SameRight(p: Params, h: History, boundary: nat)
    requires AllRight(p, h)
    ensures AllRight(p, h.(boundary := boundary))
  {
  }

  lemma ResetSpoken<V>(p: Params, m: Model<V>, s: Core<V>, h: History)
    requires p.Valid() && Inv(p, s, h) && SpokenInv(p, s, h)
    ensures SpokenInv(p, Reset(m, s), Stopped(h, s, s.total, None, true))
  {
    assert s.total == FRAME * |h.probs|;
    NothingOpens(p, h.probs, s.total);
    hide Inv, PieceRight, Quiet, Marks, Opened, CountsFrom;
    if s.inSpeech {
      var q := Piece(s.bufStart, s.total, false, None, Here(h).(reset := true));
      AllStay(p, h, [], [], [q]);
      assert h.stream + [] == h.stream && h.probs + [] == h.probs;
      OneMoreRight(p, h.stream, h.probs, h.pieces, q, s.onset);
    } else {
      assert h.pieces + [] == h.pieces;
    }
  }

  // ------------------------------------------------------------ runs

  ghost predicate WorldRight<V>(p: Params, w: World<V>) {
    WorldInv(p, w) && SpokenInv(p, w.core, w.history)
  }

  lemma PushRight<V>(p: Params, m: Model<V>, w: World<V>, frame: seq<Sample>)
    requires p.Valid() && WorldRight(p, w) && |frame| == FRAME
    ensures WorldRight(p, Push(p, m, w, frame))
  {
    hide Inv, SpokenInv, Heard, PushFrame, Emitted, Noted;
    PushKeeps(p, m, w, frame);
    var t := Noted(p, m, w.core, frame);
    if !w.core.inSpeech {
      IdleSpoken(p, m, w.core, w.history, frame);
    } else if t.silenceStart.Some? && t.total - t.silenceStart.value >= p.endSamples {
      EndsSpoken(p, m, w.core, w.history, frame);
    } else {
      GoesOnSpoken(p, m, w.core, w.history, frame);
    }
  }

  lemma {:induction false} PushAllRight<V>(p: Params, m: Model<V>, w: World<V>)
    requires p.Valid() && WorldRight(p, w)
    ensures WorldRight(p, PushAll(p, m, w))
    decreases |w.pending|
  {
    hide SpokenInv, Inv, Push;
    if |w.pending| >= FRAME {
      PushRight(p, m, w, w.pending[..FRAME]);
      PushAllRight(p, m, Push(p, m, w, w.pending[..FRAME]).(pending := w.pending[FRAME..]));
    }
  }

  lemma AfterRight<V>(p: Params, m: Model<V>, w: World<V>, call: Call)
    requires p.Valid() && WorldRight(p, w)
    ensures WorldRight(p, After(p, m, w, call))
  {
    hide SpokenInv, Inv, PushAll, Flush, Reset, Stopped;
    AfterKeeps(p, m, w, call);
    match call
    case Process(pcm) => PushAllRight(p, m, w.(pending := w.pending + pcm));
    case FlushCall => FlushSpoken(p, w.core, w.history);
    case ResetCall => ResetSpoken(p, m, w.core, w.history);
  }

  lemma {:induction false} RunRight<V>(p: Params, m: Model<V>, calls: seq<Call>)
    requires p.Valid()
    ensures WorldRight(p, Run(p, m, calls))
  {
    if calls == [] {
      FreshInv(p, m);
      NothingOpens(p, [], 0);
    } else {
      RunRight(p, m, calls[..|calls| - 1]);
      AfterRight(p, m, Run(p, m, calls[..|calls| - 1]), calls[|calls| - 1]);
    }
  }

  // In any run: an idle segmenter opens an utterance with a frame if and only
  // if the current run of loud frames is evidence enough.  The utterance then
  // starts exactly at the later of the start of that run minus the pre-roll and
  // the last boundary; while idle the buffer never holds more than pre-roll
  // plus the longest run.
  lemma OpeningsOfARun<V>(p: Params, m: Model<V>, calls: seq<Call>, frame: seq<Sample>)
    requires p.Valid() && |frame| == FRAME
    requires !Run(p, m, calls).core.inSpeech
    ensures var w := Run(p, m, calls); var w' := Push(p, m, w, frame);
      && (w'.core.inSpeech <==> exists f :: Evidence(p, w'.history.probs, w.history.boundary, f))
      && if w'.core.inSpeech then
           && OpenedAt(p, w.core, w.history, w'.core, w'.history.probs)
           && Evidence(p, w'.history.probs, w.history.boundary, w'.core.onset / FRAME)
         else |w'.core.buf| <= p.IdleMax()
  {
    hide Run, Inv, OpenedAt, Evidence, PushFrame, Heard, RunMarked, AllRight, OpenRight, Quiet;
    RunRight(p, m, calls);
    var w := Run(p, m, calls);
    IdleFrame(p, m, w.core, w.history, frame);
    OpensExactly(p, m, w.core, w.history, frame);
  }

  // In any run: speech is open exactly if there has been evidence since the
  // last boundary; every closed piece starts, ends and is counted as the
  // probabilities say, and is returned exactly if it holds enough speech; the
  // counter of what was too short is right.
  lemma SpeechOfARun<V>(p: Params, m: Model<V>, calls: seq<Call>)
    requires p.Valid()
    ensures var w := Run(p, m, calls); var h := w.history; var s := w.core;
      && (forall k :: 0 <= k < |h.pieces| ==> PieceRight(p, Given(calls), h.probs, h.pieces, k))
      && w.returned == Emitted(h.pieces) && s.shortDiscarded == Short(h.pieces)
      && (s.inSpeech <==> Opened(p, h.probs, h.boundary))
      && (s.inSpeech ==> OpenRight(p, s, h))
  {
    hide Run, Inv, Given, PieceRight, RunMarked, OpensAt;
    RunRight(p, m, calls);
    StreamOfARun(p, m, calls);
    var w := Run(p, m, calls);
    var h := w.history;
    AllStay(p, h, w.pending, [], []);
    assert h.probs + [] == h.probs && h.pieces + [] == h.pieces;
    if !w.core.inSpeech {
      QuietMeans(p, h.probs, h.boundary);
    }
  }

  lemma QuietMeans(p: Params, probs: seq<real>, boundary: nat)
    requires Quiet(p, probs, boundary)
    ensures !Opened(p, probs, boundary)
  {
  }

  // ------------------------------------------------------------ what the model is asked

  // The frames heard before each reset.
  function Resets(calls: seq<Call>): set<nat> {
    if calls == [] then {}
    else
      var front := calls[..|calls| - 1];
      Resets(front) + if calls[|calls| - 1] == ResetCall then {|Given(front)| / FRAME} else {}
  }

  function Frame(stream: seq<Sample>, i: nat): seq<Sample>
    requires FRAME * (i + 1) <= |stream|
  {
    stream[FRAME * i..FRAME * (i + 1)]
  }

  // The model's state before frame i: it has seen the frames since the last reset.
  ghost function StateAt<V>(m: Model<V>, stream: seq<Sample>, resets: set<nat>, i: nat): V
    requires FRAME * i <= |stream|
  {
    if i == 0 || i in resets then m.initial
    else m.prob(StateAt(m, stream, resets, i - 1), Frame(stream, i - 1)).1
  }

  ghost predicate Asked<V>(m: Model<V>, stream: seq<Sample>, resets: set<nat>, probs: seq<real>) {
    && FRAME * |probs| <= |stream|
    && forall i :: 0 <= i < |probs| ==> probs[i] == m.prob(StateAt(m, stream, resets, i), Frame(stream, i)).0
  }

  lemma {:induction false} StateStays<V>(m: Model<V>, stream: seq<Sample>, more: seq<Sample>, resets: set<nat>, later: set<nat>, i: nat)
    requires FRAME * i <= |stream|
    requires forall r :: r in later ==> r > i
    ensures StateAt(m, stream + more, resets + later, i) == StateAt(m, stream, resets, i)
  {
    if i > 0 && i !in resets {
      StateStays(m, stream, more, resets, later, i - 1);
      assert Frame(stream + more, i - 1) == Frame(stream, i - 1);
    }
  }

  lemma AskedStays<V>(m: Model<V>, stream: seq<Sample>, more: seq<Sample>, resets: set<nat>, later: set<nat>, probs: seq<real>)
    requires Asked(m, stream, resets, probs) && forall r :: r in later ==> r >= |probs|
    ensures Asked(m, stream + more, resets + later, probs)
  {
    forall i | 0 <= i < |probs|
      ensures probs[i] == m.prob(StateAt(m, stream + more, resets + later, i), Frame(stream + more, i)).0
    {
      StateStays(m, stream, more, resets, later, i);
      assert Frame(stream + more, i) == Frame(stream, i);
    }
  }

  ghost predicate ModelInv<V>(m: Model<V>, w: World<V>, resets: set<nat>) {
    var h := w.history;
    && |h.stream| == FRAME * |h.probs|
    && (forall r :: r in resets ==> r <= |h.probs|)
    && Asked(m, h.stream, resets, h.probs)
    && w.core.vad == StateAt(m, h.stream, resets, |h.probs|)
  }

  lemma FrameAsks<V>(p: Params, m: Model<V>, s: Core<V>, frame: seq<Sample>)
    requires p.Valid()
    ensures var s' := PushFrame(p, m, s, frame).0; (s'.lastProb, s'.vad) == m.prob(s.vad, frame)
  {
    hide LowestEnergyCut;
    CutAllFrame(p, Noted(p, m, s, frame));
    hide CutAll;
  }

  lemma PushAsks<V>(p: Params, m: Model<V>, w: World<V>, frame: seq<Sample>, resets: set<nat>)
    requires p.Valid() && ModelInv(m, w, resets) && |frame| == FRAME
    ensures ModelInv(m, Push(p, m, w, frame), resets)
  {
    FrameAsks(p, m, w.core, frame);
    hide PushFrame;
    var n, h := |w.history.probs|, w.history;
    AskedStays(m, h.stream, frame, resets, {}, h.probs);
    StateStays(m, h.stream, frame, resets, {}, n);
    assert resets + {} == resets;
    assert Frame(h.stream + frame, n) == frame;
  }

  lemma {:induction false} PushAllAsks<V>(p: Params, m: Model<V>, w: World<V>, resets: set<nat>)
    requires p.Valid() && ModelInv(m, w, resets)
    ensures ModelInv(m, PushAll(p, m, w), resets)
    decreases |w.pending|
  {
    hide Asked, StateAt, Push;
    if |w.pending| >= FRAME {
      PushAsks(p, m, w, w.pending[..FRAME], resets);
      PushAllAsks(p, m, Push(p, m, w, w.pending[..FRAME]).(pending := w.pending[FRAME..]), resets);
    }
  }

  lemma ResetAsks<V>(p: Params, m: Model<V>, w: World<V>, resets: set<nat>)
    requires p.Valid() && ModelInv(m, w, resets)
    ensures ModelInv(m, After(p, m, w, ResetCall), resets + {|w.history.probs|})
  {
    var h := w.history;
    AskedStays(m, h.stream, [], resets, {|h.probs|}, h.probs);
    assert h.stream + [] == h.stream;
    hide Asked;
  }

  lemma {:induction false} RunAsks<V>(p: Params, m: Model<V>, calls: seq<Call>)
    requires p.Valid()
    ensures ModelInv(m, Run(p, m, calls), Resets(calls))
  {
    if calls != [] {
      var front := calls[..|calls| - 1];
      var w := Run(p, m, front);
      RunAsks(p, m, front);
      StreamOfARun(p, m, front);
      assert |Given(front)| / FRAME == |w.history.probs|;
      assert Resets(front) + {} == Resets(front);
      hide Given, ModelInv, PushAll;
      match calls[|calls| - 1]
      case Process(pcm) => ProcessAsks(p, m, w, pcm, Resets(front));
      case FlushCall => FlushAsks(p, m, w, Resets(front));
      case ResetCall => ResetAsks(p, m, w, Resets(front));
    }
  }

  lemma ProcessAsks<V>(p: Params, m: Model<V>, w: World<V>, pcm: seq<Sample>, resets: set<nat>)
    requires p.Valid() && ModelInv(m, w, resets)
    ensures ModelInv(m, After(p, m, w, Process(pcm)), resets)
  {
    PushAllAsks(p, m, w.(pending := w.pending + pcm), resets);
  }

  lemma FlushAsks<V>(p: Params, m: Model<V>, w: World<V>, resets: set<nat>)
    requires p.Valid() && ModelInv(m, w, resets)
    ensures ModelInv(m, After(p, m, w, FlushCall), resets)
  {
  }

  // In any run the probabilities heard are the model's for the frames of what
  // was given, each in the state that the frames since the last reset left.
  lemma ProbsOfARun<V>(p: Params, m: Model<V>, calls: seq<Call>)
    requires p.Valid()
    ensures var w := Run(p, m, calls);
      && |w.history.probs| == |Given(calls)| / FRAME
      && Asked(m, Given(calls), Resets(calls), w.history.probs)
  {
    hide Run, Given, Resets;
    RunAsks(p, m, calls);
    StreamOfARun(p, m, calls);
    var w := Run(p, m, calls);
    AskedStays(m, w.history.stream, w.pending, Resets(calls), {}, w.history.probs);
    assert Resets(calls) + {} == Resets(calls);
    hide Asked;
  }
}
