// The segmenter as the program runs it: a growable buffer in an array and
// fields updated frame by frame, proved equal to the transition system.
module Segmenter {
  import opened Wrappers
  import opened EnergyCut
  import opened Segmentation

  // Growable buffer: appends at the end, drops at the front.
  class Buffer {
    var data: array<Sample>
    var n: nat

    ghost predicate Valid()
      reads this
    {
      n <= data.Length
    }

    function Contents(): seq<Sample>
      requires Valid()
      reads this, data
    {
      data[..n]
    }

    constructor (initial: seq<Sample>)
      ensures Valid() && fresh(data) && Contents() == initial
    {
      var d := new Sample[Max(8192, 2 * |initial|)];
      forall i | 0 <= i < |initial| {
        d[i] := initial[i];
      }
      data := d;
      n := |initial|;
    }

    method Append(x: seq<Sample>)
      requires Valid()
      modifies this, data
      ensures Valid() && (data == old(data) || fresh(data))
      ensures Contents() == old(Contents()) + x
    {
      var need := n + |x|;
      if need > data.Length {
        var grown := new Sample[Max(need, 2 * data.Length)];
        forall i | 0 <= i < n {
          grown[i] := data[i];
        }
        data := grown;
      }
      forall i | n <= i < need {
        data[i] := x[i - n];
      }
      n := need;
    }

    method DropFront(k: int)
      requires Valid()
      modifies this`n, data
      ensures Valid()
      ensures Contents() == Segmentation.DropFront(old(Contents()), k)
    {
      var k := Min(Max(0, k), n);
      if k > 0 {
        forall i | 0 <= i < n - k {
          data[i] := data[i + k];
        }
        n := n - k;
      }
    }
  }

  class UtteranceSegmenter<V> {
    const p: Params
    const model: Model<V>
    var vad: V
    var lastProb: real
    var pending: seq<Sample>
    var total: nat
    var inSpeech: bool
    var buf: Buffer
    var bufStart: nat
    var runStart: Option<nat>
    var runSpeech: nat
    var onset: nat
    var silenceStart: Option<nat>
    var shortDiscarded: nat

    ghost predicate Valid()
      reads this, buf
    {
      buf.Valid()
    }

    // The fields as a value of the transition system.
    function State(): Core<V>
      requires Valid()
      reads this, buf, buf.data
    {
      Core(vad, lastProb, total, inSpeech, buf.Contents(), bufStart, runStart, runSpeech, onset, silenceStart, shortDiscarded)
    }

    constructor (p: Params, model: Model<V>)
      ensures Valid() && fresh(buf) && fresh(buf.data)
      ensures this.p == p && this.model == model
      ensures State() == Fresh(model) && pending == []
    {
      this.p, this.model := p, model;
      vad, lastProb, pending, total, shortDiscarded := model.initial, 0.0, [], 0, 0;
      inSpeech, bufStart, runStart, runSpeech, onset, silenceStart := false, 0, None, 0, 0, None;
      buf := new Buffer([]);
    }

    method ResetState(data: seq<Sample>, start: nat)
      requires Valid()
      modifies this
      ensures Valid() && fresh(buf) && fresh(buf.data)
      ensures State() == Idle(old(State()), data, start) && pending == old(pending)
    {
      inSpeech := false;
      buf := new Buffer(data);
      bufStart := start;
      runStart := None;
      runSpeech := 0;
      onset := 0;
      silenceStart := None;
    }

    method Open(at: nat)
      requires Valid()
      modifies this, buf, buf.data
      ensures Valid() && buf == old(buf) && buf.data == old(buf.data)
      ensures State() == Segmentation.Open(p, old(State()), at) && pending == old(pending)
    {
      hide Segmentation.DropFront;
      var start := Max(bufStart, Max(at - p.pre, total - p.IdleMax()));
      buf.DropFront(start - bufStart);
      bufStart := start;
      inSpeech := true;
      onset := Max(at, start);
      silenceStart := None;
      runStart := None;
      runSpeech := 0;
    }

    method Finish(end: nat) returns (u: Option<Utterance>)
      requires Valid()
      modifies this
      ensures Valid() && fresh(buf) && fresh(buf.data)
      ensures (State(), u) == Segmentation.Finish(p, old(State()), end) && pending == old(pending)
    {
      var data := buf.Contents();
      var end := Max(bufStart, Min(end, bufStart + |data|));
      var n := end - bufStart;
      var audio := data[..n];
      var speechEnd := if silenceStart.Some? then silenceStart.value else end;
      var speech := speechEnd - onset;
      var start := bufStart;
      ResetState(data[n..], end);
      if speech < p.minSpeech {
        shortDiscarded := shortDiscarded + 1;
        return None;
      }
      return Some(Utterance(audio, start, end, speech * 1000 / SAMPLE_RATE, false));
    }

    method Cut() returns (u: Utterance)
      requires Valid() && p.Cuts() && p.maxSamples <= |buf.Contents()|
      modifies this, buf, buf.data
      ensures Valid() && buf == old(buf) && buf.data == old(buf.data)
      ensures (State(), u) == Segmentation.Cut(p, old(State())) && pending == old(pending)
    {
      hide Segmentation.DropFront;
      var data := buf.Contents();
      CutPosition(data[..p.maxSamples], p.cutSearch, CUT_WINDOW, CUT_HOP);
      var cut := LowestEnergyCut(data[..p.maxSamples], p.cutSearch, CUT_WINDOW, CUT_HOP);
      var start := bufStart;
      var speech := Max(0, start + cut - onset);
      buf.DropFront(cut);
      bufStart := start + cut;
      onset := bufStart;
      u := Utterance(data[..cut], start, start + cut, speech * 1000 / SAMPLE_RATE, true);
    }

    method PushFrame(frame: seq<Sample>) returns (out: seq<Utterance>)
      requires Valid() && p.Cuts() && |frame| == FRAME
      modifies this, buf, buf.data
      ensures Valid() && (buf == old(buf) || fresh(buf)) && (buf.data == old(buf.data) || fresh(buf.data))
      ensures (State(), out) == Segmentation.PushFrame(p, model, old(State()), frame) && pending == old(pending)
    {
      var frameStart := total;
      total := total + FRAME;
      var (q, next) := model.prob(vad, frame);
      vad := next;
      lastProb := q;
      buf.Append(frame);
      assert State() == Hear(model, old(State()), frame);
      if inSpeech {
        out := PushSpeech(frameStart);
      } else {
        PushIdle(frameStart);
        out := [];
      }
    }

    method PushSpeech(frameStart: nat) returns (out: seq<Utterance>)
      requires Valid() && p.Cuts() && inSpeech
      modifies this, buf, buf.data
      ensures Valid() && (buf == old(buf) || fresh(buf)) && (buf.data == old(buf.data) || fresh(buf.data))
      ensures (State(), out) == Segmentation.PushSpeech(p, old(State()), frameStart) && pending == old(pending)
    {
      if lastProb >= p.startProb {
        silenceStart := None;
      } else if lastProb < p.endProb && silenceStart.None? {
        silenceStart := Some(frameStart);
      }
      assert State() == NoteSilence(p, old(State()), frameStart);
      if silenceStart.Some? && total - silenceStart.value >= p.endSamples {
        var u := Finish(silenceStart.value + p.post);
        out := if u.None? then [] else [u.value];
      } else {
        out := CutAll();
      }
    }

    method CutAll() returns (out: seq<Utterance>)
      requires Valid() && p.Cuts()
      modifies this, buf, buf.data
      ensures Valid() && buf == old(buf) && buf.data == old(buf.data)
      ensures (State(), out) == Segmentation.CutAll(p, old(State())) && pending == old(pending)
    {
      hide Segmentation.Cut;
      ghost var (last, all) := Segmentation.CutAll(p, State());
      out := [];
      assert [] + all == all;
      while |buf.Contents()| >= p.maxSamples
        invariant Valid() && pending == old(pending) && buf == old(buf) && buf.data == old(buf.data)
        invariant var (s, us) := Segmentation.CutAll(p, State()); s == last && out + us == all
        decreases |buf.Contents()|
      {
        ghost var before := State();
        var u := Cut();
        Assoc(out, [u], Segmentation.CutAll(p, State()).1);
        out := out + [u];
      }
      assert out + [] == out;
    }

    method PushIdle(frameStart: nat)
      requires Valid() && !inSpeech
      modifies this, buf, buf.data
      ensures Valid() && buf == old(buf) && buf.data == old(buf.data)
      ensures State() == Segmentation.PushIdle(p, old(State()), frameStart) && pending == old(pending)
    {
      if runStart.Some? && total - runStart.value > p.runMax {
        runStart := None;
        runSpeech := 0;
      }
      assert State() == ExpireRun(p, old(State()));
      if lastProb >= p.startProb {
        if runStart.None? {
          runStart := Some(frameStart);
        }
        runSpeech := runSpeech + FRAME;
        assert State() == ExtendRun(p, old(State()), frameStart);
        if runSpeech >= p.startSamples {
          Open(runStart.value);
          return;
        }
      } else if lastProb < p.endProb {
        runStart := None;
        runSpeech := 0;
      }
      Trim();
    }

    // Drop the audio no live run (or run to come) will need.
    method Trim()
      requires Valid()
      modifies this`bufStart, buf, buf.data
      ensures Valid() && buf.data == old(buf.data)
      ensures State() == Segmentation.Trim(p, old(State()))
    {
      hide Segmentation.DropFront;
      var keepFrom := (if runStart.Some? then runStart.value else total) - p.pre;
      keepFrom := Max(keepFrom, total - p.IdleMax());
      if keepFrom > bufStart {
        buf.DropFront(keepFrom - bufStart);
        bufStart := keepFrom;
      }
    }

    // process: whole frames go through, the rest waits for the next call
    method Process(pcm: seq<Sample>) returns (out: seq<Utterance>)
      requires Valid() && p.Cuts()
      modifies this, buf, buf.data
      ensures Valid() && (buf == old(buf) || fresh(buf)) && (buf.data == old(buf.data) || fresh(buf.data))
      ensures (State(), pending, out) == Drain(p, model, old(State()), old(pending) + pcm)
    {
      hide Segmentation.PushFrame;
      out := [];
      if |pcm| > 0 {
        pending := pending + pcm;
      }
      assert pending == old(pending) + pcm;
      ghost var all := pending;
      var frames := |pending| / FRAME;
      assert all[0..] == all;
      assert [] + Drain(p, model, old(State()), all).2 == Drain(p, model, old(State()), all).2;
      for i := 0 to frames
        invariant Valid() && pending == all
        invariant (buf == old(buf) || fresh(buf)) && (buf.data == old(buf.data) || fresh(buf.data))
        invariant var (s, rest, us) := Drain(p, model, State(), all[i * FRAME..]);
                  Drain(p, model, old(State()), all) == (s, rest, out + us)
      {
        ghost var left := all[i * FRAME..];
        ghost var before := State();
        assert left[..FRAME] == pending[i * FRAME..(i + 1) * FRAME];
        assert left[FRAME..] == all[(i + 1) * FRAME..];
        var us := PushFrame(pending[i * FRAME..(i + 1) * FRAME]);
        Assoc(out, us, Drain(p, model, State(), left[FRAME..]).2);
        out := out + us;
      }
      assert out + [] == out;
      if frames > 0 {
        pending := pending[frames * FRAME..];
      }
    }

    method Flush() returns (u: Option<Utterance>)
      requires Valid()
      modifies this
      ensures Valid() && fresh(buf) && fresh(buf.data)
      ensures (State(), u) == Segmentation.Flush(p, old(State())) && pending == old(pending)
    {
      hide Segmentation.Finish;
      u := None;
      if inSpeech {
        var end := if silenceStart.Some? then silenceStart.value + p.post else total;
        FinishStays(p, State(), Min(end, total));
        u := Finish(Min(end, total));
      }
      ResetState([], total);
    }

    method Reset()
      requires Valid()
      modifies this
      ensures Valid() && fresh(buf) && fresh(buf.data)
      ensures State() == Segmentation.Reset(model, old(State())) && pending == []
    {
      pending := [];
      ResetState([], total);
      vad := model.initial;
    }
  }
}
