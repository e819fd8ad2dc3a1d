// Captions: words are wrapped greedily into lines, lines are grouped into
// chunks, and the cue's time is apportioned over the chunks by their length.
module Wrap {
  import opened Wrappers

  function Joined(words: seq<string>): string {
    if words == [] then "" else if |words| == 1 then words[0] else words[0] + " " + Joined(words[1..])
  }

  function Concat<T>(parts: seq<seq<T>>): seq<T> {
    if parts == [] then [] else parts[0] + Concat(parts[1..])
  }

  lemma {:induction false} ConcatAppend<T>(parts: seq<seq<T>>, last: seq<T>)
    ensures Concat(parts + [last]) == Concat(parts) + last
  {
    if parts == [] {
      assert [last][1..] == [];
    } else {
      ConcatAppend(parts[1..], last);
      assert (parts + [last])[1..] == parts[1..] + [last];
    }
  }

  lemma {:induction false} JoinedConcat(a: seq<string>, b: seq<string>)
    requires a != [] && b != []
    ensures Joined(a + b) == Joined(a) + " " + Joined(b)
  {
    if |a| == 1 {
      assert (a + b)[1..] == b;
    } else {
      JoinedConcat(a[1..], b);
      assert (a + b)[1..] == a[1..] + b;
    }
  }

  // ------------------------------------------------------------ layouts

  // A layout gives each line its words.  A line fits, or is one long word.
  ghost predicate Fits(layout: seq<seq<string>>, maxChars: int) {
    forall i :: 0 <= i < |layout| ==> layout[i] != [] && (|Joined(layout[i])| <= maxChars || |layout[i]| == 1)
  }

  // No line has room for the first word of the next.
  ghost predicate Tight(layout: seq<seq<string>>, maxChars: int) {
    forall i, j :: 0 <= i < j < |layout| && j == i + 1 ==> NoRoom(layout[i], layout[j], maxChars)
  }

  ghost predicate NoRoom(line: seq<string>, next: seq<string>, maxChars: int) {
    next != [] ==> |Joined(line)| + 1 + |next[0]| > maxChars
  }

  ghost predicate IsLayout(lines: seq<string>, layout: seq<seq<string>>) {
    |lines| == |layout| && forall i :: 0 <= i < |lines| ==> lines[i] == Joined(layout[i])
  }

  lemma {:induction false} NothingLeft(layout: seq<seq<string>>, maxChars: int)
    requires Fits(layout, maxChars) && Concat(layout) == []
    ensures layout == []
  {
  }

  // A stretch of words that holds a full line and the next word does not fit.
  lemma TooWide(before: seq<string>, line: seq<string>, next: string, after: seq<string>)
    requires line != []
    ensures |Joined(before + line + [next] + after)| >= |Joined(line)| + 1 + |next|
  {
    JoinedConcat(line, [next]);
    var core := line + [next];
    assert before + line + [next] + after == before + core + after;
    if after == [] {
      assert before + core + after == before + core;
    } else {
      JoinedConcat(before + core, after);
    }
    if before == [] {
      assert before + core == core;
    } else {
      JoinedConcat(before, core);
    }
  }

  // A tight layout has no more lines than any layout that still has the words
  // `ahead` to place before the same ones.
  lemma {:induction false} TightIsLeast(a: seq<seq<string>>, b: seq<seq<string>>, ahead: seq<string>, maxChars: int)
    requires Fits(a, maxChars) && Tight(a, maxChars) && Fits(b, maxChars)
    requires Concat(b) == ahead + Concat(a)
    ensures |a| <= |b|
    decreases |b|
  {
    if a == [] {
    } else if b == [] {
      NothingLeft(a, maxChars);
    } else {
      var first, rest := b[0], Concat(b[1..]);
      assert first + rest == ahead + Concat(a);
      if |first| <= |ahead| {
        assert (first + rest)[|first|..] == rest;
        assert rest == ahead[|first|..] + Concat(a);
        TightIsLeast(a, b[1..], ahead[|first|..], maxChars);
      } else {
        var taken := |first| - |ahead|;
        assert first == ahead + Concat(a)[..taken] by {
          assert first == (first + rest)[..|first|];
        }
        assert rest == Concat(a)[taken..] by {
          assert rest == (first + rest)[|first|..];
        }
        if taken > |a[0]| {
          FirstLineIsFull(a, ahead, taken, maxChars);
        } else {
          assert rest == a[0][taken..] + Concat(a[1..]);
          TightIsLeast(a[1..], b[1..], a[0][taken..], maxChars);
        }
      }
    }
  }

  lemma FirstLineIsFull(a: seq<seq<string>>, ahead: seq<string>, taken: nat, maxChars: int)
    requires Fits(a, maxChars) && Tight(a, maxChars) && a != [] && |a[0]| < taken <= |Concat(a)|
    ensures |Joined(ahead + Concat(a)[..taken])| > maxChars && |ahead + Concat(a)[..taken]| > 1
  {
    var line, more := a[0], Concat(a[1..]);
    assert |a| > 1 && a[1..][0] == a[1];
    var next := a[1][0];
    assert more[0] == next;
    var after := more[1..taken - |line|];
    assert ahead + Concat(a)[..taken] == ahead + line + [next] + after;
    TooWide(ahead, line, next, after);
  }

  // ------------------------------------------------------------ wrapping

  lemma GrowLine(layout: seq<seq<string>>, line: seq<string>, w: string, maxChars: int)
    requires line != [] && Fits(layout + [line], maxChars) && Tight(layout + [line], maxChars)
    requires |Joined(line)| + 1 + |w| <= maxChars
    ensures Joined(line + [w]) == Joined(line) + " " + w
    ensures Fits(layout + [line + [w]], maxChars) && Tight(layout + [line + [w]], maxChars)
  {
    JoinedConcat(line, [w]);
    var was, grown := layout + [line], layout + [line + [w]];
    forall i, j | 0 <= i < j < |grown| && j == i + 1 ensures NoRoom(grown[i], grown[j], maxChars) {
      assert NoRoom(was[i], was[j], maxChars);
    }
    forall i | 0 <= i < |grown| ensures grown[i] != [] && (|Joined(grown[i])| <= maxChars || |grown[i]| == 1) {
      assert i < |layout| ==> grown[i] == was[i];
    }
  }

  lemma StartLine(layout: seq<seq<string>>, w: string, maxChars: int)
    requires Fits(layout, maxChars) && Tight(layout, maxChars)
    requires layout != [] ==> |Joined(layout[|layout| - 1])| + 1 + |w| > maxChars
    ensures Fits(layout + [[w]], maxChars) && Tight(layout + [[w]], maxChars)
  {
    var grown := layout + [[w]];
    forall i, j | 0 <= i < j < |grown| && j == i + 1 ensures NoRoom(grown[i], grown[j], maxChars) {
      assert j < |layout| ==> NoRoom(layout[i], layout[j], maxChars);
    }
  }

  // The finished lines hold `layout`, the current one holds `line`.
  ghost predicate Wrapped(words: seq<string>, lines: seq<string>, cur: string, layout: seq<seq<string>>, line: seq<string>, maxChars: int) {
    && IsLayout(lines, layout) && cur == Joined(line) && Concat(layout) + line == words
    && (line == [] <==> cur == "") && (line == [] ==> words == [] && layout == [])
    && (line != [] ==> Fits(layout + [line], maxChars) && Tight(layout + [line], maxChars))
    && forall j :: 0 <= j < |lines| ==> lines[j] != ""
  }

  lemma WrapFirst(w: string, lines: seq<string>, layout: seq<seq<string>>, line: seq<string>, maxChars: int)
    requires w != "" && Wrapped([], lines, "", layout, line, maxChars)
    ensures Wrapped([w], lines, w, layout, [w], maxChars)
  {
    StartLine(layout, w, maxChars);
  }

  lemma WrapMore(words: seq<string>, w: string, lines: seq<string>, cur: string, layout: seq<seq<string>>, line: seq<string>, maxChars: int)
    requires cur != "" && Wrapped(words, lines, cur, layout, line, maxChars) && |cur| + 1 + |w| <= maxChars
    ensures Wrapped(words + [w], lines, cur + " " + w, layout, line + [w], maxChars)
  {
    GrowLine(layout, line, w, maxChars);
    hide Fits, Tight, Concat, Joined, IsLayout;
    assert Concat(layout) + (line + [w]) == Concat(layout) + line + [w];
  }

  lemma WrapBreak(words: seq<string>, w: string, lines: seq<string>, cur: string, layout: seq<seq<string>>, line: seq<string>, maxChars: int)
    requires cur != "" && w != "" && Wrapped(words, lines, cur, layout, line, maxChars) && |cur| + 1 + |w| > maxChars
    ensures Wrapped(words + [w], lines + [cur], w, layout + [line], [w], maxChars)
  {
    ConcatAppend(layout, line);
    StartLine(layout + [line], w, maxChars);
    assert Joined([w]) == w;
    hide Fits, Tight, Concat, Joined;
  }

  // The loop of `_wrap_cue` over the words of the text.
  method WrapLines(words: seq<string>, maxChars: int) returns (lines: seq<string>, ghost layout: seq<seq<string>>)
    requires forall k :: 0 <= k < |words| ==> words[k] != ""
    ensures IsLayout(lines, layout) && Concat(layout) == words
    ensures Fits(layout, maxChars) && Tight(layout, maxChars)
    ensures forall k :: 0 <= k < |lines| ==> lines[k] != ""
  {
    var cur := "";
    lines, layout := [], [];
    ghost var line: seq<string> := [];
    var k := 0;
    while k < |words|
      invariant k <= |words| && Wrapped(words[..k], lines, cur, layout, line, maxChars)
    {
      var w := words[k];
      assert words[..k + 1] == words[..k] + [w];
      if cur == "" {
        assert words[..k] == [];
        WrapFirst(w, lines, layout, line, maxChars);
        cur, line := w, [w];
      } else if |cur| + 1 + |w| <= maxChars {
        WrapMore(words[..k], w, lines, cur, layout, line, maxChars);
        cur, line := cur + " " + w, line + [w];
      } else {
        WrapBreak(words[..k], w, lines, cur, layout, line, maxChars);
        lines, layout := lines + [cur], layout + [line];
        cur, line := w, [w];
      }
      k := k + 1;
      hide Wrapped;
    }
    assert words[..k] == words;
    if cur != "" {
      lines := lines + [cur];
      ConcatAppend(layout, line);
      layout := layout + [line];
    }
  }

  // Greedy wrapping keeps the words in order and uses the fewest lines of all
  // layouts whose lines fit.
  lemma WrapIsLeast(words: seq<string>, maxChars: int, layout: seq<seq<string>>, other: seq<seq<string>>)
    requires Concat(layout) == words && Fits(layout, maxChars) && Tight(layout, maxChars)
    requires Concat(other) == words && Fits(other, maxChars)
    ensures |layout| <= |other|
  {
    assert Concat(other) == [] + Concat(layout);
    TightIsLeast(layout, other, [], maxChars);
  }

  // ------------------------------------------------------------ chunks

  function Chunks<T>(lines: seq<T>, size: nat): seq<seq<T>>
    requires size > 0
    decreases |lines|
  {
    if |lines| <= size then (if lines == [] then [] else [lines])
    else [lines[..size]] + Chunks(lines[size..], size)
  }

  lemma {:induction false} ChunksCover<T>(lines: seq<T>, size: nat)
    requires size > 0
    ensures var chunks := Chunks(lines, size);
      && Concat(chunks) == lines
      && (forall i :: 0 <= i < |chunks| ==> 0 < |chunks[i]| <= size)
      && (forall i :: 0 <= i < |chunks| - 1 ==> |chunks[i]| == size)
    decreases |lines|
  {
    if |lines| > size {
      ChunksCover(lines[size..], size);
      assert lines == lines[..size] + lines[size..];
    } else if lines != [] {
      assert [lines][1..] == [];
    }
  }

  // ------------------------------------------------------------ time

  function Weight(chunk: seq<string>): nat {
    if chunk == [] then 0 else |chunk[0]| + Weight(chunk[1..])
  }

  function Total(chunks: seq<seq<string>>): nat {
    if chunks == [] then 0 else Weight(chunks[0]) + Total(chunks[1..])
  }

  lemma {:induction false} TotalAppend(chunks: seq<seq<string>>, last: seq<string>)
    ensures Total(chunks + [last]) == Total(chunks) + Weight(last)
  {
    if chunks == [] {
      assert [last][1..] == [];
    } else {
      TotalAppend(chunks[1..], last);
      assert (chunks + [last])[1..] == chunks[1..] + [last];
    }
  }

  datatype Shown = Shown(from: real, to: real, lines: seq<string>)

  function Share(span: real, w: nat, total: nat): real
    requires total > 0
  {
    span * (w as real / total as real)
  }

  lemma SharesAdd(span: real, a: nat, b: nat, total: nat)
    requires total > 0
    ensures Share(span, a, total) + Share(span, b, total) == Share(span, a + b, total)
  {
    var x, y, t := a as real, b as real, total as real;
    assert x / t + y / t == (x + y) / t;
  }

  lemma SharesMean(span: real, w: nat, total: nat)
    requires total > 0 && span >= 0.0
    ensures Share(span, w, total) >= 0.0
    ensures Share(span, w, total) * total as real == span * w as real
    ensures Share(span, 0, total) == 0.0 && Share(span, total, total) == span
  {
    var b, t := w as real, total as real;
    assert (b / t) * t == b && b / t >= 0.0;
    calc {
      (span * (b / t)) * t;
      span * ((b / t) * t);
      span * b;
    }
  }

  // A cue that ends before it starts has no length.
  function Span(start: real, end: real): real {
    if end > start then end - start else 0.0
  }

  // The times given out so far run from `start` to `t0`, without gap or overlap.
  ghost predicate Tiled(shown: seq<Shown>, start: real, t0: real) {
    && (if shown == [] then t0 == start else shown[0].from == start && shown[|shown| - 1].to == t0)
    && (forall i :: 0 <= i < |shown| ==> shown[i].from <= shown[i].to)
    && (forall i, j :: 0 <= i < j < |shown| && j == i + 1 ==> shown[i].to == shown[j].from)
  }

  // The chunks' times start with the cue and end with it.
  ghost predicate Tiles(shown: seq<Shown>, start: real, end: real) {
    shown != [] && Tiled(shown, start, start + Span(start, end))
  }

  // Each chunk has the share of the time that it has of the characters.
  ghost predicate Fair(shown: seq<Shown>, span: real, total: nat) {
    forall i :: 0 <= i < |shown| ==> FairOne(shown[i], span, total)
  }

  ghost predicate FairOne(s: Shown, span: real, total: nat) {
    (s.to - s.from) * total as real == span * Weight(s.lines) as real
  }

  function LinesOf(shown: seq<Shown>): (r: seq<seq<string>>)
    ensures |r| == |shown|
    ensures forall i :: 0 <= i < |shown| ==> r[i] == shown[i].lines
  {
    seq(|shown|, i requires 0 <= i < |shown| => shown[i].lines)
  }

  lemma {:induction false} WeightPositive(chunks: seq<seq<string>>)
    requires chunks != [] && chunks[0] != [] && chunks[0][0] != ""
    ensures Total(chunks) > 0
  {
  }

  // One cue of `write_ass`.
  method ShowCue(start: real, end: real, words: seq<string>, maxChars: int, maxLines: nat)
      returns (shown: seq<Shown>, ghost layout: seq<seq<string>>)
    requires maxLines > 0 && forall k :: 0 <= k < |words| ==> words[k] != ""
    ensures IsLayout(Concat(LinesOf(shown)), layout) && Concat(layout) == words
    ensures Fits(layout, maxChars) && Tight(layout, maxChars)
    ensures forall i :: 0 <= i < |shown| - 1 ==> |shown[i].lines| == maxLines
    ensures forall i :: 0 <= i < |shown| ==> 0 < |shown[i].lines| <= maxLines
    ensures words == [] <==> shown == []
    ensures shown != [] ==> Tiles(shown, start, end)
    ensures Fair(shown, Span(start, end), Total(LinesOf(shown)))
  {
    var lines;
    lines, layout := WrapLines(words, maxChars);
    var chunks := Chunks(lines, maxLines);
    ChunksCover(lines, maxLines);
    shown := [];
    if chunks == [] {
      return;
    }
    assert lines[0] == chunks[0][0];
    WeightPositive(chunks);
    shown := Apportion(start, end, chunks);
    assert LinesOf(shown) == chunks;
  }

  lemma OneMore(shown: seq<Shown>, start: real, t0: real, t1: real, lines: seq<string>)
    requires Tiled(shown, start, t0) && t0 <= t1
    ensures Tiled(shown + [Shown(t0, t1, lines)], start, t1)
  {
  }

  method Apportion(start: real, end: real, chunks: seq<seq<string>>) returns (shown: seq<Shown>)
    requires chunks != [] && Total(chunks) > 0
    ensures LinesOf(shown) == chunks && Tiles(shown, start, end) && Fair(shown, Span(start, end), Total(chunks))
  {
    var total, span := Total(chunks), Span(start, end);
    var t0 := start;
    shown := [];
    SharesMean(span, 0, total);
    var i := 0;
    while i < |chunks|
      invariant i <= |chunks| && LinesOf(shown) == chunks[..i]
      invariant t0 == start + Share(span, Total(chunks[..i]), total)
      invariant Tiled(shown, start, t0)
      invariant Fair(shown, span, total)
    {
      hide Share, FairOne, Weight, Tiled;
      var w := Weight(chunks[i]);
      SharesAdd(span, Total(chunks[..i]), w, total);
      SharesMean(span, w, total);
      assert chunks[..i + 1] == chunks[..i] + [chunks[i]];
      TotalAppend(chunks[..i], chunks[i]);
      var t1 := t0 + Share(span, w, total);
      FairShare(t0, t1, chunks[i], span, total);
      OneMore(shown, start, t0, t1, chunks[i]);
      shown := shown + [Shown(t0, t1, chunks[i])];
      t0 := t1;
      i := i + 1;
    }
    assert chunks[..i] == chunks;
    SharesMean(span, total, total);
  }

  lemma FairShare(t0: real, t1: real, chunk: seq<string>, span: real, total: nat)
    requires total > 0 && span >= 0.0 && t1 == t0 + Share(span, Weight(chunk), total)
    ensures FairOne(Shown(t0, t1, chunk), span, total)
  {
    SharesMean(span, Weight(chunk), total);
    hide Share;
    assert t1 - t0 == Share(span, Weight(chunk), total);
  }
}
