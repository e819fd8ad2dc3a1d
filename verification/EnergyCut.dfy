// lowest_energy_cut: where a too-long utterance is cut.  The program computes
// window energies as differences of prefix sums; the partner is the direct sum
// of squares of each window.
module EnergyCut {
  import opened Wrappers

  type Sample = real

  function Squares(a: seq<Sample>): (s: seq<real>)
    ensures |s| == |a|
  {
    seq(|a|, i requires 0 <= i < |a| => a[i] * a[i])
  }

  function Sum(a: seq<real>): real
  {
    if a == [] then 0.0 else Sum(a[..|a| - 1]) + a[|a| - 1]
  }

  // The direct definition of the energy of a stretch of audio.
  function Energy(a: seq<Sample>): real { Sum(Squares(a)) }

  // Running sums, with a leading zero.
  function PrefixSums(a: seq<real>): (c: seq<real>)
    ensures |c| == |a| + 1
  {
    if a == [] then [0.0]
    else
      var c := PrefixSums(a[..|a| - 1]);
      c + [c[|a| - 1] + a[|a| - 1]]
  }

  // from, from + hop, from + 2 * hop, ... below limit
  function Arange(from: nat, limit: nat, hop: nat): (s: seq<nat>)
    requires hop > 0
    ensures forall k :: 0 <= k < |s| ==> from <= s[k] < limit
    ensures from < limit ==> |s| > 0
    decreases limit - from
  {
    if from >= limit then [] else [from] + Arange(from + hop, limit, hop)
  }

  // The first index of a least element.
  function ArgMin(e: seq<real>): (k: nat)
    requires e != []
    ensures k < |e|
    ensures forall i :: 0 <= i < |e| ==> e[k] <= e[i]
    ensures forall i :: 0 <= i < k ==> e[k] < e[i]
  {
    if |e| == 1 then 0
    else
      var last := |e| - 1;
      var k := ArgMin(e[..last]);
      if e[last] < e[k] then last else k
  }

  function LowestEnergyCut(buf: seq<Sample>, search: nat, window: nat, hop: nat): nat
    requires hop > 0
  {
    var n := |buf|;
    var lo := Max(0, n - search);
    var seg := buf[lo..];
    if |seg| < window then n
    else
      var starts := Arange(0, |seg| - window + 1, hop);
      lo + starts[ArgMin(WindowEnergies(seg, starts, window))] + window / 2
  }

  function WindowEnergies(seg: seq<Sample>, starts: seq<nat>, window: nat): (e: seq<real>)
    requires forall i :: 0 <= i < |starts| ==> starts[i] + window <= |seg|
    ensures |e| == |starts|
  {
    var csum := PrefixSums(Squares(seg));
    seq(|starts|, k requires 0 <= k < |starts| => csum[starts[k] + window] - csum[starts[k]])
  }

  lemma {:induction false} PrefixSumsAreSums(a: seq<real>, k: nat)
    requires k <= |a|
    ensures PrefixSums(a)[k] == Sum(a[..k])
  {
    if k < |a| {
      PrefixSumsAreSums(a[..|a| - 1], k);
      assert a[..|a| - 1][..k] == a[..k];
    } else if k == 0 {
    } else {
      PrefixSumsAreSums(a[..k - 1], k - 1);
      assert a[..k] == a;
      assert a[..k - 1][..k - 1] == a[..k - 1];
    }
  }

  lemma {:induction false} SumConcat(a: seq<real>, b: seq<real>)
    ensures Sum(a + b) == Sum(a) + Sum(b)
  {
    if b == [] {
      assert a + b == a;
    } else {
      assert (a + b)[..|a + b| - 1] == a + b[..|b| - 1];
      SumConcat(a, b[..|b| - 1]);
    }
  }

  lemma SumSplit(a: seq<real>, s: nat, t: nat)
    requires s <= t <= |a|
    ensures Sum(a[..t]) == Sum(a[..s]) + Sum(a[s..t])
  {
    SumConcat(a[..s], a[s..t]);
    assert a[..t] == a[..s] + a[s..t];
  }

  lemma DifferenceIsSum(a: seq<real>, s: nat, t: nat)
    requires s <= t <= |a|
    ensures PrefixSums(a)[t] - PrefixSums(a)[s] == Sum(a[s..t])
  {
    PrefixSumsAreSums(a, s);
    PrefixSumsAreSums(a, t);
    SumSplit(a, s, t);
  }

  lemma SquaresSlice(a: seq<Sample>, s: nat, t: nat)
    requires s <= t <= |a|
    ensures Squares(a)[s..t] == Squares(a[s..t])
  {
    var x, y := Squares(a)[s..t], Squares(a[s..t]);
    forall i | 0 <= i < t - s ensures x[i] == y[i] {
      assert a[s..t][i] == a[s + i];
    }
  }

  // The prefix-sum form of a window's energy is its direct sum.
  lemma WindowEnergy(a: seq<Sample>, s: nat, t: nat)
    requires s <= t <= |a|
    ensures PrefixSums(Squares(a))[t] - PrefixSums(Squares(a))[s] == Energy(a[s..t])
  {
    DifferenceIsSum(Squares(a), s, t);
    SquaresSlice(a, s, t);
  }

  lemma {:induction false} ArangeHas(from: nat, limit: nat, hop: nat, k: nat) returns (i: nat)
    requires hop > 0 && from + k * hop < limit
    ensures i < |Arange(from, limit, hop)| && Arange(from, limit, hop)[i] == from + k * hop
    decreases k
  {
    if k == 0 {
      i := 0;
    } else {
      assert k * hop == hop + (k - 1) * hop;
      assert 0 <= (k - 1) * hop;
      i := ArangeHas(from + hop, limit, hop, k - 1);
      i := i + 1;
    }
  }

  lemma {:induction false} ArangeAligned(from: nat, limit: nat, hop: nat, i: nat) returns (k: nat)
    requires hop > 0 && i < |Arange(from, limit, hop)|
    ensures Arange(from, limit, hop)[i] == from + k * hop
    decreases i
  {
    if i == 0 {
      k := 0;
    } else {
      k := ArangeAligned(from + hop, limit, hop, i - 1);
      k := k + 1;
      assert k * hop == hop + (k - 1) * hop;
    }
  }

  // The cut falls inside the buffer and after its first sample, so cutting
  // always makes progress.
  lemma CutPosition(buf: seq<Sample>, search: nat, window: nat, hop: nat)
    requires hop > 0 && window >= 2 && buf != []
    ensures 0 < LowestEnergyCut(buf, search, window, hop) <= |buf|
    ensures |buf| - search <= LowestEnergyCut(buf, search, window, hop)
  {
  }

  lemma WindowEnergiesAreDirect(seg: seq<Sample>, starts: seq<nat>, window: nat, i: nat)
    requires forall k :: 0 <= k < |starts| ==> starts[k] + window <= |seg|
    requires i < |starts|
    ensures WindowEnergies(seg, starts, window)[i] == Energy(seg[starts[i]..starts[i] + window])
  {
    WindowEnergy(seg, starts[i], starts[i] + window);
  }

  // a: the start of a window; b: the start of another
  ghost predicate NoLouder(seg: seq<Sample>, a: nat, b: nat, window: nat)
    requires a + window <= |seg| && b + window <= |seg|
  {
    && Energy(seg[a..a + window]) <= Energy(seg[b..b + window])
    && (b < a ==> Energy(seg[a..a + window]) < Energy(seg[b..b + window]))
  }

  // Unless the search zone is shorter than one window (then everything goes),
  // the cut is the centre of one of the hop-aligned windows of the zone, none
  // of them is quieter, and every earlier one is strictly louder.  ArangeHas
  // and ArangeAligned say that these windows start at the multiples of `hop`.
  lemma CutIsQuietest(buf: seq<Sample>, search: nat, window: nat, hop: nat) returns (start: nat)
    requires hop > 0 && Min(search, |buf|) >= window
    ensures var lo := Max(0, |buf| - search);
      var starts := Arange(0, |buf| - lo - window + 1, hop);
      && start in starts
      && LowestEnergyCut(buf, search, window, hop) == lo + start + window / 2
      && forall i :: 0 <= i < |starts| ==> NoLouder(buf[lo..], start, starts[i], window)
  {
    hide Arange, ArgMin, WindowEnergies, NoLouder;
    var lo := Max(0, |buf| - search);
    start := QuietestWindow(buf[lo..], window, hop);
  }

  lemma QuietestWindow(seg: seq<Sample>, window: nat, hop: nat) returns (start: nat)
    requires hop > 0 && |seg| >= window
    ensures var starts := Arange(0, |seg| - window + 1, hop);
      && start in starts
      && start == starts[ArgMin(WindowEnergies(seg, starts, window))]
      && forall i :: 0 <= i < |starts| ==> NoLouder(seg, start, starts[i], window)
  {
    var limit := |seg| - window + 1;
    var starts := Arange(0, limit, hop);
    var energy := WindowEnergies(seg, starts, window);
    var best := ArgMin(energy);
    start := starts[best];
    forall i | 0 <= i < |starts|
      ensures NoLouder(seg, start, starts[i], window)
    {
      WindowEnergiesAreDirect(seg, starts, window, i);
      WindowEnergiesAreDirect(seg, starts, window, best);
      if best <= i {
        ArangeIncreasing(0, limit, hop, best, i);
      }
    }
  }

  lemma {:induction false} ArangeIncreasing(from: nat, limit: nat, hop: nat, i: nat, j: nat)
    requires hop > 0 && i <= j < |Arange(from, limit, hop)|
    ensures Arange(from, limit, hop)[i] <= Arange(from, limit, hop)[j]
    decreases i
  {
    if 0 < i {
      ArangeIncreasing(from + hop, limit, hop, i - 1, j - 1);
    }
  }
}
