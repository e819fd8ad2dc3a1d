// Greedy one-to-one matching of reference titles with candidates: take the
// pairs by falling score, skip those below the threshold or already used.
module Assign {
  datatype Pair = Pair(score: real, i: nat, j: nat)

  // By falling score; how ties are broken does not matter below.
  ghost predicate Falling(pairs: seq<Pair>) {
    forall a, b :: 0 <= a < b < |pairs| ==> pairs[a].score >= pairs[b].score
  }

  function Greedy(pairs: seq<Pair>, threshold: real, usedI: set<nat>, usedJ: set<nat>): seq<Pair> {
    if pairs == [] then []
    else
      var p := pairs[0];
      if p.score < threshold || p.i in usedI || p.j in usedJ then Greedy(pairs[1..], threshold, usedI, usedJ)
      else [p] + Greedy(pairs[1..], threshold, usedI + {p.i}, usedJ + {p.j})
  }

  ghost predicate Clash(p: Pair, q: Pair) {
    p.i == q.i || p.j == q.j
  }

  // The loop over the sorted pairs; `out` maps a reference to its pair.
  method Match(pairs: seq<Pair>, threshold: real) returns (out: map<nat, Pair>)
    ensures forall p :: p in Greedy(pairs, threshold, {}, {}) <==> p.i in out && out[p.i] == p
    ensures forall i :: i in out ==> out[i].i == i
  {
    var usedI: set<nat>, usedJ: set<nat> := {}, {};
    ghost var accepted: seq<Pair> := [];
    out := map[];
    var k := 0;
    assert [] + Greedy(pairs, threshold, {}, {}) == Greedy(pairs, threshold, {}, {}) && pairs[0..] == pairs;
    while k < |pairs|
      invariant k <= |pairs|
      invariant accepted + Greedy(pairs[k..], threshold, usedI, usedJ) == Greedy(pairs, threshold, {}, {})
      invariant usedI == out.Keys
      invariant forall p :: p in accepted <==> p.i in out && out[p.i] == p
      invariant forall i :: i in out ==> out[i].i == i
    {
      var p := pairs[k];
      ghost var left := pairs[k..];
      assert left[0] == p && left[1..] == pairs[k + 1..];
      if !(p.score < threshold || p.i in usedI || p.j in usedJ) {
        assert forall rest :: accepted + ([p] + rest) == (accepted + [p]) + rest;
        out := out[p.i := p];
        usedI := usedI + {p.i};
        usedJ := usedJ + {p.j};
        accepted := accepted + [p];
      }
      k := k + 1;
    }
    assert accepted + [] == accepted;
  }

  ghost predicate Eligible(p: Pair, pairs: seq<Pair>, threshold: real, usedI: set<nat>, usedJ: set<nat>) {
    p in pairs && p.score >= threshold && p.i !in usedI && p.j !in usedJ
  }

  ghost predicate Apart(m: seq<Pair>) {
    forall a, b :: 0 <= a < b < |m| ==> !Clash(m[a], m[b])
  }

  // What is accepted is eligible, unused and one-to-one.
  lemma {:induction false} OneToOne(pairs: seq<Pair>, threshold: real, usedI: set<nat>, usedJ: set<nat>)
    ensures var m := Greedy(pairs, threshold, usedI, usedJ);
      && (forall q :: q in m ==> Eligible(q, pairs, threshold, usedI, usedJ))
      && Apart(m)
  {
    if pairs != [] {
      var p := pairs[0];
      var skip := p.score < threshold || p.i in usedI || p.j in usedJ;
      var usedI', usedJ' := if skip then usedI else usedI + {p.i}, if skip then usedJ else usedJ + {p.j};
      OneToOne(pairs[1..], threshold, usedI', usedJ');
      var rest := Greedy(pairs[1..], threshold, usedI', usedJ');
      var m := Greedy(pairs, threshold, usedI, usedJ);
      assert m == if skip then rest else [p] + rest;
      forall q | q in m ensures Eligible(q, pairs, threshold, usedI, usedJ) {
        assert q in rest ==> Eligible(q, pairs[1..], threshold, usedI', usedJ');
      }
      forall a, b | 0 <= a < b < |m| ensures !Clash(m[a], m[b]) {
        if skip {
          assert Apart(rest) && m == rest;
        } else if a > 0 {
          assert !Clash(rest[a - 1], rest[b - 1]);
        } else {
          assert m[b] == rest[b - 1] && rest[b - 1] in rest;
          assert Eligible(rest[b - 1], pairs[1..], threshold, usedI', usedJ');
        }
      }
    }
  }

  ghost predicate Blocked(p: Pair, m: seq<Pair>, usedI: set<nat>, usedJ: set<nat>) {
    p.i in usedI || p.j in usedJ || exists a :: 0 <= a < |m| && Clash(p, m[a]) && m[a].score >= p.score
  }

  // No blocking pair: every eligible pair shares an index with an accepted
  // pair that scores at least as much (or with what was used before).
  lemma {:induction false} NoBlockingPair(pairs: seq<Pair>, threshold: real, usedI: set<nat>, usedJ: set<nat>, p: Pair)
    requires Falling(pairs) && p in pairs && p.score >= threshold
    ensures Blocked(p, Greedy(pairs, threshold, usedI, usedJ), usedI, usedJ)
  {
    var first := pairs[0];
    assert pairs == [first] + pairs[1..];
    var m := Greedy(pairs, threshold, usedI, usedJ);
    if first.score < threshold || first.i in usedI || first.j in usedJ {
      if p != first {
        NoBlockingPair(pairs[1..], threshold, usedI, usedJ, p);
      }
    } else {
      assert m[0] == first && first.score >= p.score by {
        var k :| 0 <= k < |pairs| && pairs[k] == p;
      }
      if !Clash(p, first) && p.i !in usedI && p.j !in usedJ {
        NoBlockingPair(pairs[1..], threshold, usedI + {first.i}, usedJ + {first.j}, p);
        var rest := Greedy(pairs[1..], threshold, usedI + {first.i}, usedJ + {first.j});
        var a :| 0 <= a < |rest| && Clash(p, rest[a]) && rest[a].score >= p.score;
        assert m[a + 1] == rest[a] && Clash(p, m[a + 1]) && m[a + 1].score >= p.score;
      }
    }
  }

  // ------------------------------------------------------------ against any other matching

  function Score(m: seq<Pair>): real {
    if m == [] then 0.0 else m[0].score + Score(m[1..])
  }

  // A choice among the pairs, position by position.
  function Chosen(pairs: seq<Pair>, mask: seq<bool>): real
    requires |mask| == |pairs|
  {
    if pairs == [] then 0.0 else (if mask[0] then pairs[0].score else 0.0) + Chosen(pairs[1..], mask[1..])
  }

  // The chosen pairs are eligible, unused and one-to-one.
  ghost predicate Matching(pairs: seq<Pair>, mask: seq<bool>, threshold: real, usedI: set<nat>, usedJ: set<nat>) {
    && |mask| == |pairs|
    && (forall a :: 0 <= a < |pairs| && mask[a] ==>
          pairs[a].score >= threshold && pairs[a].i !in usedI && pairs[a].j !in usedJ)
    && (forall a, b :: 0 <= a < b < |pairs| && mask[a] && mask[b] ==> !Clash(pairs[a], pairs[b]))
  }

  lemma MatchingTail(pairs: seq<Pair>, mask: seq<bool>, threshold: real, usedI: set<nat>, usedJ: set<nat>)
    requires pairs != [] && Matching(pairs, mask, threshold, usedI, usedJ)
    ensures Matching(pairs[1..], mask[1..], threshold, usedI, usedJ)
  {
  }

  // Without the one chosen pair (if any) that uses reference i.
  lemma {:induction false} DropI(pairs: seq<Pair>, mask: seq<bool>, threshold: real, usedI: set<nat>, usedJ: set<nat>, i: nat, bound: real)
      returns (less: seq<bool>)
    requires Matching(pairs, mask, threshold, usedI, usedJ)
    requires bound >= 0.0 && forall a :: 0 <= a < |pairs| ==> pairs[a].score <= bound
    ensures Matching(pairs, less, threshold, usedI + {i}, usedJ)
    ensures Chosen(pairs, mask) <= Chosen(pairs, less) + bound
    ensures forall a :: 0 <= a < |less| && less[a] ==> mask[a]
  {
    if pairs == [] {
      less := [];
    } else if mask[0] && pairs[0].i == i {
      less := [false] + mask[1..];
    } else {
      MatchingTail(pairs, mask, threshold, usedI, usedJ);
      var rest := DropI(pairs[1..], mask[1..], threshold, usedI, usedJ, i, bound);
      less := [mask[0]] + rest;
    }
  }

  // The same for the candidate, on the mirrored pairs.
  function Mirror(pairs: seq<Pair>): (r: seq<Pair>)
    ensures |r| == |pairs|
    ensures forall a :: 0 <= a < |pairs| ==> r[a] == Pair(pairs[a].score, pairs[a].j, pairs[a].i)
  {
    seq(|pairs|, a requires 0 <= a < |pairs| => Pair(pairs[a].score, pairs[a].j, pairs[a].i))
  }

  lemma {:induction false} MirrorChosen(pairs: seq<Pair>, mask: seq<bool>)
    requires |mask| == |pairs|
    ensures Chosen(Mirror(pairs), mask) == Chosen(pairs, mask)
  {
    if pairs != [] {
      assert Mirror(pairs)[1..] == Mirror(pairs[1..]);
      MirrorChosen(pairs[1..], mask[1..]);
    }
  }

  lemma DropJ(pairs: seq<Pair>, mask: seq<bool>, threshold: real, usedI: set<nat>, usedJ: set<nat>, j: nat, bound: real)
      returns (less: seq<bool>)
    requires Matching(pairs, mask, threshold, usedI, usedJ)
    requires bound >= 0.0 && forall a :: 0 <= a < |pairs| ==> pairs[a].score <= bound
    ensures Matching(pairs, less, threshold, usedI, usedJ + {j})
    ensures Chosen(pairs, mask) <= Chosen(pairs, less) + bound
    ensures forall a :: 0 <= a < |less| && less[a] ==> mask[a]
  {
    less := DropI(Mirror(pairs), mask, threshold, usedJ, usedI, j, bound);
    MirrorChosen(pairs, mask);
    MirrorChosen(pairs, less);
  }

  // The greedy total is at least half of that of any one-to-one matching of
  // eligible pairs.
  lemma {:induction false} HalfOfAny(pairs: seq<Pair>, mask: seq<bool>, threshold: real, usedI: set<nat>, usedJ: set<nat>)
    requires Falling(pairs) && forall a :: 0 <= a < |pairs| ==> pairs[a].score >= 0.0
    requires Matching(pairs, mask, threshold, usedI, usedJ)
    ensures Chosen(pairs, mask) <= 2.0 * Score(Greedy(pairs, threshold, usedI, usedJ))
  {
    if pairs != [] {
      var p := pairs[0];
      MatchingTail(pairs, mask, threshold, usedI, usedJ);
      if p.score < threshold || p.i in usedI || p.j in usedJ {
        HalfOfAny(pairs[1..], mask[1..], threshold, usedI, usedJ);
      } else {
        var i', j' := usedI + {p.i}, usedJ + {p.j};
        if mask[0] {
          forall a | 0 < a < |pairs| && mask[a] ensures pairs[a].i != p.i && pairs[a].j != p.j {
            assert !Clash(pairs[0], pairs[a]);
          }
          HalfOfAny(pairs[1..], mask[1..], threshold, i', j');
        } else {
          var less := DropI(pairs[1..], mask[1..], threshold, usedI, usedJ, p.i, p.score);
          var least := DropJ(pairs[1..], less, threshold, i', usedJ, p.j, p.score);
          HalfOfAny(pairs[1..], least, threshold, i', j');
        }
      }
    }
  }

  // The factor cannot be improved: greedy takes 1 where 2 was possible.
  lemma HalfIsReached()
    ensures var pairs := [Pair(1.0, 1, 1), Pair(1.0, 1, 0), Pair(1.0, 0, 1), Pair(0.0, 0, 0)];
      var mask := [false, true, true, false];
      && Falling(pairs) && Matching(pairs, mask, 0.5, {}, {})
      && Chosen(pairs, mask) == 2.0 && Score(Greedy(pairs, 0.5, {}, {})) == 1.0
  {
    var p0, p1, p2, p3 := Pair(1.0, 1, 1), Pair(1.0, 1, 0), Pair(1.0, 0, 1), Pair(0.0, 0, 0);
    assert [p0, p1, p2, p3][1..] == [p1, p2, p3] && [p1, p2, p3][1..] == [p2, p3] && [p2, p3][1..] == [p3] && [p3][1..] == [];
    assert Greedy([p3], 0.5, {1}, {1}) == [];
    assert Greedy([p2, p3], 0.5, {1}, {1}) == [];
    assert Greedy([p1, p2, p3], 0.5, {1}, {1}) == [];
    assert {} + {1} == {1};
    assert Greedy([p0, p1, p2, p3], 0.5, {}, {}) == [p0] + [];
    assert [p0][1..] == [];
    assert [false, true, true, false][1..] == [true, true, false] && [true, true, false][1..] == [true, false]
        && [true, false][1..] == [false] && [false][1..] == [];
    assert Chosen([p3], [false]) == 0.0;
    assert Chosen([p2, p3], [true, false]) == 1.0;
    assert Chosen([p1, p2, p3], [true, true, false]) == 2.0;
  }
}
