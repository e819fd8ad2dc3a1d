// The two searches for repetition loops (meetpp-speech and meetpp-agent), on
// word lists: the same words, n at a time, back to back.
module Repetition {
  import opened Wrappers

  type Words = seq<string>

  // w[i..] starts with c copies of a block of n words: what "repeated back to
  // back" means, said without blocks.
  ghost predicate Repeats(w: Words, i: nat, n: nat, c: nat) {
    && i + c * n <= |w|
    && forall k :: i <= k < i + (c - 1) * n ==> w[k] == w[k + n]
  }

  // How many copies of gram stand at j, at j + |gram|, ...
  function CopiesFrom(w: Words, gram: Words, j: nat): nat
    requires gram != []
    decreases |w| - j
  {
    if j + |gram| <= |w| && w[j..j + |gram|] == gram then 1 + CopiesFrom(w, gram, j + |gram|) else 0
  }

  // Copies of the block of n words at i, itself included.
  function Copies(w: Words, i: nat, n: nat): nat
    requires n > 0
  {
    if i + n <= |w| then CopiesFrom(w, w[i..i + n], i) else 0
  }

  lemma {:induction false} CopiesFromRepeats(w: Words, i: nat, n: nat, c: nat)
    requires n > 0 && c > 0 && i + n <= |w|
    ensures CopiesFrom(w, w[i..i + n], i) >= c <==> Repeats(w, i, n, c)
    decreases c
  {
    var gram := w[i..i + n];
    if c == 1 {
      assert (c - 1) * n == 0 && c * n == n;
    } else {
      Multiples(c, n);
      assert CopiesFrom(w, gram, i) == 1 + CopiesFrom(w, gram, i + n);
      if i + n + n <= |w| {
        var next := w[i + n..i + n + n];
        if next == gram {
          CopiesFromRepeats(w, i + n, n, c - 1);
          ShiftRepeats(w, i, n, c);
        } else {
          var k :| 0 <= k < n && next[k] != gram[k];
          assert w[i + k] != w[i + k + n];
        }
      }
    }
  }

  lemma Multiples(c: nat, n: nat)
    requires c >= 2 && n > 0
    ensures c * n == (c - 1) * n + n && (c - 1) * n == (c - 2) * n + n && (c - 2) * n >= 0
  {
    assert (c - 1) * n == (c - 2) * n + n;
  }

  // One copy more in front of the same block.
  lemma ShiftRepeats(w: Words, i: nat, n: nat, c: nat)
    requires n > 0 && c >= 2 && i + n + n <= |w| && w[i..i + n] == w[i + n..i + n + n]
    ensures Repeats(w, i + n, n, c - 1) <==> Repeats(w, i, n, c)
  {
    Multiples(c, n);
    forall k | i <= k < i + n ensures w[k] == w[k + n] {
      assert w[k] == w[i..i + n][k - i];
      assert w[k + n] == w[i + n..i + n + n][k - i];
    }
  }

  // The copies counted are the most for which the words repeat.
  lemma CopiesMeans(w: Words, i: nat, n: nat, c: nat)
    requires n > 0 && c > 0
    ensures Copies(w, i, n) >= c <==> Repeats(w, i, n, c)
  {
    if i + n <= |w| {
      CopiesFromRepeats(w, i, n, c);
    } else {
      assert c * n >= n by { Atleast(c, n); }
    }
  }

  lemma Atleast(c: nat, n: nat)
    requires c > 0
    ensures c * n >= n
  {
    assert (c - 1) * n >= 0;
  }

  // ------------------------------------------------------------ meetpp-speech

  // n-gram length and the number of copies that make a loop, by length.
  datatype Rule = Rule(n: nat, need: nat)

  const MIN_REPEATS: seq<Rule> := [Rule(1, 8), Rule(2, 6), Rule(3, 4), Rule(4, 4), Rule(5, 4), Rule(6, 4)]

  predicate ValidRules(rules: seq<Rule>) {
    && (forall r :: 0 <= r < |rules| ==> rules[r].n > 0 && rules[r].need > 0)
    && (forall r, s :: 0 <= r < s < |rules| ==> rules[r].n < rules[s].n)
  }

  ghost predicate LoopAt(w: Words, i: nat, rule: Rule)
    requires rule.n > 0
  {
    Copies(w, i, rule.n) >= rule.need
  }

  ghost predicate NoLoop(w: Words, rules: seq<Rule>)
    requires ValidRules(rules)
  {
    forall r, i: nat :: 0 <= r < |rules| ==> !LoopAt(w, i, rules[r])
  }

  datatype Loop = Loop(start: nat, n: nat, repeats: nat)

  // The earliest loop, the shortest n-gram among those, and all its copies.
  ghost predicate Earliest(w: Words, rules: seq<Rule>, count: nat, loop: Loop)
    requires ValidRules(rules) && count <= |rules|
  {
    && (exists r :: 0 <= r < count && loop.n == rules[r].n && LoopAt(w, loop.start, rules[r]))
    && loop.n > 0 && loop.repeats == Copies(w, loop.start, loop.n)
    && (forall r, i: nat :: 0 <= r < count && LoopAt(w, i, rules[r]) ==>
          loop.start <= i && (i == loop.start ==> loop.n <= rules[r].n))
  }

  // A loop needs room for its copies.
  lemma LoopFits(w: Words, i: nat, rule: Rule)
    requires rule.n > 0 && rule.need > 0 && LoopAt(w, i, rule)
    ensures i + rule.n * rule.need <= |w|
  {
    CopiesMeans(w, i, rule.n, rule.need);
    assert rule.n * rule.need == rule.need * rule.n;
  }

  lemma RoomNeeded(w: Words, i: nat, rule: Rule)
    requires rule.n > 0 && rule.need > 0 && LoopAt(w, i, rule)
    ensures i < |w|
  {
    LoopFits(w, i, rule);
    Atleast(rule.need, rule.n);
    assert rule.n * rule.need == rule.need * rule.n;
  }

  method CountCopies(w: Words, i: nat, n: nat) returns (reps: nat)
    requires n > 0 && i + n <= |w|
    ensures reps == Copies(w, i, n)
  {
    var gram := w[i..i + n];
    reps := 1;
    var j := i + n;
    while j + n <= |w| && w[j..j + n] == gram
      invariant j <= |w| && reps + CopiesFrom(w, gram, j) == Copies(w, i, n)
      decreases |w| - j
    {
      reps := reps + 1;
      j := j + n;
    }
  }

  // detect_repetition: finds a loop exactly when there is one, and then the
  // earliest, with the shortest n-gram and all its copies.
  method Detect(w: Words, rules: seq<Rule>) returns (best: Option<Loop>)
    requires ValidRules(rules)
    ensures best.None? <==> NoLoop(w, rules)
    ensures best.Some? ==> Earliest(w, rules, |rules|, best.value)
  {
    best := None;
    var r := 0;
    while r < |rules|
      invariant r <= |rules|
      invariant Sofar(w, rules, r, best)
    {
      var found := FirstAt(w, rules[r], best);
      if found.Some? {
        assert found.value.n == rules[r].n;
        best := found;
      }
      r := r + 1;
    }
    if best.Some? {
      ghost var s :| 0 <= s < |rules| && best.value.n == rules[s].n && LoopAt(w, best.value.start, rules[s]);
    }
  }

  // The first loop of one rule before the best start so far.
  method FirstAt(w: Words, rule: Rule, best: Option<Loop>) returns (found: Option<Loop>)
    requires rule.n > 0 && rule.need > 0
    ensures match found
      case None => forall i: nat :: LoopAt(w, i, rule) ==> best.Some? && best.value.start <= i
      case Some(l) =>
        && LoopAt(w, l.start, rule) && l.n == rule.n && l.repeats == Copies(w, l.start, l.n)
        && (best.Some? ==> l.start < best.value.start)
        && (forall i: nat :: LoopAt(w, i, rule) ==> l.start <= i)
  {
    forall i: nat | LoopAt(w, i, rule) ensures i + rule.n * rule.need <= |w| {
      LoopFits(w, i, rule);
    }
    if rule.n * rule.need > |w| {
      return None;
    }
    var i: nat := 0;
    var last := |w| - rule.n * rule.need;
    Atleast(rule.need, rule.n);
    assert rule.n * rule.need == rule.need * rule.n;
    while i <= last
      invariant i <= last + 1
      invariant forall k: nat :: k < i ==> !LoopAt(w, k, rule)
      decreases last + 1 - i
    {
      if best.Some? && i >= best.value.start {
        return None;
      }
      var reps := CountCopies(w, i, rule.n);
      if reps >= rule.need {
        return Some(Loop(i, rule.n, reps));
      }
      i := i + 1;
    }
    return None;
  }

  ghost predicate Sofar(w: Words, rules: seq<Rule>, count: nat, best: Option<Loop>)
    requires ValidRules(rules) && count <= |rules|
  {
    match best
    case None => forall s, i: nat :: 0 <= s < count ==> !LoopAt(w, i, rules[s])
    case Some(l) => Earliest(w, rules, count, l)
  }

  // ------------------------------------------------------------ the cut text

  // The words before the loop contain no loop: detection on the cut text
  // finds nothing.
  lemma CutIsClean(w: Words, rules: seq<Rule>, loop: Loop)
    requires ValidRules(rules) && Earliest(w, rules, |rules|, loop) && loop.start <= |w|
    ensures NoLoop(w[..loop.start], rules)
  {
    forall r, i: nat | 0 <= r < |rules| ensures !LoopAt(w[..loop.start], i, rules[r]) {
      if LoopAt(w[..loop.start], i, rules[r]) {
        RoomNeeded(w[..loop.start], i, rules[r]);
        LoopInPrefix(w, loop.start, i, rules[r]);
      }
    }
  }

  lemma LoopInPrefix(w: Words, end: nat, i: nat, rule: Rule)
    requires rule.n > 0 && rule.need > 0 && end <= |w| && LoopAt(w[..end], i, rule)
    ensures LoopAt(w, i, rule)
  {
    CopiesMeans(w[..end], i, rule.n, rule.need);
    CopiesMeans(w, i, rule.n, rule.need);
    var p := w[..end];
    Atleast(rule.need, rule.n);
    assert rule.need * rule.n == (rule.need - 1) * rule.n + rule.n;
    forall k | i <= k < i + (rule.need - 1) * rule.n ensures w[k] == w[k + rule.n] {
      assert p[k] == p[k + rule.n];
    }
  }

  // ------------------------------------------------------------ meetpp-agent

  // min_n..max_n at min_repeats copies, and one or two words at eight.
  function Checks(minN: nat, maxN: nat, minRepeats: nat): seq<Rule>
    decreases maxN + 1 - minN
  {
    if minN > maxN then [Rule(1, 8), Rule(2, 8)] else [Rule(minN, minRepeats)] + Checks(minN + 1, maxN, minRepeats)
  }

  const DEFAULT_CHECKS: seq<Rule> := [Rule(3, 4), Rule(4, 4), Rule(5, 4), Rule(6, 4), Rule(1, 8), Rule(2, 8)]

  // The guard only answers inside the copying loop, so a check that asks for
  // fewer than two copies asks for two.
  function Asked(rule: Rule): Rule {
    Rule(rule.n, Max(2, rule.need))
  }

  ghost predicate Flagged(w: Words, checks: seq<Rule>) {
    exists r, i: nat :: 0 <= r < |checks| && checks[r].n > 0 && LoopAt(w, i, Asked(checks[r]))
  }

  // has_repetition_loop
  method HasLoop(w: Words, checks: seq<Rule>) returns (found: bool)
    requires forall r :: 0 <= r < |checks| ==> checks[r].n > 0
    ensures found <==> Flagged(w, checks)
  {
    var r := 0;
    while r < |checks|
      invariant r <= |checks|
      invariant forall s, i: nat :: 0 <= s < r ==> !LoopAt(w, i, Asked(checks[s]))
    {
      var here := HasLoopOf(w, checks[r]);
      if here {
        return true;
      }
      r := r + 1;
    }
    return false;
  }

  method HasLoopOf(w: Words, rule: Rule) returns (found: bool)
    requires rule.n > 0
    ensures found <==> exists i: nat :: LoopAt(w, i, Asked(rule))
  {
    ghost var asked := Asked(rule);
    Fewer(rule.need, asked.need, rule.n);
    forall i: nat | LoopAt(w, i, asked) ensures i + rule.n * rule.need <= |w| {
      LoopFits(w, i, asked);
    }
    if |w| < rule.n * rule.need {
      return false;
    }
    var i: nat := 0;
    var last := |w| - rule.n * rule.need;
    assert 0 <= rule.n * rule.need;
    while i <= last
      invariant i <= last + 1
      invariant forall k: nat :: k < i ==> !LoopAt(w, k, asked)
      decreases last + 1 - i
    {
      var here := HasLoopFrom(w, i, rule);
      if here {
        return true;
      }
      i := i + 1;
    }
    return false;
  }

  // The copying loop at one position.
  method HasLoopFrom(w: Words, i: nat, rule: Rule) returns (found: bool)
    requires rule.n > 0 && i <= |w|
    ensures found <==> LoopAt(w, i, Asked(rule))
  {
    var gram := w[i..Min(i + rule.n, |w|)];
    var k := 1;
    var j := i + rule.n;
    while j + rule.n <= |w| && w[j..j + rule.n] == gram
      invariant i + rule.n <= |w| ==> j <= |w| && k + CopiesFrom(w, gram, j) == Copies(w, i, rule.n)
      invariant i + rule.n > |w| ==> j > |w|
      invariant k < Asked(rule).need
      decreases |w| - j
    {
      k := k + 1;
      if k >= rule.need {
        return true;
      }
      j := j + rule.n;
    }
    return false;
  }

  lemma Fewer(a: nat, b: nat, n: nat)
    requires a <= b
    ensures n * a <= n * b
  {
    assert n * b == n * a + n * (b - a);
  }

  lemma DefaultChecks()
    ensures Checks(3, 6, 4) == DEFAULT_CHECKS
  {
    assert Checks(7, 6, 4) == [Rule(1, 8), Rule(2, 8)];
    assert Checks(6, 6, 4) == [Rule(6, 4), Rule(1, 8), Rule(2, 8)];
    assert Checks(5, 6, 4) == [Rule(5, 4), Rule(6, 4), Rule(1, 8), Rule(2, 8)];
    assert Checks(4, 6, 4) == [Rule(4, 4), Rule(5, 4), Rule(6, 4), Rule(1, 8), Rule(2, 8)];
  }

  // A loop the service finds, other than two words repeated six or seven times.
  ghost predicate LongLoop(w: Words, r: nat, i: nat) {
    r < |MIN_REPEATS| && LoopAt(w, i, MIN_REPEATS[r]) && (MIN_REPEATS[r].n == 2 ==> Copies(w, i, 2) >= 8)
  }

  // On the same words, with the default rules of both services: the agent
  // flags a loop exactly when the service finds a long one.
  lemma ServicesAgree(w: Words)
    ensures Flagged(w, DEFAULT_CHECKS) <==> exists r, i :: LongLoop(w, r, i)
  {
    if Flagged(w, DEFAULT_CHECKS) {
      var r, i: nat :| 0 <= r < |DEFAULT_CHECKS| && DEFAULT_CHECKS[r].n > 0 && LoopAt(w, i, Asked(DEFAULT_CHECKS[r]));
      assert LongLoop(w, if r < 4 then r + 2 else r - 4, i);
    }
    if s, i :| LongLoop(w, s, i) {
      var r := if s < 2 then s + 4 else s - 2;
      assert DEFAULT_CHECKS[r].n > 0 && LoopAt(w, i, Asked(DEFAULT_CHECKS[r]));
    }
  }

  // So whatever the agent would flag the service has cut, and a text the
  // service cut passes the agent's guard.
  lemma CutPassesGuard(w: Words, loop: Loop)
    requires Earliest(w, MIN_REPEATS, |MIN_REPEATS|, loop) && loop.start <= |w|
    ensures !Flagged(w[..loop.start], DEFAULT_CHECKS)
  {
    CutIsClean(w, MIN_REPEATS, loop);
    ServicesAgree(w[..loop.start]);
  }

  lemma FlaggedIsFound(w: Words)
    requires NoLoop(w, MIN_REPEATS)
    ensures !Flagged(w, DEFAULT_CHECKS)
  {
    ServicesAgree(w);
  }
}
