// What every run of stage moves keeps.
module StageRuns {
  import opened Wrappers
  import opened Stage

  // The base presenter: who presents when no stream is live.
  function Base(v: View): Option<string> {
    if v.prev.Some? then v.prev
    else if v.presenter.Some? && !IsStream(v.presenter.value) then v.presenter
    else None
  }

  // An account of the base presenter that knows nothing of streams.
  function NextBase(base: Option<string>, move: Move): Option<string> {
    match move
    case Started(_) => base
    case Stopped(_) => base
    case BoardStart => Some(BOARD)
    case BoardEnd => if base == Some(BOARD) then None else base
    case Choose(choice) => if choice.Some? && !IsStream(choice.value) then Picked(choice) else None
  }

  // Holds after any moves whatever.
  predicate Inv(v: View) {
    && (forall k :: k in v.live ==> IsStream(k))
    && (v.presenter.Some? ==> v.presenter.value != "")
    && (v.prev.Some? ==> v.prev.value != "" && !IsStream(v.prev.value))
    && (v.prev.Some? && v.presenter.Some? ==> IsStream(v.presenter.value))
    && (v.prev.Some? && v.presenter.None? ==> v.live != [])
  }

  // Holds as well while the host only chooses live streams.
  ghost predicate LiveStage(v: View) {
    v.presenter.Some? && IsStream(v.presenter.value) ==> v.presenter.value in v.live
  }

  predicate Careful(v: View, move: Move) {
    move.Choose? && move.choice.Some? && IsStream(move.choice.value) ==> move.choice.value in v.live
  }

  const EMPTY := View(None, None, [])

  function RunFrom(v: View, moves: seq<Move>): View {
    if moves == [] then v else Next(RunFrom(v, moves[..|moves| - 1]), moves[|moves| - 1])
  }

  function BaseFrom(base: Option<string>, moves: seq<Move>): Option<string> {
    if moves == [] then base else NextBase(BaseFrom(base, moves[..|moves| - 1]), moves[|moves| - 1])
  }

  // From a room without a presenter and streams.
  function Run(moves: seq<Move>): View {
    RunFrom(EMPTY, moves)
  }

  function RunBase(moves: seq<Move>): Option<string> {
    BaseFrom(None, moves)
  }

  ghost predicate ValidMoves(moves: seq<Move>) {
    forall i :: 0 <= i < |moves| ==> moves[i].Valid()
  }

  ghost predicate StreamMoves(moves: seq<Move>) {
    forall i :: 0 <= i < |moves| ==> moves[i].Valid() && (moves[i].Started? || moves[i].Stopped?)
  }

  // Every choice of the host was a camera, the board, nobody or a live stream.
  ghost predicate CarefulFrom(v: View, moves: seq<Move>) {
    moves != [] ==>
      var front := moves[..|moves| - 1];
      CarefulFrom(v, front) && Careful(RunFrom(v, front), moves[|moves| - 1])
  }

  lemma {:induction false} WithoutIs(live: seq<string>, key: string)
    ensures forall k :: k in Without(live, key) <==> k in live && k != key
    ensures key !in live ==> Without(live, key) == live
    ensures live != [] && live[|live| - 1] != key ==>
      Without(live, key) != [] && Without(live, key)[|Without(live, key)| - 1] == live[|live| - 1]
  {
    if live != [] {
      WithoutIs(live[1..], key);
      assert live == [live[0]] + live[1..];
    }
  }

  // ------------------------------------------------------------ one move

  lemma StreamFacts()
    ensures !IsStream(BOARD) && !IsStream("")
  {
    BoardIsNoStream();
  }

  // What becomes of the live streams.
  lemma StreamLists(v: View, key: string)
    requires Inv(v)
    ensures var live := Without(v.live, key);
      && (forall k :: k in live <==> k in v.live && k != key)
      && (forall k :: k in live + [key] <==> k in v.live || k == key)
      && (live != [] ==> live[|live| - 1] in live && IsStream(live[|live| - 1]) && live[|live| - 1] != "")
  {
    WithoutIs(v.live, key);
    var live := Without(v.live, key);
    assert live != [] ==> live[|live| - 1] in live;
  }

  // What each move does to a live stage: a choice keeps or restores it exactly
  // when the host is careful, a start always does, a stop does when it is of
  // the stream on the stage, and the board has no say.
  lemma LiveStageStep(v: View, move: Move)
    requires Inv(v) && move.Valid()
    ensures LiveStage(Next(v, move)) <==>
      match move
      case Choose(_) => Careful(v, move)
      case Started(_) => true
      case Stopped(key) => LiveStage(v) || v.presenter == Some(key)
      case _ => LiveStage(v)
  {
    hide IsStream, Without;
    StreamFacts();
    match move
    case Started(key) => StreamLists(v, key);
    case Stopped(key) => StreamLists(v, key);
    case _ =>
  }

  lemma StepInv(v: View, move: Move)
    requires Inv(v) && move.Valid()
    ensures Inv(Next(v, move))
  {
    hide IsStream, Without;
    StreamFacts();
    match move
    case Started(key) => StreamLists(v, key);
    case Stopped(key) => StreamLists(v, key);
    case _ =>
  }

  lemma StepBase(v: View, move: Move)
    requires Inv(v) && move.Valid()
    ensures Base(Next(v, move)) == NextBase(Base(v), move)
  {
    hide IsStream, Without;
    StreamFacts();
    match move
    case Started(key) => StreamLists(v, key);
    case Stopped(key) => StreamLists(v, key);
    case _ =>
  }

  lemma StepKeeps(v: View, move: Move)
    requires Inv(v) && move.Valid()
    ensures Inv(Next(v, move))
    ensures Base(Next(v, move)) == NextBase(Base(v), move)
    ensures LiveStage(v) && Careful(v, move) ==> LiveStage(Next(v, move))
  {
    hide Inv, Base, Next, LiveStage;
    StepInv(v, move);
    StepBase(v, move);
    LiveStageStep(v, move);
  }

  // A stop repeated changes nothing.
  lemma StopIsIdempotent(v: View, key: string)
    requires Inv(v) && IsStream(key)
    ensures Next(Next(v, Stopped(key)), Stopped(key)) == Next(v, Stopped(key))
  {
    WithoutIs(v.live, key);
    WithoutIs(Without(v.live, key), key);
  }

  // ------------------------------------------------------------ runs

  // Whatever happens, the base presenter is what the account without streams
  // says, and with no stream live the presenter is the base exactly when the
  // stage is live.
  lemma {:induction false} RunKeeps(v: View, moves: seq<Move>)
    requires Inv(v) && ValidMoves(moves)
    ensures var v' := RunFrom(v, moves);
      && Inv(v')
      && Base(v') == BaseFrom(Base(v), moves)
      && (v'.live == [] ==> (v'.presenter == Base(v') <==> LiveStage(v')))
      && (LiveStage(v) && CarefulFrom(v, moves) ==> LiveStage(v'))
  {
    if moves != [] {
      var front, last := moves[..|moves| - 1], moves[|moves| - 1];
      RunKeeps(v, front);
      StepKeeps(RunFrom(v, front), last);
    }
  }

  // If the host only chooses live streams, the presenter is the base presenter
  // whenever no stream is live.
  lemma BaseComesBack(moves: seq<Move>)
    requires ValidMoves(moves) && CarefulFrom(EMPTY, moves) && Run(moves).live == []
    ensures Run(moves).presenter == RunBase(moves)
  {
    RunKeeps(EMPTY, moves);
  }

  // The base presenter is sure to come back exactly when the stage is live:
  // when no stream is on it that nobody sends.
  lemma ComesBackExactly(v: View)
    requires Inv(v)
    ensures LiveStage(v) <==>
      forall streams :: StreamMoves(streams) && RunFrom(v, streams).live == [] ==> RunFrom(v, streams).presenter == Base(v)
  {
    if LiveStage(v) {
      forall streams | StreamMoves(streams) && RunFrom(v, streams).live == []
        ensures RunFrom(v, streams).presenter == Base(v)
      {
        RunKeeps(v, streams);
        StreamsKeepBase(v, streams);
      }
    } else {
      var stops := StopAll(v, v.presenter.value);
      assert RunFrom(v, stops).presenter == v.presenter != Base(v);
    }
  }

  // Whether the host's choice leaves it so can be told before the choice: the
  // chosen key must not be a stream that is not live.
  lemma ChoiceKeepsExactly(v: View, choice: Option<string>)
    requires Inv(v)
    ensures var v' := Next(v, Choose(choice));
      Careful(v, Choose(choice)) <==>
        forall streams :: StreamMoves(streams) && RunFrom(v', streams).live == [] ==> RunFrom(v', streams).presenter == Base(v')
  {
    var v' := Next(v, Choose(choice));
    StepKeeps(v, Choose(choice));
    LiveStageStep(v, Choose(choice));
    ComesBackExactly(v');
  }

  // After a choice of a stream that is not live, the streams that are live need
  // only stop, and the presenter is a stream nobody sends while the base
  // presenter is nobody.
  lemma DeadChoiceSticks(moves: seq<Move>, key: string) returns (more: seq<Move>)
    requires ValidMoves(moves) && IsStream(key) && key !in Run(moves).live
    ensures var v := Next(Run(moves), Choose(Some(key)));
      && StreamMoves(more) && (forall i :: 0 <= i < |more| ==> more[i].Stopped?)
      && RunFrom(v, more).live == [] && RunFrom(v, more).presenter == Some(key) && Base(RunFrom(v, more)) == None
  {
    RunKeeps(EMPTY, moves);
    var v := Next(Run(moves), Choose(Some(key)));
    StepKeeps(Run(moves), Choose(Some(key)));
    more := StopAll(v, key);
    StreamsKeepBase(v, more);
  }

  lemma {:induction false} StopAll(v: View, key: string) returns (more: seq<Move>)
    requires Inv(v) && v.presenter == Some(key) && key !in v.live && IsStream(key)
    ensures StreamMoves(more) && forall i :: 0 <= i < |more| ==> more[i].Stopped?
    ensures RunFrom(v, more).live == [] && RunFrom(v, more).presenter == Some(key)
    decreases |v.live|
  {
    hide IsStream, Without, NextBase, Base;
    if v.live == [] {
      more := [];
    } else {
      var stop := Stopped(v.live[0]);
      StopOther(v, key, v.live[0]);
      StepKeeps(v, stop);
      var rest := StopAll(Next(v, stop), key);
      RunCons(v, stop, rest);
      more := [stop] + rest;
    }
  }

  lemma {:induction false} RunCons(v: View, move: Move, moves: seq<Move>)
    ensures RunFrom(v, [move] + moves) == RunFrom(Next(v, move), moves)
    decreases |moves|
  {
    var all := [move] + moves;
    if moves == [] {
      assert all[..0] == [];
    } else {
      assert all[..|all| - 1] == [move] + moves[..|moves| - 1];
      RunCons(v, move, moves[..|moves| - 1]);
    }
  }

  lemma StopOther(v: View, key: string, other: string)
    requires v.presenter == Some(key) && key !in v.live && other in v.live
    ensures var v' := Next(v, Stopped(other));
      && v'.presenter == Some(key) && key !in v'.live && |v'.live| < |v.live|
  {
    WithoutIs(v.live, other);
    WithoutShrinks(v.live, other);
  }

  lemma {:induction false} WithoutShrinks(live: seq<string>, key: string)
    ensures |Without(live, key)| <= |live|
    ensures key in live ==> |Without(live, key)| < |live|
  {
    if live != [] {
      WithoutShrinks(live[1..], key);
    }
  }

  // Between two moments without live streams, whatever streams came and went,
  // the presenter is the same.
  lemma PresenterReturns(v: View, streams: seq<Move>)
    requires Inv(v) && LiveStage(v) && StreamMoves(streams)
    requires v.live == [] && RunFrom(v, streams).live == []
    ensures RunFrom(v, streams).presenter == v.presenter
  {
    StreamsKeepBase(v, streams);
    RunKeeps(v, streams);
  }

  lemma {:induction false} StreamsKeepBase(v: View, streams: seq<Move>)
    requires Inv(v) && StreamMoves(streams)
    ensures Base(RunFrom(v, streams)) == Base(v)
    ensures CarefulFrom(v, streams)
  {
    hide Base;
    if streams != [] {
      var front := streams[..|streams| - 1];
      StreamsKeepBase(v, front);
      RunKeeps(v, front);
      StepKeeps(RunFrom(v, front), streams[|streams| - 1]);
    }
  }

  // Unless the host interferes, a stream on the stage is the most recently
  // started one that is still live.
  ghost predicate Newest(v: View) {
    v.presenter.Some? && IsStream(v.presenter.value) ==>
      v.live != [] && v.presenter.value == v.live[|v.live| - 1]
  }

  lemma {:induction false} NewestStreamPresents(v: View, moves: seq<Move>)
    requires Inv(v) && Newest(v) && ValidMoves(moves)
    requires forall i :: 0 <= i < |moves| ==> !moves[i].Choose?
    ensures Newest(RunFrom(v, moves))
  {
    hide Newest, Inv, Next, NextBase, Base;
    if moves != [] {
      var front, last := moves[..|moves| - 1], moves[|moves| - 1];
      NewestStreamPresents(v, front);
      RunKeeps(v, front);
      NewestStep(RunFrom(v, front), last);
    }
  }

  lemma NewestStep(v: View, move: Move)
    requires Inv(v) && Newest(v) && move.Valid() && !move.Choose?
    ensures Newest(Next(v, move))
  {
    hide Without, EndsWith;
    BoardIsNoStream();
    if move.Started? || move.Stopped? {
      WithoutIs(v.live, move.key);
    }
    hide IsStream;
  }

  // ------------------------------------------------------------ which streams, who presents

  // One move: which streams are live.
  lemma LiveStep(v: View, move: Move, k: string)
    ensures k in Next(v, move).live <==>
      match move
      case Started(key) => k == key || k in v.live
      case Stopped(key) => k != key && k in v.live
      case _ => k in v.live
  {
    hide IsStream;
    if move.Started? || move.Stopped? {
      WithoutIs(v.live, move.key);
    }
  }

  // A stream holds the stage, by name or because nobody else does.
  predicate StreamHolds(v: View) {
    if v.presenter.Some? then IsStream(v.presenter.value) else v.live != []
  }

  // One move: who presents.  With Base and the live streams that is all there is
  // to a stage (StageIs).
  lemma PresenterStep(v: View, move: Move)
    requires Inv(v) && move.Valid()
    ensures var v' := Next(v, move);
      match move
      case Started(key) => v'.presenter == if v.presenter.None? then None else Some(key)
      case Stopped(key) =>
        if v.presenter.Some? && v.presenter != Some(key) then v'.presenter == v.presenter
        else if v'.live == [] then v'.presenter == Base(v)
        else v'.presenter == if v.presenter.None? then None else Some(v'.live[|v'.live| - 1])
      case BoardStart => v'.presenter == if StreamHolds(v) then v.presenter else Some(BOARD)
      case BoardEnd => v'.presenter == if v.presenter == Some(BOARD) then None else v.presenter
      case Choose(choice) => v'.presenter == if choice == Some("") then None else choice
  {
    hide IsStream, Without;
    StreamFacts();
    if move.Started? || move.Stopped? {
      StreamLists(v, move.key);
    }
  }

  lemma StageIs(v: View, v': View)
    requires Inv(v) && Inv(v')
    requires v.presenter == v'.presenter && v.live == v'.live && Base(v) == Base(v')
    ensures v == v'
  {
  }

  // The last start or stop of a stream was a start, the i-th move.
  ghost predicate StartedLast(moves: seq<Move>, key: string, i: nat) {
    && i < |moves| && moves[i] == Started(key)
    && forall j :: i < j < |moves| ==> moves[j] != Started(key) && moves[j] != Stopped(key)
  }

  ghost predicate InOrderOfStart(moves: seq<Move>, live: seq<string>) {
    forall a, b, i: nat, j: nat :: 0 <= a < b < |live| && StartedLast(moves, live[a], i) && StartedLast(moves, live[b], j) ==> i < j
  }

  lemma StartedStays(moves: seq<Move>, move: Move, key: string, i: nat)
    ensures StartedLast(moves + [move], key, i) <==>
      if move == Started(key) then i == |moves| else move != Stopped(key) && StartedLast(moves, key, i)
  {
    var all := moves + [move];
    assert all[|moves|] == move;
    assert forall j :: 0 <= j < |moves| ==> all[j] == moves[j];
  }

  lemma {:induction false} WithoutOrder(live: seq<string>, key: string, a: nat, b: nat)
    requires a < b < |Without(live, key)|
    ensures exists c, d :: 0 <= c < d < |live| && live[c] == Without(live, key)[a] && live[d] == Without(live, key)[b]
  {
    var rest := Without(live[1..], key);
    if live[0] == key || a > 0 {
      var shift := if live[0] == key then 0 else 1;
      WithoutOrder(live[1..], key, a - shift, b - shift);
      var c, d :| 0 <= c < d < |live[1..]| && live[1..][c] == rest[a - shift] && live[1..][d] == rest[b - shift];
      assert live[c + 1] == live[1..][c] && live[d + 1] == live[1..][d];
    } else {
      WithoutIs(live[1..], key);
      assert rest[b - 1] in rest;
      var d :| 0 <= d < |live[1..]| && live[1..][d] == rest[b - 1];
      assert live[d + 1] == live[1..][d];
    }
  }

  function LiveAfter(live: seq<string>, move: Move): seq<string> {
    if move.Started? then Without(live, move.key) + [move.key]
    else if move.Stopped? then Without(live, move.key)
    else live
  }

  lemma OrderStep(moves: seq<Move>, move: Move, live: seq<string>)
    requires InOrderOfStart(moves, live)
    ensures InOrderOfStart(moves + [move], LiveAfter(live, move))
  {
    var next := LiveAfter(live, move);
    forall a, b, i: nat, j: nat | 0 <= a < b < |next| && StartedLast(moves + [move], next[a], i) && StartedLast(moves + [move], next[b], j)
      ensures i < j
    {
      StartedStays(moves, move, next[a], i);
      StartedStays(moves, move, next[b], j);
      if move.Started? || move.Stopped? {
        WithoutIs(live, move.key);
        assert forall c :: 0 <= c < |Without(live, move.key)| ==> Without(live, move.key)[c] in Without(live, move.key);
        if b < |Without(live, move.key)| {
          WithoutOrder(live, move.key, a, b);
        }
      }
    }
  }

  lemma LiveList(v: View, move: Move)
    ensures Next(v, move).live == LiveAfter(v.live, move)
  {
  }

  // In every run a stream is live exactly if its last start or stop was a start,
  // and the live streams stand in the order in which they were last started.
  lemma {:induction false} LiveOfARun(moves: seq<Move>)
    ensures forall k :: k in Run(moves).live <==> exists i :: StartedLast(moves, k, i)
    ensures InOrderOfStart(moves, Run(moves).live)
  {
    hide Next;
    if moves != [] {
      var front, last := moves[..|moves| - 1], moves[|moves| - 1];
      LiveOfARun(front);
      var v := Run(front);
      LiveList(v, last);
      OrderStep(front, last, v.live);
      assert moves == front + [last];
      hide InOrderOfStart;
      forall k ensures k in Run(moves).live <==> exists i :: StartedLast(moves, k, i) {
        LiveStep(v, last, k);
        forall i: nat
          ensures StartedLast(moves, k, i) <==>
            if last == Started(k) then i == |front| else last != Stopped(k) && StartedLast(front, k, i)
        {
          StartedStays(front, last, k, i);
        }
        if last == Started(k) {
          assert StartedLast(moves, k, |front|);
        } else if last != Stopped(k) && k in v.live {
          var i: nat :| StartedLast(front, k, i);
          assert StartedLast(moves, k, i);
        }
      }
    }
  }

  // So none stands twice.
  lemma LiveOnce(moves: seq<Move>, a: nat, b: nat)
    requires a < b < |Run(moves).live|
    ensures Run(moves).live[a] != Run(moves).live[b]
  {
    LiveOfARun(moves);
    var live := Run(moves).live;
    assert live[a] in live;
    var i :| StartedLast(moves, live[a], i);
  }

  // When the stream on the stage stops, the stage goes to the most recently
  // started stream that is still live, or to the base presenter if there is none.
  lemma NewestTakesOver(moves: seq<Move>, key: string)
    requires ValidMoves(moves) && IsStream(key) && Run(moves).presenter == Some(key)
    ensures var after := moves + [Stopped(key)]; var presenter := Run(after).presenter;
      && (forall k: string, i: nat :: StartedLast(after, k, i) ==>
            exists j: nat :: presenter.Some? && StartedLast(after, presenter.value, j) && i <= j)
      && ((forall k: string, i: nat :: !StartedLast(after, k, i)) ==> presenter == RunBase(moves))
  {
    hide Next, Base, NextBase, IsStream, Inv;
    var after := moves + [Stopped(key)];
    assert after[..|moves|] == moves;
    RunKeeps(EMPTY, moves);
    LiveOfARun(after);
    var v, v' := Run(moves), Run(after);
    PresenterStep(v, Stopped(key));
    assert BaseFrom(Base(EMPTY), moves) == RunBase(moves) by {
      EmptyBase();
    }
    assert forall k: string, i: nat :: StartedLast(after, k, i) ==> k in v'.live;
    if v'.live == [] {
      assert v'.presenter == RunBase(moves);
    } else {
      var n := |v'.live| - 1;
      assert v'.live[n] in v'.live;
      var j :| StartedLast(after, v'.live[n], j);
      forall k: string, i: nat | StartedLast(after, k, i)
        ensures StartedLast(after, v'.live[n], j) && i <= j
      {
        assert k in v'.live;
        var a :| 0 <= a < |v'.live| && v'.live[a] == k;
        if a == n {
          OneStart(after, k, i, j);
        }
      }
    }
  }

  lemma OneStart(moves: seq<Move>, key: string, i: nat, j: nat)
    requires StartedLast(moves, key, i) && StartedLast(moves, key, j)
    ensures i == j
  {
  }

  lemma EmptyBase()
    ensures Base(EMPTY) == None && Inv(EMPTY)
  {
  }
}
