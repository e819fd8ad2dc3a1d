// The stage under concurrency: stage moves (and patches of other fields) from
// any number of clients through patch_room_metadata.
module StageRoom {
  import opened Wrappers
  import opened Stage
  import StageRuns
  import opened RoomPatch

  // The stage fields are the same in both.
  predicate SameStage(md: Doc, md': Doc) {
    forall k :: k in [PRESENTER, PREV, STREAMS] ==>
      (k in md <==> k in md') && (k in md ==> md[k] == md'[k])
  }

  // Other fields first (what they become may depend on the document, as the
  // meetpp field is merged with what it holds), then perhaps a stage move; a
  // bare move skips its write when it returns False, everything else always
  // writes.
  datatype AnyPatch = AnyPatch(others: Doc -> Doc, move: Option<Move>, always: bool)
  {
    ghost predicate Valid() {
      && (forall md :: SameStage(md, others(md)))
      && (move.Some? ==> move.value.Valid())
      && (!always ==> forall md :: others(md) == md)
    }
  }

  type Patch = p: AnyPatch | p.Valid() witness AnyPatch(md => md, None, true)

  function ApplyPatch(patch: Patch, md: Doc): (Doc, bool) {
    var md1 := patch.others(md);
    if patch.move.None? then (md1, patch.always)
    else
      var (md2, changed) := Apply(md1, patch.move.value);
      (md2, patch.always || changed)
  }

  const PATCHING: Patching<Patch, Doc> := Patching(map[], ApplyPatch)

  predicate Ok(md: Doc) { Typed(md) && Clean(md) }

  function NextView(v: View, move: Option<Move>): View {
    if move.Some? then Next(v, move.value) else v
  }

  lemma PatchKeeps(patch: Patch, md: Doc)
    requires Ok(md)
    ensures var (md', write) := ApplyPatch(patch, md);
      && Ok(md') && ViewOf(md') == NextView(ViewOf(md), patch.move)
      && Becomes(patch.others(md), md', NextView(ViewOf(md), patch.move))
      && (!write ==> md' == md)
  {
    var md1 := patch.others(md);
    assert SameStage(md, md1) && forall k :: k in [PRESENTER, PREV, STREAMS] <==> k == PRESENTER || k == PREV || k == STREAMS;
    LiveKept(md, md1);
    if patch.move.Some? {
      var move := patch.move.value;
      ApplyMeans(md1, move);
      if !Apply(md1, move).1 {
        FalseMeansUnchanged(md1, move);
      }
    }
  }

  lemma PatchesAreHonest()
    ensures Honest(PATCHING, Ok)
  {
    forall patch: Patch, md: Doc {:trigger PATCHING.apply(patch, md)} | Ok(md)
      ensures var (next, write) := PATCHING.apply(patch, md); Ok(next) && (!write ==> next == md)
    {
      PatchKeeps(patch, md);
    }
  }

  // The stage moves of the log, in lock order.
  function Moves(log: seq<Entry<Patch, Doc>>): seq<Move> {
    if log == [] then []
    else
      var move := log[|log| - 1].change.move;
      Moves(log[..|log| - 1]) + if move.Some? then [move.value] else []
  }

  lemma {:induction false} ViewOfAll(start: Doc, log: seq<Entry<Patch, Doc>>)
    requires Ok(start)
    ensures var md := All(PATCHING, start, log);
      Ok(md) && ViewOf(md) == StageRuns.RunFrom(ViewOf(start), Moves(log)) && StageRuns.ValidMoves(Moves(log))
  {
    hide ApplyPatch, ViewOf, Next, Ok, StageRuns.ValidMoves;
    if log == [] {
      NoMoves(ViewOf(start));
    } else {
      var front, change := log[..|log| - 1], log[|log| - 1].change;
      ViewOfAll(start, front);
      PatchKeeps(change, All(PATCHING, start, front));
      OneMoreMove(ViewOf(start), Moves(front), change);
    }
  }

  lemma NoMoves(v: View)
    ensures StageRuns.RunFrom(v, []) == v && StageRuns.ValidMoves([])
  {
  }

  lemma OneMoreMove(v: View, moves: seq<Move>, patch: Patch)
    requires StageRuns.ValidMoves(moves)
    ensures var moves' := moves + if patch.move.Some? then [patch.move.value] else [];
      StageRuns.ValidMoves(moves') && StageRuns.RunFrom(v, moves') == NextView(StageRuns.RunFrom(v, moves), patch.move)
  {
    hide Next;
    if patch.move.Some? {
      assert (moves + [patch.move.value])[..|moves|] == moves;
    } else {
      assert moves + [] == moves;
    }
  }

  // After any interleaving of any clients in which nothing stale was stored (by
  // HarmlessNeverStale only a late landing can do that), the room's document
  // shows exactly the run of all their stage moves in lock order (none lost, none doubled)
  // from what it showed at the start, so the stage invariants hold and the base
  // presenter is the one those moves say.  The start may be any stage that a
  // run of moves can leave, as after a restart.
  lemma StageSurvivesInterleaving(start: Option<Doc>, steps: seq<Step<Patch>>)
    requires RoomPatch.Run(PATCHING, start, steps).Some? && NeverStale(PATCHING, start, steps)
    requires Ok(PATCHING.Current(start)) && StageRuns.Inv(ViewOf(PATCHING.Current(start)))
    ensures var r := RoomPatch.Run(PATCHING, start, steps).value;
      var v0, v := ViewOf(PATCHING.Current(start)), ViewOf(PATCHING.Current(r.doc));
      && v == StageRuns.RunFrom(v0, Moves(r.log))
      && StageRuns.Inv(v)
      && StageRuns.Base(v) == StageRuns.BaseFrom(StageRuns.Base(v0), Moves(r.log))
  {
    var r := RoomPatch.Run(PATCHING, start, steps).value;
    LostExactly(PATCHING, start, steps);
    PatchesAreHonest();
    SkippingLosesNothing(PATCHING, Ok, start, r.log);
    ViewOfAll(PATCHING.Current(start), r.log);
    StageRuns.RunKeeps(ViewOf(PATCHING.Current(start)), Moves(r.log));
  }

  predicate Sound(md: Doc) { Ok(md) && StageRuns.Inv(ViewOf(md)) }

  lemma StreamChanges(md: Doc, move: Move)
    requires Sound(md) && move.Valid() && (move.Started? || move.Stopped?) && Apply(md, move).1
    ensures Next(ViewOf(md), move) != ViewOf(md)
  {
    hide SetLive, Without, IsStream, Live, Clean, Typed;
    var live := Without(Live(md), move.key) + if move.Started? then [move.key] else [];
    assert move.Stopped? ==> live == Without(Live(md), move.key);
    SetLiveMeans(md, live);
    StageRuns.StreamLists(ViewOf(md), move.key);
    assert Name(SetLive(md, live), PRESENTER) == Name(md, PRESENTER) && Name(SetLive(md, live), PREV) == Name(md, PREV);
  }

  // A stream move, and the board's end, answer False exactly if they changed
  // nothing; the board's start does if the board already presents, a choice never.
  lemma AnswerExactly(md: Doc, move: Move)
    requires Sound(md) && move.Valid()
    ensures var (md', changed) := Apply(md, move);
      match move
      case Choose(_) => changed
      case BoardStart => !changed <==> ViewOf(md).presenter == Some(BOARD)
      case _ => changed <==> md' != md
  {
    if !Apply(md, move).1 {
      FalseMeansUnchanged(md, move);
    }
    if (move.Started? || move.Stopped?) && Apply(md, move).1 {
      ApplyMeans(md, move);
      StreamChanges(md, move);
    }
  }

  // The document is well formed and the stage invariants hold after every
  // interleaving whatever, late landings included.
  lemma InvariantsAlways(start: Option<Doc>, steps: seq<Step<Patch>>)
    requires RoomPatch.Run(PATCHING, start, steps).Some? && Sound(PATCHING.Current(start))
    ensures Sound(PATCHING.Current(RoomPatch.Run(PATCHING, start, steps).value.doc))
  {
    assert Kept(PATCHING, Sound) by {
      forall patch: Patch, md: Doc {:trigger PATCHING.apply(patch, md)} | Sound(md) ensures Sound(PATCHING.apply(patch, md).0) {
        PatchKeeps(patch, md);
        if patch.move.Some? {
          StageRuns.StepKeeps(ViewOf(md), patch.move.value);
        }
      }
    }
    OkAlways(PATCHING, Sound, start, steps);
  }

  function Bare(move: Move): (patch: Patch)
    requires move.Valid()
    ensures patch.move == Some(move)
  {
    AnyPatch(md => md, Some(move), false)
  }

  // A write that lands late can undo the host's choice: the playback starts and
  // its write is given up on, the host chooses a camera, and then the write
  // lands.  The choice is in the log, and nobody presents.
  lemma ChoiceCanBeLost(camera: string) returns (steps: seq<Step<Patch>>, r: Room<Patch, Doc>)
    requires camera != "" && !IsStream(camera)
    ensures RoomPatch.Run(PATCHING, Some(map[]), steps) == Some(r)
    ensures Moves(r.log) == [Choose(Some(camera)), Started(PLAYBACK)]
    ensures ViewOf(PATCHING.Current(r.doc)) == View(None, None, [PLAYBACK])
    ensures StageRuns.Run(Moves(r.log)) == View(Some(PLAYBACK), Some(camera), [PLAYBACK])
    ensures !LogInv(PATCHING, Some(map[]), r.doc, r.log)
  {
    hide RoomPatch.Run, LogInv, StageRuns.Run;
    var a, b := Bare(Started(PLAYBACK)), Bare(Choose(Some(camera)));
    var d: Doc := map[];
    StartedWrites(d, camera);
    var x, y := PATCHING.apply(a, d).0, PATCHING.apply(b, d).0;
    PatchKeeps(a, d);
    PatchKeeps(b, d);
    PatchKeeps(a, y);
    TwoMoves(Choose(Some(camera)), Started(PLAYBACK));
    steps, r := LateLanding(PATCHING, d, a, b);
    TwoEntries(r.log[0], r.log[1]);
    assert ViewOf(PATCHING.apply(a, y).0) == View(Some(PLAYBACK), Some(camera), [PLAYBACK]) != ViewOf(x);
    hide ViewOf;
  }

  lemma StartedWrites(d: Doc, camera: string)
    requires d == map[]
    ensures Ok(d) && ViewOf(d) == StageRuns.EMPTY
    ensures PATCHING.apply(Bare(Started(PLAYBACK)), d).1 && PATCHING.apply(Bare(Choose(Some(camera))), d).1
    ensures Next(ViewOf(d), Started(PLAYBACK)) == View(None, None, [PLAYBACK])
    ensures camera != "" && !IsStream(camera) ==>
      var v := Next(ViewOf(d), Choose(Some(camera)));
      v == View(Some(camera), None, []) && Next(v, Started(PLAYBACK)) == View(Some(PLAYBACK), Some(camera), [PLAYBACK])
  {
  }

  lemma TwoMoves(first: Move, second: Move)
    ensures StageRuns.Run([first, second]) == Next(Next(StageRuns.EMPTY, first), second)
  {
    assert [first, second][..1] == [first] && [first][..0] == [];
    assert StageRuns.RunFrom(StageRuns.EMPTY, [first]) == Next(StageRuns.EMPTY, first);
  }

  lemma TwoEntries(first: Entry<Patch, Doc>, second: Entry<Patch, Doc>)
    requires first.change.move.Some? && second.change.move.Some?
    ensures Moves([first, second]) == [first.change.move.value, second.change.move.value]
  {
    assert [first, second][..1] == [first] && [first][..0] == [];
    assert Moves([first]) == [first.change.move.value];
  }
}
