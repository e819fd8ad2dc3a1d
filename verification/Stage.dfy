// The stage moves on the room metadata document, and what they mean: a
// presenter, the presenter that comes back, and the live streams.
module Stage {
  import opened Wrappers

  // A JSON value; Other stands for numbers, booleans and objects.
  datatype Json = Null | Str(s: string) | List(items: seq<Json>) | Other(text: string)

  type Doc = map<string, Json>

  const BOARD := "meetpp:board"
  const PLAYBACK := "playback"
  const PRESENTER := "presenter_identity"
  const PREV := "presenter_prev"
  const STREAMS := "stage_streams"

  predicate EndsWith(s: string, tail: string) {
    |tail| <= |s| && s[|s| - |tail|..] == tail
  }

  function ScreenKey(identity: string): (key: string)
    ensures IsStream(key)
  {
    identity + "#screen"
  }

  predicate IsStream(key: string) {
    key != "" && (EndsWith(key, "#screen") || key == PLAYBACK)
  }

  lemma BoardIsNoStream()
    ensures !IsStream(BOARD)
  {
    assert BOARD[|BOARD| - 1] == 'd' && "#screen"[6] == 'n';
  }

  // ------------------------------------------------------------ documents

  function Strings(items: seq<Json>): seq<string> {
    if items == [] then []
    else (if items[0].Str? then [items[0].s] else []) + Strings(items[1..])
  }

  function FromStrings(live: seq<string>): (j: seq<Json>)
    ensures |j| == |live|
  {
    seq(|live|, i requires 0 <= i < |live| => Str(live[i]))
  }

  function Live(md: Doc): seq<string> {
    if STREAMS in md && md[STREAMS].List? then Strings(md[STREAMS].items) else []
  }

  function Without(live: seq<string>, key: string): seq<string> {
    if live == [] then []
    else (if live[0] != key then [live[0]] else []) + Without(live[1..], key)
  }

  function SetLive(md: Doc, live: seq<string>): Doc {
    if live != [] then md[STREAMS := List(FromStrings(live))] else md - {STREAMS}
  }

  // A non-empty string under this name, else None: what Python calls true.
  function Name(md: Doc, field: string): Option<string> {
    if field in md && md[field].Str? && md[field].s != "" then Some(md[field].s) else None
  }

  // presenter_identity and presenter_prev hold a string or null, as every
  // writer leaves them.
  predicate Typed(md: Doc) {
    && (PRESENTER in md ==> md[PRESENTER].Null? || md[PRESENTER].Str?)
    && (PREV in md ==> md[PREV].Null? || md[PREV].Str?)
  }

  // stage_streams is absent or a non-empty list of strings, as every move leaves it.
  predicate Clean(md: Doc) {
    STREAMS in md ==>
      && md[STREAMS].List? && md[STREAMS].items != []
      && forall i :: 0 <= i < |md[STREAMS].items| ==> md[STREAMS].items[i].Str?
  }

  function FromName(key: Option<string>): Json {
    if key.Some? then Str(key.value) else Null
  }

  // ------------------------------------------------------------ the moves

  function StreamStarted(md: Doc, key: string): (Doc, bool) {
    var before := Live(md);
    var live := Without(before, key) + [key];
    var md := SetLive(md, live);
    var changed := live != before;
    var current := Name(md, PRESENTER);
    if current.None? || current.value == key then (md, changed)
    else
      var md := if !IsStream(current.value) then md[PREV := Str(current.value)] else md;
      (md[PRESENTER := Str(key)], true)
  }

  function StreamStopped(md: Doc, key: string): (Doc, bool) {
    var before := Live(md);
    var live := Without(before, key);
    var md := SetLive(md, live);
    var current := Name(md, PRESENTER);
    if current == Some(key) then
      if live != [] then (md[PRESENTER := Str(live[|live| - 1])], true)
      else (md[PRESENTER := if PREV in md then md[PREV] else Null] - {PREV}, true)
    else if current.None? && live == [] && Name(md, PREV).Some? then
      (md[PRESENTER := md[PREV]] - {PREV}, true)
    else (md, live != before)
  }

  function BoardStarted(md: Doc): (Doc, bool) {
    var current := Name(md, PRESENTER);
    if current == Some(BOARD) then (md, false)
    else if (current.Some? && IsStream(current.value)) || (current.None? && Live(md) != []) then
      (md[PREV := Str(BOARD)], true)
    else (md[PRESENTER := Str(BOARD)] - {PREV}, true)
  }

  function BoardEnded(md: Doc): (Doc, bool) {
    var first := PRESENTER in md && md[PRESENTER] == Str(BOARD);
    var md := if first then md[PRESENTER := Null] else md;
    var second := PREV in md && md[PREV] == Str(BOARD);
    (if second then md - {PREV} else md, first || second)
  }

  function Chosen(md: Doc, key: Option<string>): (Doc, bool) {
    (md[PRESENTER := FromName(key)] - {PREV}, true)
  }

  // A stream key is a screen share or the playback; a choice is whatever the
  // host sends.
  datatype Move = Started(key: string) | Stopped(key: string) | BoardStart | BoardEnd | Choose(choice: Option<string>)
  {
    predicate Valid() {
      match this
      case Started(key) => IsStream(key)
      case Stopped(key) => IsStream(key)
      case _ => true
    }
  }

  function Apply(md: Doc, move: Move): (Doc, bool) {
    match move
    case Started(key) => StreamStarted(md, key)
    case Stopped(key) => StreamStopped(md, key)
    case BoardStart => BoardStarted(md)
    case BoardEnd => BoardEnded(md)
    case Choose(choice) => Chosen(md, choice)
  }

  // ------------------------------------------------------------ in place

  // The program's functions mutate the document they are given.
  class Metadata {
    var md: Doc

    constructor (md: Doc)
      ensures this.md == md
    {
      this.md := md;
    }

    method PutLive(live: seq<string>)
      modifies this
      ensures md == SetLive(old(md), live)
    {
      if live != [] {
        md := md[STREAMS := List(FromStrings(live))];
      } else {
        md := md - {STREAMS};
      }
    }

    method StreamStarted(key: string) returns (changed: bool)
      modifies this
      ensures (md, changed) == Apply(old(md), Started(key))
    {
      var before := Live(md);
      var live := Without(before, key) + [key];
      PutLive(live);
      changed := live != before;
      var current := Name(md, PRESENTER);
      if current.None? || current.value == key {
        return;
      }
      if !IsStream(current.value) {
        md := md[PREV := Str(current.value)];
      }
      md := md[PRESENTER := Str(key)];
      return true;
    }

    method StreamStopped(key: string) returns (changed: bool)
      modifies this
      ensures (md, changed) == Apply(old(md), Stopped(key))
    {
      var before := Live(md);
      var live := Without(before, key);
      PutLive(live);
      var current := Name(md, PRESENTER);
      if current == Some(key) {
        if live != [] {
          md := md[PRESENTER := Str(live[|live| - 1])];
        } else {
          PopPrev();
        }
        return true;
      }
      if current.None? && live == [] && Name(md, PREV).Some? {
        PopPrev();
        return true;
      }
      return live != before;
    }

    // The previous presenter (or nobody) takes the stage.
    method PopPrev()
      modifies this
      ensures md == old(md)[PRESENTER := if PREV in old(md) then old(md)[PREV] else Null] - {PREV}
    {
      var prev := if PREV in md then md[PREV] else Null;
      md := md - {PREV};
      md := md[PRESENTER := prev];
    }

    method BoardStarted() returns (changed: bool)
      modifies this
      ensures (md, changed) == Apply(old(md), BoardStart)
    {
      var current := Name(md, PRESENTER);
      if current == Some(BOARD) {
        return false;
      }
      if (current.Some? && IsStream(current.value)) || (current.None? && Live(md) != []) {
        md := md[PREV := Str(BOARD)];
      } else {
        md := md[PRESENTER := Str(BOARD)];
        md := md - {PREV};
      }
      return true;
    }

    method BoardEnded() returns (changed: bool)
      modifies this
      ensures (md, changed) == Apply(old(md), BoardEnd)
    {
      changed := false;
      if PRESENTER in md && md[PRESENTER] == Str(BOARD) {
        md := md[PRESENTER := Null];
        changed := true;
      }
      if PREV in md && md[PREV] == Str(BOARD) {
        md := md - {PREV};
        changed := true;
      }
    }

    method Chosen(key: Option<string>) returns (changed: bool)
      modifies this
      ensures (md, changed) == Apply(old(md), Choose(key))
    {
      md := md[PRESENTER := FromName(key)];
      md := md - {PREV};
      return true;
    }
  }

  // ------------------------------------------------------------ what a document says

  datatype View = View(presenter: Option<string>, prev: Option<string>, live: seq<string>)

  function ViewOf(md: Doc): View {
    View(Name(md, PRESENTER), Name(md, PREV), Live(md))
  }

  function NonEmpty(s: string): Option<string> {
    if s != "" then Some(s) else None
  }

  // Choosing an empty key is choosing nobody.
  function Picked(choice: Option<string>): Option<string> {
    if choice.Some? then NonEmpty(choice.value) else None
  }

  // The moves on views.
  function Next(v: View, move: Move): View {
    match move
    case Started(key) =>
      var live := Without(v.live, key) + [key];
      if v.presenter.None? || v.presenter.value == key then v.(live := live)
      else View(Some(key), if IsStream(v.presenter.value) then v.prev else v.presenter, live)
    case Stopped(key) =>
      var live := Without(v.live, key);
      if v.presenter == Some(key) && live != [] then View(NonEmpty(live[|live| - 1]), v.prev, live)
      else if live == [] && (v.presenter == Some(key) || (v.presenter.None? && v.prev.Some?)) then View(v.prev, None, [])
      else v.(live := live)
    case BoardStart =>
      if v.presenter == Some(BOARD) then v
      else if (v.presenter.Some? && IsStream(v.presenter.value)) || (v.presenter.None? && v.live != []) then v.(prev := Some(BOARD))
      else v.(presenter := Some(BOARD), prev := None)
    case BoardEnd =>
      View(if v.presenter == Some(BOARD) then None else v.presenter, if v.prev == Some(BOARD) then None else v.prev, v.live)
    case Choose(choice) => v.(presenter := Picked(choice), prev := None)
  }

  lemma {:induction false} StringsBack(live: seq<string>)
    ensures Strings(FromStrings(live)) == live
  {
    if live != [] {
      assert FromStrings(live)[1..] == FromStrings(live[1..]);
      StringsBack(live[1..]);
    }
  }

  lemma {:induction false} StringsOnly(items: seq<Json>)
    ensures (forall i :: 0 <= i < |items| ==> items[i].Str?) <==> FromStrings(Strings(items)) == items
    ensures |Strings(items)| <= |items|
  {
    if items != [] {
      StringsOnly(items[1..]);
      var rest := Strings(items[1..]);
      if items[0].Str? {
        assert Strings(items) == [items[0].s] + rest;
        assert FromStrings(Strings(items)) == [items[0]] + FromStrings(rest);
        assert items == [items[0]] + items[1..];
        if FromStrings(Strings(items)) == items {
          assert FromStrings(rest) == FromStrings(Strings(items))[1..];
        }
      } else {
        assert |FromStrings(Strings(items))| == |rest| <= |items| - 1;
      }
    }
  }

  lemma SetLiveMeans(md: Doc, live: seq<string>)
    ensures var md' := SetLive(md, live);
      && Live(md') == live && Clean(md')
      && (forall f :: f != STREAMS ==> (f in md' <==> f in md) && (f in md ==> md'[f] == md[f]))
      && (Live(md) == live ==> (md' == md <==> Clean(md)))
  {
    StringsBack(live);
    if STREAMS in md && md[STREAMS].List? {
      StringsOnly(md[STREAMS].items);
      if live != [] && Clean(md) && Live(md) == live {
        assert SetLive(md, live) == md;
      }
    } else if Live(md) == live {
      assert live == [];
    }
  }

  // md' says v, is well formed if md was, and differs from md in the stage fields only.
  ghost predicate Becomes(md: Doc, md': Doc, v: View) {
    && ViewOf(md') == v
    && Typed(md') && (Clean(md) ==> Clean(md'))
    && (forall f :: f !in {PRESENTER, PREV, STREAMS} ==> (f in md' <==> f in md) && (f in md ==> md'[f] == md[f]))
  }

  lemma StartedMeans(md: Doc, key: string)
    requires Typed(md) && IsStream(key)
    ensures Becomes(md, StreamStarted(md, key).0, Next(ViewOf(md), Started(key)))
  {
    var live := Without(Live(md), key) + [key];
    SetLiveMeans(md, live);
  }

  lemma StoppedMeans(md: Doc, key: string)
    requires Typed(md) && IsStream(key)
    ensures Becomes(md, StreamStopped(md, key).0, Next(ViewOf(md), Stopped(key)))
  {
    hide Without, Strings;
    var live := Without(Live(md), key);
    SetLiveMeans(md, live);
    var md1 := SetLive(md, live);
    assert Name(md1, PRESENTER) == Name(md, PRESENTER) && Name(md1, PREV) == Name(md, PREV);
    hide SetLive;
    if Name(md, PRESENTER) == Some(key) && live != [] {
      LiveKept(md1, md1[PRESENTER := Str(live[|live| - 1])]);
    } else if live == [] && (Name(md, PRESENTER) == Some(key) || (Name(md, PRESENTER).None? && Name(md, PREV).Some?)) {
      LiveKept(md1, StreamStopped(md, key).0);
    }
  }

  lemma LiveKept(md: Doc, md': Doc)
    requires (STREAMS in md <==> STREAMS in md') && (STREAMS in md ==> md[STREAMS] == md'[STREAMS])
    ensures Live(md') == Live(md) && Clean(md') == Clean(md)
  {
  }

  // Every move does to the view what Next says, keeps the document well
  // formed, and touches no other field.
  lemma ApplyMeans(md: Doc, move: Move)
    requires Typed(md) && move.Valid()
    ensures Becomes(md, Apply(md, move).0, Next(ViewOf(md), move))
  {
    match move
    case Started(key) => StartedMeans(md, key);
    case Stopped(key) => StoppedMeans(md, key);
    case _ => LiveKept(md, Apply(md, move).0);
  }

  // A move that returns False left the document exactly as it was, if (and
  // for the stream moves only if) stage_streams was well formed before: then
  // skipping the write loses nothing.
  lemma FalseMeansUnchanged(md: Doc, move: Move)
    requires Typed(md) && move.Valid() && !Apply(md, move).1
    ensures move.Started? || move.Stopped? ==> (Apply(md, move).0 == md <==> Clean(md))
    ensures !(move.Started? || move.Stopped?) ==> Apply(md, move).0 == md
    ensures ViewOf(Apply(md, move).0) == ViewOf(md)
  {
    match move
    case Started(key) => StreamFalse(md, move, Without(Live(md), key) + [key]);
    case Stopped(key) => StreamFalse(md, move, Without(Live(md), key));
    case _ =>
  }

  lemma StreamFalse(md: Doc, move: Move, live: seq<string>)
    requires move.Started? || move.Stopped?
    requires live == Without(Live(md), move.key) + if move.Started? then [move.key] else []
    requires !Apply(md, move).1
    ensures Apply(md, move).0 == md <==> Clean(md)
    ensures ViewOf(Apply(md, move).0) == ViewOf(md)
  {
    hide Without, Strings;
    assert move.Stopped? ==> live == Without(Live(md), move.key);
    assert Apply(md, move).0 == SetLive(md, live) && live == Live(md);
    SetLiveMeans(md, live);
    assert Name(SetLive(md, live), PRESENTER) == Name(md, PRESENTER) && Name(SetLive(md, live), PREV) == Name(md, PREV);
    hide Apply;
  }
}
