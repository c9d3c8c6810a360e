/** The drawing client's bounded undo/redo stack: a list of stroke-list snapshots and the
    index of the snapshot that is on screen. */
module History {
  import opened Types

  /** At most this many snapshots are kept; the oldest is dropped beyond it. */
  const MaxSnapshots: nat := 50

  datatype Timeline = Timeline(snapshots: seq<seq<DrawingStroke>>, index: int)

  /** The timeline of a fresh store: no snapshot and index -1. */
  const Empty: Timeline := Timeline([], -1)

  /** The index points at a snapshot, or is -1 exactly when there is none, and the bound holds. */
  predicate Valid(t: Timeline) {
    |t.snapshots| <= MaxSnapshots
    && -1 <= t.index < |t.snapshots|
    && (t.index == -1 ==> t.snapshots == [])
  }

  /** JavaScript `s.slice(0, end)`: a negative end counts from the back, and ends are clamped. */
  function SliceTo<T>(s: seq<T>, end: int): (r: seq<T>)
    ensures |r| <= |s|
    ensures 0 <= end <= |s| ==> r == s[..end]
  {
    if end < 0 then (if |s| + end <= 0 then [] else s[..|s| + end])
    else if end > |s| then s
    else s[..end]
  }

  /** JavaScript `s.slice(start)` for a non-negative start: empty past the end. */
  function SliceFrom<T>(s: seq<T>, start: nat): (r: seq<T>)
    ensures start <= |s| ==> r == s[start..]
    ensures start >= |s| ==> r == []
  {
    if start >= |s| then [] else s[start..]
  }

  /** `addToHistory`: cut the redo branch after the current index, append a copy of the
      strokes, advance the index, and drop the oldest snapshot beyond the bound. */
  function Record(t: Timeline, strokes: seq<DrawingStroke>): Timeline {
    var kept := SliceTo(t.snapshots, t.index + 1) + [strokes];
    if |kept| > MaxSnapshots then Timeline(kept[1..], t.index + 1 - 1)
    else Timeline(kept, t.index + 1)
  }

  /** `undo` moves back one snapshot when the index is positive; otherwise nothing changes. */
  function Undo(t: Timeline): Timeline {
    if t.index > 0 then t.(index := t.index - 1) else t
  }

  /** `redo` moves forward one snapshot when there is one after the index. */
  function Redo(t: Timeline): Timeline {
    if t.index < |t.snapshots| - 1 then t.(index := t.index + 1) else t
  }

  /** After recording, the new snapshot is the current one and the last one, the snapshots
      up to the old index are kept in order (less the oldest on overflow), nothing after the
      old index survives, and the bound holds. */
  lemma RecordSpec(t: Timeline, strokes: seq<DrawingStroke>)
    requires Valid(t)
    ensures var u := Record(t, strokes);
      && Valid(u)
      && u.index == |u.snapshots| - 1
      && u.snapshots[u.index] == strokes
      && (t.index + 2 <= MaxSnapshots ==> u.snapshots == t.snapshots[..t.index + 1] + [strokes])
      && (t.index + 2 > MaxSnapshots ==> u.snapshots == t.snapshots[1..t.index + 1] + [strokes])
  {
    var kept := t.snapshots[..t.index + 1] + [strokes];
    if |kept| > MaxSnapshots {
      assert kept[1..] == t.snapshots[1..t.index + 1] + [strokes];
    }
  }

  /** Recording when there is a redo branch discards it: the redo becomes unavailable. */
  lemma RecordDropsRedo(t: Timeline, strokes: seq<DrawingStroke>)
    requires Valid(t)
    ensures Redo(Record(t, strokes)) == Record(t, strokes)
  {
    RecordSpec(t, strokes);
  }

  lemma UndoValid(t: Timeline)
    requires Valid(t)
    ensures Valid(Undo(t)) && Undo(t).snapshots == t.snapshots
    ensures t.index > 0 <==> Undo(t) != t
  {
  }

  lemma RedoValid(t: Timeline)
    requires Valid(t)
    ensures Valid(Redo(t)) && Redo(t).snapshots == t.snapshots
    ensures t.index < |t.snapshots| - 1 <==> Redo(t) != t
  {
  }

  /** An undo followed by a redo returns to the same timeline, snapshots never being
      changed in place; so does a redo followed by an undo. */
  lemma RedoAfterUndo(t: Timeline)
    requires Valid(t) && t.index > 0
    ensures Redo(Undo(t)) == t
  {
  }

  lemma UndoAfterRedo(t: Timeline)
    requires Valid(t) && t.index < |t.snapshots| - 1
    ensures Undo(Redo(t)) == t
  {
  }

  /** A fresh store's first recorded change cannot be undone: there is no snapshot of the
      empty canvas before it. */
  lemma FirstChangeNotUndoable(strokes: seq<DrawingStroke>)
    ensures Undo(Record(Empty, strokes)) == Record(Empty, strokes)
  {
  }

  /** Recording `MaxSnapshots + k` times still keeps only `MaxSnapshots` snapshots. */
  lemma {:induction false} RecordManyBounded(t: Timeline, changes: seq<seq<DrawingStroke>>)
    requires Valid(t)
    ensures Valid(RecordAll(t, changes))
    ensures |changes| > 0 ==> RecordAll(t, changes).index == |RecordAll(t, changes).snapshots| - 1
    ensures |changes| > 0 ==> |RecordAll(t, changes).snapshots| == Min(MaxSnapshots, t.index + 1 + |changes|)
    decreases |changes|
  {
    if |changes| > 0 {
      var u := Record(t, changes[0]);
      RecordSpec(t, changes[0]);
      RecordManyBounded(u, changes[1..]);
    }
  }

  function Min(a: int, b: int): int { if a <= b then a else b }

  function RecordAll(t: Timeline, changes: seq<seq<DrawingStroke>>): Timeline
    decreases |changes|
  {
    if changes == [] then t else RecordAll(Record(t, changes[0]), changes[1..])
  }
}
