/** How the drawing client applies other sessions' events to its stroke list, one at a time
    as they arrive and all at once when it resynchronises. */
module Reconcile {
  import opened Wrappers
  import opened Types
  import opened Sorting

  /** The strokes whose ids are not listed, in their original order. */
  function RemoveIds(strokes: seq<DrawingStroke>, ids: seq<string>): (r: seq<DrawingStroke>)
    ensures |r| <= |strokes|
    ensures forall s :: s in r <==> s in strokes && s.id !in ids
    ensures (forall k :: 0 <= k < |strokes| ==> strokes[k].id !in ids) ==> r == strokes
  {
    if strokes == [] then []
    else
      var rest := RemoveIds(strokes[1..], ids);
      assert forall s :: s in strokes <==> s == strokes[0] || s in strokes[1..];
      if strokes[0].id in ids then rest else [strokes[0]] + rest
  }

  /** Removing ids from a concatenation removes them from each part. */
  lemma {:induction false} RemoveIdsAppend(a: seq<DrawingStroke>, b: seq<DrawingStroke>, ids: seq<string>)
    ensures RemoveIds(a + b, ids) == RemoveIds(a, ids) + RemoveIds(b, ids)
  {
    if a != [] {
      assert (a + b)[1..] == a[1..] + b;
      assert (a + b)[0] == a[0];
      RemoveIdsAppend(a[1..], b, ids);
      if a[0].id !in ids {
        assert RemoveIds(a + b, ids) == [a[0]] + RemoveIds(a[1..] + b, ids);
        assert RemoveIds(a, ids) == [a[0]] + RemoveIds(a[1..], ids);
      }
    } else {
      assert a + b == b;
    }
  }

  /** The per-type rule for one event's data, shared by live handling and resync. */
  function Apply(strokes: seq<DrawingStroke>, data: EventData): seq<DrawingStroke> {
    match data
    case StrokeData(stroke) => if stroke.Some? then strokes + [stroke.value] else strokes
    case StrokeDeletedData(ids) => if ids.Some? then RemoveIds(strokes, ids.value) else strokes
    case ClearData => []
    case UndoData(_, _) => if |strokes| > 0 then strokes[..|strokes| - 1] else strokes
    case RedoData(more) => if more.Some? then strokes + more.value else strokes
    case CursorData(_) => strokes
    case EraseData => strokes
  }

  /** The per-type rules: a stroke appends one, a deletion removes exactly the listed ids,
      a clear empties, an undo pops exactly the last stroke, a redo appends the given strokes
      in order, and an event the handler does not act on changes nothing. */
  lemma ApplyRules(strokes: seq<DrawingStroke>, data: EventData)
    ensures data.StrokeData? && data.stroke.Some? ==> Apply(strokes, data) == strokes + [data.stroke.value]
    ensures data.StrokeDeletedData? && data.strokeIds.Some? ==>
      forall s :: s in Apply(strokes, data) <==> s in strokes && s.id !in data.strokeIds.value
    ensures data.ClearData? ==> Apply(strokes, data) == []
    ensures data.UndoData? && |strokes| > 0 ==>
      Apply(strokes, data) == strokes[..|strokes| - 1] && strokes == Apply(strokes, data) + [strokes[|strokes| - 1]]
    ensures data.RedoData? && data.strokes.Some? ==> Apply(strokes, data) == strokes + data.strokes.value
    ensures !Changes(strokes, data) ==> Apply(strokes, data) == strokes
  {
    if data.UndoData? && |strokes| > 0 {
      assert strokes == strokes[..|strokes| - 1] + [strokes[|strokes| - 1]];
    }
  }

  /** Whether the live handler acts on the event and records a history snapshot: a stroke
      or deletion or redo carrying its payload key, any clear, and an undo with a stroke to
      pop. Cursor and erase events are ignored. */
  predicate Changes(strokes: seq<DrawingStroke>, data: EventData) {
    match data
    case StrokeData(stroke) => stroke.Some?
    case StrokeDeletedData(ids) => ids.Some?
    case ClearData => true
    case UndoData(_, _) => |strokes| > 0
    case RedoData(more) => more.Some?
    case CursorData(_) => false
    case EraseData => false
  }

  /** Folding events in list order. */
  function ApplyAll(strokes: seq<DrawingStroke>, events: seq<DrawingEvent>): seq<DrawingStroke>
    decreases |events|
  {
    if events == [] then strokes else ApplyAll(Apply(strokes, events[0].data), events[1..])
  }

  lemma {:induction false} ApplyAllAppend(strokes: seq<DrawingStroke>, a: seq<DrawingEvent>, b: seq<DrawingEvent>)
    ensures ApplyAll(strokes, a + b) == ApplyAll(ApplyAll(strokes, a), b)
    decreases |a|
  {
    if a != [] {
      assert (a + b)[1..] == a[1..] + b;
      ApplyAllAppend(Apply(strokes, a[0].data), a[1..], b);
    } else {
      assert a + b == b;
    }
  }

  /** What `handleSyncEvents` leaves in `strokes`: the events sorted by sequence (stably,
      as `Array.prototype.sort` is) and replayed from an empty list. */
  function Resynced(events: seq<DrawingEvent>): seq<DrawingStroke> {
    ApplyAll([], SortBy(events, SequenceOf))
  }

  /** `Math.max(...sequences)` of a non-empty list. */
  function MaxSequence(events: seq<DrawingEvent>): (m: int)
    requires |events| > 0
    ensures forall k :: 0 <= k < |events| ==> events[k].sequence <= m
    ensures exists k :: 0 <= k < |events| && events[k].sequence == m
  {
    if |events| == 1 then events[0].sequence
    else
      var rest := MaxSequence(events[1..]);
      assert forall k :: 1 <= k < |events| ==> events[k] == events[1..][k - 1];
      if events[0].sequence >= rest then events[0].sequence else rest
  }

  /** With distinct sequence numbers, the resync result depends only on which events were
      delivered, not on the order they arrive in. */
  lemma ResyncOrderIndependent(e1: seq<DrawingEvent>, e2: seq<DrawingEvent>)
    requires multiset(e1) == multiset(e2)
    requires DistinctKeys(e1, SequenceOf) && DistinctKeys(e2, SequenceOf)
    ensures Resynced(e1) == Resynced(e2)
  {
    SortDistinctIsStrict(e1, SequenceOf);
    SortDistinctIsStrict(e2, SequenceOf);
    StrictlySortedUnique(SortBy(e1, SequenceOf), SortBy(e2, SequenceOf), SequenceOf);
  }

  /** Events received live in sequence order leave the same strokes a resync would. */
  lemma LiveInOrderMatchesResync(events: seq<DrawingEvent>)
    requires SortedBy(events, SequenceOf)
    ensures ApplyAll([], events) == Resynced(events)
  {
    SortSorted(events, SequenceOf);
  }

  /** A resync followed by later events equals a resync over all of them, when the later
      events carry larger sequence numbers than every earlier one. */
  lemma ResyncThenLive(events: seq<DrawingEvent>, later: seq<DrawingEvent>)
    requires SortedBy(events, SequenceOf) && SortedBy(later, SequenceOf)
    requires forall i, j :: 0 <= i < |events| && 0 <= j < |later| ==> events[i].sequence <= later[j].sequence
    ensures ApplyAll(Resynced(events), later) == Resynced(events + later)
  {
    SortSorted(events, SequenceOf);
    assert SortedBy(events + later, SequenceOf) by {
      var s := events + later;
      forall i, j | 0 <= i < j < |s| ensures s[i].sequence <= s[j].sequence {
        if j < |events| {
        } else if i >= |events| {
          assert s[i] == later[i - |events|] && s[j] == later[j - |events|];
        } else {
          assert s[i] == events[i] && s[j] == later[j - |events|];
        }
      }
    }
    SortSorted(events + later, SequenceOf);
    ApplyAllAppend([], events, later);
  }
}
