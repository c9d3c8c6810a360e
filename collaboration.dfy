/** The client's list of collaborators on the current board: who is present, their colour
    and their last cursor, and which session is this client's own. */
module Collaboration {
  import opened Wrappers
  import opened Types

  datatype Collaborator = Collaborator(id: string, sessionColor: string, cursor: Option<Point>, isOnline: bool)

  /** No two entries share an id. */
  predicate DistinctIds(ss: seq<Collaborator>) {
    forall i, j :: 0 <= i < j < |ss| ==> ss[i].id != ss[j].id
  }

  predicate HasId(ss: seq<Collaborator>, id: string) {
    exists k :: 0 <= k < |ss| && ss[k].id == id
  }

  /** `findIndex` by id: the first entry with that id, or -1. */
  function FindIndex(ss: seq<Collaborator>, id: string): (i: int)
    ensures -1 <= i < |ss|
    ensures i == -1 <==> !HasId(ss, id)
    ensures i >= 0 ==> ss[i].id == id && forall k :: 0 <= k < i ==> ss[k].id != id
  {
    if ss == [] then -1
    else if ss[0].id == id then 0
    else
      var r := FindIndex(ss[1..], id);
      assert forall k :: 1 <= k < |ss| ==> ss[k] == ss[1..][k - 1];
      assert HasId(ss, id) ==> HasId(ss[1..], id) by {
        if HasId(ss, id) {
          var k :| 0 <= k < |ss| && ss[k].id == id;
          assert ss[1..][k - 1].id == id;
        }
      }
      if r == -1 then -1 else r + 1
  }

  /** `a` is `b` with some entries dropped and the rest kept in their order. */
  predicate Subsequence<T(==)>(a: seq<T>, b: seq<T>)
    decreases |b|
  {
    if b == [] then a == []
    else (a != [] && a[0] == b[0] && Subsequence(a[1..], b[1..])) || Subsequence(a, b[1..])
  }

  /** The entries whose id is not the current session's (`s.id !== currentSessionId`), in
      list order. */
  function Others(ss: seq<Collaborator>, current: Option<string>): (r: seq<Collaborator>)
    ensures |r| <= |ss|
    ensures forall c :: c in r <==> c in ss && Some(c.id) != current
    ensures Subsequence(r, ss)
  {
    if ss == [] then []
    else
      var rest := Others(ss[1..], current);
      if Some(ss[0].id) != current then
        assert ([ss[0]] + rest)[1..] == rest;
        [ss[0]] + rest
      else rest
  }

  /** Others that are online and have a cursor, in list order. */
  function WithCursors(ss: seq<Collaborator>, current: Option<string>): (r: seq<Collaborator>)
    ensures |r| <= |ss|
    ensures forall c :: c in r <==> c in ss && Some(c.id) != current && c.cursor.Some? && c.isOnline
    ensures Subsequence(r, ss)
  {
    if ss == [] then []
    else
      var c := ss[0];
      var rest := WithCursors(ss[1..], current);
      if Some(c.id) != current && c.cursor.Some? && c.isOnline then
        assert ([c] + rest)[1..] == rest;
        [c] + rest
      else rest
  }

  /** With distinct ids, the others are everyone but the current session's own entry, so
      the count is one less exactly when that entry is listed. */
  lemma {:induction false} OthersCount(ss: seq<Collaborator>, current: Option<string>)
    requires DistinctIds(ss)
    ensures current.Some? && HasId(ss, current.value) ==> |Others(ss, current)| == |ss| - 1
    ensures !(current.Some? && HasId(ss, current.value)) ==> |Others(ss, current)| == |ss|
  {
    if ss != [] {
      var rest := ss[1..];
      assert DistinctIds(rest) by {
        forall i, j | 0 <= i < j < |rest| ensures rest[i].id != rest[j].id {
          assert rest[i] == ss[i + 1] && rest[j] == ss[j + 1];
        }
      }
      OthersCount(rest, current);
      assert forall k :: 1 <= k < |ss| ==> ss[k] == rest[k - 1];
      if current.Some? && ss[0].id == current.value {
        assert !HasId(rest, current.value);
      } else if current.Some? {
        assert HasId(ss, current.value) <==> HasId(rest, current.value) by {
          if HasId(ss, current.value) {
            var k :| 0 <= k < |ss| && ss[k].id == current.value;
            assert k > 0 && rest[k - 1].id == current.value;
          }
          if HasId(rest, current.value) {
            var k :| 0 <= k < |rest| && rest[k].id == current.value;
            assert ss[k + 1].id == current.value;
          }
        }
      }
    }
  }

  /** Removing the entry at `i` keeps the ids distinct and drops that id from the list. */
  lemma RemoveAtDistinct(ss: seq<Collaborator>, i: int)
    requires DistinctIds(ss) && 0 <= i < |ss|
    ensures DistinctIds(ss[..i] + ss[i + 1..])
    ensures !HasId(ss[..i] + ss[i + 1..], ss[i].id)
  {
    var r := ss[..i] + ss[i + 1..];
    assert forall k :: 0 <= k < |r| ==> r[k] == if k < i then ss[k] else ss[k + 1];
    forall k | 0 <= k < |r| ensures r[k].id != ss[i].id {
      if k < i {
        assert r[k] == ss[k];
      } else {
        assert r[k] == ss[k + 1];
      }
    }
  }

  class CollaborationStore {
    var activeSessions: seq<Collaborator>
    var currentSessionId: Option<string>
    var currentSessionColor: string

    /** The list never holds two entries for one session, and every entry is online (no
        operation of the store ever marks one offline). */
    predicate Valid()
      reads this
    {
      DistinctIds(activeSessions) && forall k :: 0 <= k < |activeSessions| ==> activeSessions[k].isOnline
    }

    constructor()
      ensures Valid()
      ensures activeSessions == [] && currentSessionId.None? && currentSessionColor == "#3498db"
    {
      activeSessions := [];
      currentSessionId := None;
      currentSessionColor := "#3498db";
    }

    /** `addSession`: a new id is appended online with the given colour and no cursor; an
        id already listed is only marked online, keeping its colour and cursor. */
    method AddSession(sessionId: string, color: string)
      requires Valid()
      modifies this`activeSessions
      ensures Valid()
      ensures !HasId(old(activeSessions), sessionId) ==>
        activeSessions == old(activeSessions) + [Collaborator(sessionId, color, None, true)]
      ensures HasId(old(activeSessions), sessionId) ==>
        var i := FindIndex(old(activeSessions), sessionId);
        activeSessions == old(activeSessions)[i := old(activeSessions)[i].(isOnline := true)]
    {
      var existingIndex := FindIndex(activeSessions, sessionId);
      if existingIndex == -1 {
        activeSessions := activeSessions + [Collaborator(sessionId, color, None, true)];
      } else {
        activeSessions := activeSessions[existingIndex := activeSessions[existingIndex].(isOnline := true)];
      }
    }

    /** `removeSession`: the entry with that id is spliced out, the rest kept in order; an
        unknown id changes nothing. */
    method RemoveSession(sessionId: string)
      requires Valid()
      modifies this`activeSessions
      ensures Valid()
      ensures !HasId(activeSessions, sessionId)
      ensures !HasId(old(activeSessions), sessionId) ==> activeSessions == old(activeSessions)
      ensures HasId(old(activeSessions), sessionId) ==>
        var i := FindIndex(old(activeSessions), sessionId);
        activeSessions == old(activeSessions)[..i] + old(activeSessions)[i + 1..]
    {
      var index := FindIndex(activeSessions, sessionId);
      if index != -1 {
        RemoveAtDistinct(activeSessions, index);
        activeSessions := activeSessions[..index] + activeSessions[index + 1..];
      }
    }

    /** `updateCursor`: only that entry's cursor changes; an unknown id changes nothing. */
    method UpdateCursor(sessionId: string, cursor: Point)
      requires Valid()
      modifies this`activeSessions
      ensures Valid()
      ensures !HasId(old(activeSessions), sessionId) ==> activeSessions == old(activeSessions)
      ensures HasId(old(activeSessions), sessionId) ==>
        var i := FindIndex(old(activeSessions), sessionId);
        activeSessions == old(activeSessions)[i := old(activeSessions)[i].(cursor := Some(cursor))]
    {
      var index := FindIndex(activeSessions, sessionId);
      if index != -1 {
        activeSessions := activeSessions[index := activeSessions[index].(cursor := Some(cursor))];
      }
    }

    method SetCurrentSession(sessionId: string, color: string)
      modifies this`currentSessionId, this`currentSessionColor
      ensures currentSessionId == Some(sessionId) && currentSessionColor == color
    {
      currentSessionId := Some(sessionId);
      currentSessionColor := color;
    }

    /** `activeSessionCount`: everyone listed except this client's own session. */
    function ActiveSessionCount(): (n: nat)
      requires Valid()
      reads this
      ensures currentSessionId.Some? && HasId(activeSessions, currentSessionId.value) ==> n == |activeSessions| - 1
      ensures !(currentSessionId.Some? && HasId(activeSessions, currentSessionId.value)) ==> n == |activeSessions|
    {
      OthersCount(activeSessions, currentSessionId);
      |Others(activeSessions, currentSessionId)|
    }

    /** `sessionsWithCursors`: the other sessions that are online and have a cursor. */
    function SessionsWithCursors(): (r: seq<Collaborator>)
      reads this
      ensures forall c :: c in r <==>
        c in activeSessions && Some(c.id) != currentSessionId && c.cursor.Some? && c.isOnline
    {
      WithCursors(activeSessions, currentSessionId)
    }
  }
}
