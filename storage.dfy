/**
 * The browser-local session store (src/lib/storage.ts): the whole set of
 * sessions is one serialized array held under a fixed key. Reading parses
 * it; saving is an upsert keyed by session id; deleting filters the id out.
 *
 * The storage slot is abstracted as the value JSON.parse yields for it, so
 * writing `JSON.stringify(sessions)` and reading it back is taken to give
 * the same sequence.
 */
module Storage {
  import opened Wrappers
  import opened ChatTypes

  /** What `localStorage.getItem` holds under the store's one fixed key, as JSON.parse sees it:
      nothing (null or the empty string), text that does not parse, or a
      serialized array of sessions. */
  datatype Slot = Absent | Unparsable | Stored(sessions: seq<Session>)

  /** `getAllSessions`: no window, an absent value and a parse failure all
      read as the empty collection. */
  function ReadSessions(windowDefined: bool, slot: Slot): (r: seq<Session>)
    ensures r != [] ==> windowDefined && slot.Stored? && r == slot.sessions
    ensures windowDefined && slot.Stored? ==> r == slot.sessions
  {
    if !windowDefined then []
    else match slot
      case Absent => []
      case Unparsable => []
      case Stored(sessions) => sessions
  }

  predicate HasId(sessions: seq<Session>, id: string) {
    exists k :: 0 <= k < |sessions| && sessions[k].sessionId == id
  }

  /** `k` is the index of the first session carrying `id`. */
  predicate IsFirstMatch(sessions: seq<Session>, id: string, k: int) {
    && 0 <= k < |sessions|
    && sessions[k].sessionId == id
    && forall j :: 0 <= j < k ==> sessions[j].sessionId != id
  }

  /** `Array.prototype.findIndex` on the session id: the first match, or -1. */
  function FindIndex(sessions: seq<Session>, id: string): (i: int)
    ensures i == -1 || IsFirstMatch(sessions, id, i)
    ensures i == -1 <==> !HasId(sessions, id)
  {
    if |sessions| == 0 then -1
    else if sessions[0].sessionId == id then 0
    else
      var j := FindIndex(sessions[1..], id);
      if j < 0 then -1
      else
        assert sessions[1..][j] == sessions[j + 1];
        j + 1
  }

  /** `sessions.find(...) || null`: the first session with the id, null when none has it. */
  function FindSession(sessions: seq<Session>, id: string): (r: Option<Session>)
    ensures r.None? <==> !HasId(sessions, id)
    ensures r.Some? ==> exists k :: IsFirstMatch(sessions, id, k) && sessions[k] == r.value
  {
    var i := FindIndex(sessions, id);
    if i < 0 then None else Some(sessions[i])
  }

  /** The collection `saveSession` writes back: the first session with the
      same id replaced in place, or the new session put in front. */
  function Upsert(sessions: seq<Session>, session: Session): (r: seq<Session>)
    ensures session in r
    ensures HasId(sessions, session.sessionId) ==> |r| == |sessions|
    ensures !HasId(sessions, session.sessionId) ==> |r| == |sessions| + 1 && r[0] == session
  {
    var i := FindIndex(sessions, session.sessionId);
    if i >= 0 then
      assert sessions[i := session][i] == session;
      sessions[i := session]
    else [session] + sessions
  }

  /** The collection `deleteSession` writes back: every session with the id filtered out. */
  function Remove(sessions: seq<Session>, id: string): (r: seq<Session>)
    ensures |r| <= |sessions|
    ensures !HasId(r, id)
    ensures forall s :: s in r <==> s in sessions && s.sessionId != id
  {
    if |sessions| == 0 then []
    else if sessions[0].sessionId == id then Remove(sessions[1..], id)
    else [sessions[0]] + Remove(sessions[1..], id)
  }

  // ---------------------------------------------------------------------
  // Properties of saving
  // ---------------------------------------------------------------------

  /** There is at most one first match. */
  lemma FirstMatchUnique(sessions: seq<Session>, id: string, i: int, k: int)
    requires IsFirstMatch(sessions, id, i) && IsFirstMatch(sessions, id, k)
    ensures i == k
  {
  }

  /** Saving a session whose id is present replaces the first match at the
      same index; the length and every other element stay as they were. */
  lemma SaveReplacesFirstMatch(sessions: seq<Session>, session: Session, k: int)
    requires IsFirstMatch(sessions, session.sessionId, k)
    ensures |Upsert(sessions, session)| == |sessions|
    ensures Upsert(sessions, session)[k] == session
    ensures forall j :: 0 <= j < |sessions| && j != k ==> Upsert(sessions, session)[j] == sessions[j]
  {
    FirstMatchUnique(sessions, session.sessionId, FindIndex(sessions, session.sessionId), k);
  }

  /** Saving a session with a new id puts it at index 0, followed by the old
      collection in its original order. */
  lemma SavePrependsNew(sessions: seq<Session>, session: Session)
    requires !HasId(sessions, session.sessionId)
    ensures |Upsert(sessions, session)| == |sessions| + 1
    ensures Upsert(sessions, session)[0] == session
    ensures Upsert(sessions, session)[1..] == sessions
  {
  }

  /** After saving, looking the id up gives back the saved session. */
  lemma GetAfterSave(sessions: seq<Session>, session: Session)
    ensures FindSession(Upsert(sessions, session), session.sessionId) == Some(session)
  {
    var id := session.sessionId;
    var r := Upsert(sessions, session);
    var i := FindIndex(sessions, id);
    var k := if i >= 0 then i else 0;
    if i >= 0 {
      SaveReplacesFirstMatch(sessions, session, i);
    }
    assert IsFirstMatch(r, id, k);
    FirstMatchUnique(r, id, FindIndex(r, id), k);
  }

  /** Saving leaves the lookup of every other id as it was. */
  lemma SaveKeepsOtherLookups(sessions: seq<Session>, session: Session, other: string)
    requires other != session.sessionId
    ensures FindSession(Upsert(sessions, session), other) == FindSession(sessions, other)
  {
    var i := FindIndex(sessions, session.sessionId);
    if i >= 0 {
      ReplaceKeepsOtherLookups(sessions, i, session, other);
    } else {
      PrependKeepsOtherLookups(sessions, session, other);
    }
  }

  lemma ReplaceKeepsOtherLookups(sessions: seq<Session>, i: nat, session: Session, other: string)
    requires i < |sessions| && sessions[i].sessionId == session.sessionId
    requires other != session.sessionId
    ensures FindSession(sessions[i := session], other) == FindSession(sessions, other)
  {
    var r := sessions[i := session];
    var a := FindIndex(sessions, other);
    assert forall j :: 0 <= j < |r| ==> (r[j].sessionId == other <==> sessions[j].sessionId == other);
    if a >= 0 {
      assert IsFirstMatch(r, other, a);
      FirstMatchUnique(r, other, FindIndex(r, other), a);
    } else {
      assert !HasId(r, other);
    }
  }

  lemma PrependKeepsOtherLookups(sessions: seq<Session>, session: Session, other: string)
    requires other != session.sessionId
    ensures FindSession([session] + sessions, other) == FindSession(sessions, other)
  {
    var r := [session] + sessions;
    var a := FindIndex(sessions, other);
    assert forall j :: 0 <= j < |sessions| ==> r[j + 1] == sessions[j];
    if a >= 0 {
      assert IsFirstMatch(r, other, a + 1);
      FirstMatchUnique(r, other, FindIndex(r, other), a + 1);
    } else {
      assert !HasId(r, other);
    }
  }

  /** Saving the same session twice leaves what saving it once leaves. */
  lemma SaveIdempotent(sessions: seq<Session>, session: Session)
    ensures Upsert(Upsert(sessions, session), session) == Upsert(sessions, session)
  {
    var id := session.sessionId;
    var once := Upsert(sessions, session);
    var i := FindIndex(sessions, id);
    var k := if i >= 0 then i else 0;
    if i >= 0 {
      SaveReplacesFirstMatch(sessions, session, i);
    }
    assert IsFirstMatch(once, id, k);
    SaveReplacesFirstMatch(once, session, k);
  }

  // ---------------------------------------------------------------------
  // Properties of deleting
  // ---------------------------------------------------------------------

  /** Deleting an id nobody carries leaves the collection unchanged. */
  lemma {:induction false} DeleteAbsentIsIdentity(sessions: seq<Session>, id: string)
    requires !HasId(sessions, id)
    ensures Remove(sessions, id) == sessions
  {
    if |sessions| > 0 {
      assert forall k :: 0 <= k < |sessions| - 1 ==> sessions[1..][k] == sessions[k + 1];
      DeleteAbsentIsIdentity(sessions[1..], id);
    }
  }

  /** Deleting keeps the survivors in their relative order: it distributes
      over concatenation. */
  lemma {:induction false} DeleteKeepsOrder(a: seq<Session>, b: seq<Session>, id: string)
    ensures Remove(a + b, id) == Remove(a, id) + Remove(b, id)
  {
    if |a| > 0 {
      assert (a + b)[1..] == a[1..] + b;
      DeleteKeepsOrder(a[1..], b, id);
    } else {
      assert a + b == b;
    }
  }

  /** Deleting removes exactly the sessions carrying the id. */
  lemma {:induction false} DeleteCount(sessions: seq<Session>, id: string)
    ensures |Remove(sessions, id)| == |sessions| - CountId(sessions, id)
  {
    if |sessions| > 0 {
      DeleteCount(sessions[1..], id);
    }
  }

  function CountId(sessions: seq<Session>, id: string): nat {
    if |sessions| == 0 then 0
    else (if sessions[0].sessionId == id then 1 else 0) + CountId(sessions[1..], id)
  }

  /** After deleting, the id can no longer be found. */
  lemma GetAfterDelete(sessions: seq<Session>, id: string)
    ensures FindSession(Remove(sessions, id), id) == None
  {
  }

  // ---------------------------------------------------------------------
  // The store
  // ---------------------------------------------------------------------

  /** The module's functions over the one global storage slot. `windowDefined`
      is false when the code runs on the server, where every operation is a no-op. */
  class BrowserStorage {
    const windowDefined: bool
    var slot: Slot

    constructor (windowDefined: bool, slot: Slot)
      ensures this.windowDefined == windowDefined && this.slot == slot
    {
      this.windowDefined := windowDefined;
      this.slot := slot;
    }

    /** `getAllSessions`. */
    function GetAllSessions(): (r: seq<Session>)
      reads this
      ensures r != [] ==> windowDefined && slot.Stored? && r == slot.sessions
      ensures windowDefined && slot.Stored? ==> r == slot.sessions
    {
      ReadSessions(windowDefined, slot)
    }

    /** `getSession`: the first stored session with the id, null iff none has it. */
    function GetSession(sessionId: string): (r: Option<Session>)
      reads this
      ensures r.None? <==> !HasId(GetAllSessions(), sessionId)
      ensures r.Some? ==> exists k :: IsFirstMatch(GetAllSessions(), sessionId, k) && GetAllSessions()[k] == r.value
    {
      FindSession(GetAllSessions(), sessionId)
    }

    /** `exportSession`: the serialized session, null iff it is not found. */
    function ExportSession(sessionId: string, stringify: Session -> string): (r: Option<string>)
      reads this
      ensures r.None? <==> !HasId(GetAllSessions(), sessionId)
      ensures r.Some? ==> exists k :: IsFirstMatch(GetAllSessions(), sessionId, k) && r.value == stringify(GetAllSessions()[k])
    {
      var session := GetSession(sessionId);
      if session.None? then None else Some(stringify(session.value))
    }

    /** `saveSession`: reads the collection, replaces the first session with
        the same id in place or puts the session in front, and writes the
        collection back. */
    method SaveSession(session: Session)
      modifies this
      ensures !windowDefined ==> slot == old(slot)
      ensures windowDefined ==> slot == Stored(Upsert(old(GetAllSessions()), session))
      ensures windowDefined ==> GetSession(session.sessionId) == Some(session)
    {
      if !windowDefined {
        return;
      }
      var sessions := GetAllSessions();
      var existingIndex := FindIndex(sessions, session.sessionId);
      if existingIndex >= 0 {
        sessions := sessions[existingIndex := session];
      } else {
        sessions := [session] + sessions;
      }
      slot := Stored(sessions);
      GetAfterSave(old(GetAllSessions()), session);
    }

    /** `deleteSession`: writes back the collection without the id. */
    method DeleteSession(sessionId: string)
      modifies this
      ensures !windowDefined ==> slot == old(slot)
      ensures windowDefined ==> slot == Stored(Remove(old(GetAllSessions()), sessionId))
      ensures GetSession(sessionId).None?
    {
      if !windowDefined {
        return;
      }
      var sessions := GetAllSessions();
      var filtered := Remove(sessions, sessionId);
      slot := Stored(filtered);
    }
  }
}
