/**
 * The support agent's active-sessions page: the impersonation session kept
 * in local storage is listed while it has not expired, and ending a session
 * forgets it. Local storage is the map field `storage`; JSON parsing, date
 * parsing and the clock are parameters.
 */
module Sessions {
  import opened Wrappers
  import opened Text

  const SessionStorageKey := "impersonation_session"

  datatype Session = Session(id: string, tenantName: string, tenantSlug: string, startedAt: string, expiresAt: string)

  /** The stored JSON object's fields the page reads. */
  datatype StoredSession = StoredSession(sessionId: string, tenantName: string, tenantSlug: string, expiresAt: string)

  /**
   * The session restored from the stored value: it must be present and not
   * empty, parse (`parse` stands for `JSON.parse` and the field reads, None
   * for a throw), and expire strictly after `now`; `expiry` is the date's
   * time in milliseconds, None for an invalid date, which compares false.
   */
  function Restore(stored: Option<string>, parse: string -> Option<StoredSession>,
                   expiry: string -> Option<int>, now: int, nowIso: string): (r: Option<Session>)
    ensures r.Some? <==>
              && Truthy(stored) && parse(stored.value).Some?
              && expiry(parse(stored.value).value.expiresAt).Some?
              && expiry(parse(stored.value).value.expiresAt).value > now
    ensures r.Some? ==>
              var s := parse(stored.value).value;
              r.value == Session(s.sessionId, s.tenantName, s.tenantSlug, nowIso, s.expiresAt)
  {
    if !Truthy(stored) then None
    else match parse(stored.value)
      case None => None
      case Some(s) =>
        match expiry(s.expiresAt)
        case Some(t) =>
          if t > now then Some(Session(s.sessionId, s.tenantName, s.tenantSlug, nowIso, s.expiresAt)) else None
        case None => None
  }

  /** `sessions.filter(s => s.id !== sessionId)`. */
  function RemoveById(sessions: seq<Session>, id: string): (r: seq<Session>)
    ensures |r| <= |sessions|
    ensures forall s :: s in r <==> s in sessions && s.id != id
  {
    if sessions == [] then []
    else if sessions[0].id == id then RemoveById(sessions[1..], id)
    else [sessions[0]] + RemoveById(sessions[1..], id)
  }

  /** Removal keeps the others in order: it distributes over concatenation. */
  lemma {:induction false} RemoveByIdAppend(a: seq<Session>, b: seq<Session>, id: string)
    ensures RemoveById(a + b, id) == RemoveById(a, id) + RemoveById(b, id)
  {
    if a == [] {
      assert a + b == b;
    } else {
      assert (a + b)[1..] == a[1..] + b;
      RemoveByIdAppend(a[1..], b, id);
    }
  }

  /** Removing an id nobody has changes nothing. */
  lemma {:induction false} RemoveByIdAbsent(sessions: seq<Session>, id: string)
    requires forall i :: 0 <= i < |sessions| ==> sessions[i].id != id
    ensures RemoveById(sessions, id) == sessions
  {
    if sessions != [] {
      RemoveByIdAbsent(sessions[1..], id);
    }
  }

  /** Removing twice is removing once. */
  lemma RemoveByIdIdempotent(sessions: seq<Session>, id: string)
    ensures RemoveById(RemoveById(sessions, id), id) == RemoveById(sessions, id)
  {
    var once := RemoveById(sessions, id);
    forall i | 0 <= i < |once| ensures once[i].id != id {
      assert once[i] in once;
    }
    RemoveByIdAbsent(once, id);
  }

  class ActiveSessionsPage {
    var sessions: seq<Session>
    var loading: bool
    var storage: map<string, string>

    constructor (storage: map<string, string>)
      ensures sessions == [] && loading && this.storage == storage
    {
      sessions, loading := [], true;
      this.storage := storage;
    }

    /**
     * The mount effect: list the stored session if it restores, keep the
     * list otherwise (an unreadable value is logged, not thrown); loading
     * ends in every case.
     */
    method LoadEffect(parse: string -> Option<StoredSession>, expiry: string -> Option<int>, now: int, nowIso: string)
      modifies this
      ensures var restored := Restore(if SessionStorageKey in storage then Some(storage[SessionStorageKey]) else None,
                                      parse, expiry, now, nowIso);
              sessions == if restored.Some? then [restored.value] else old(sessions)
      ensures !loading && storage == old(storage)
    {
      var stored := if SessionStorageKey in storage then Some(storage[SessionStorageKey]) else None;
      if Truthy(stored) {
        var session := parse(stored.value);
        if session.Some? {
          var expiresAt := expiry(session.value.expiresAt);
          if expiresAt.Some? && expiresAt.value > now {
            var s := session.value;
            sessions := [Session(s.sessionId, s.tenantName, s.tenantSlug, nowIso, s.expiresAt)];
          }
        }
      }
      loading := false;
    }

    /** "End Session": forget the stored session and drop the listed ones with that id. */
    method HandleEndSession(sessionId: string)
      modifies this
      ensures storage == old(storage) - {SessionStorageKey}
      ensures sessions == RemoveById(old(sessions), sessionId)
      ensures loading == old(loading)
    {
      storage := storage - {SessionStorageKey};
      sessions := RemoveById(sessions, sessionId);
    }
  }

  /** Mounting the page on fresh state lists at most one session, and one only if it has not expired. */
  method MountPage(storage: map<string, string>, parse: string -> Option<StoredSession>,
                   expiry: string -> Option<int>, now: int, nowIso: string) returns (page: ActiveSessionsPage)
    ensures |page.sessions| <= 1 && !page.loading
    ensures |page.sessions| == 1 ==>
              && SessionStorageKey in storage
              && var s := parse(storage[SessionStorageKey]);
                 s.Some? && expiry(s.value.expiresAt).Some? && expiry(s.value.expiresAt).value > now
  {
    page := new ActiveSessionsPage(storage);
    page.LoadEffect(parse, expiry, now, nowIso);
  }

  /** Ending the one listed session empties the list and the stored value, and a remount lists nothing. */
  method EndThenRemount(page: ActiveSessionsPage, parse: string -> Option<StoredSession>,
                        expiry: string -> Option<int>, now: int, nowIso: string) returns (again: ActiveSessionsPage)
    requires |page.sessions| == 1
    modifies page
    ensures page.sessions == [] && SessionStorageKey !in page.storage
    ensures again.sessions == []
  {
    page.HandleEndSession(page.sessions[0].id);
    again := MountPage(page.storage, parse, expiry, now, nowIso);
  }
}
