/** The in-memory session store: a Map from session id to a comparison session
    that lives for thirty minutes. Sessions expire lazily, when they are read
    or when a new session is created. Every clock reading (`Date.now()`) and the
    random session id are parameters. */
module Storage {
  import opened Common
  import opened Spotify

  /** Thirty minutes, in milliseconds. */
  const TTL: int := 30 * 60 * 1000

  // ---------------------------------------------------------------------------
  // The store as a value

  /** What a session holds, as a value. */
  datatype SessionData = SessionData(
    id: string,
    user1Profile: TasteProfile,
    user2Profile: Option<TasteProfile>,
    createdAt: int,
    expiresAt: int)

  predicate Expired(s: SessionData, now: int)
  {
    now > s.expiresAt
  }

  /** The store after `cleanup`: the sessions that have not expired. */
  function Live(m: map<string, SessionData>, now: int): map<string, SessionData>
  {
    map k | k in m && !Expired(m[k], now) :: m[k]
  }

  /** A session just created for the first user. */
  function NewSession(id: string, user1Profile: TasteProfile, now: int): SessionData
  {
    SessionData(id, user1Profile, None, now, now + TTL)
  }

  /** The store after `createSession`: the new session, stamped with the
      clock reading `now`, added and then cleaned up with the later reading
      `cleanupNow` that `cleanup` takes. */
  function Created(m: map<string, SessionData>, id: string, user1Profile: TasteProfile,
                   now: int, cleanupNow: int): map<string, SessionData>
  {
    Live(m[id := NewSession(id, user1Profile, now)], cleanupNow)
  }

  /** What `getSession` returns, and the store it leaves behind. */
  datatype Lookup = Lookup(found: Option<SessionData>, after: map<string, SessionData>)

  function Get(m: map<string, SessionData>, id: string, now: int): Lookup
  {
    if id !in m then Lookup(None, m)
    else if Expired(m[id], now) then Lookup(None, m - {id})
    else Lookup(Some(m[id]), m)
  }

  /** Whether an update succeeds, and the store it leaves behind. */
  datatype Outcome = Outcome(ok: bool, after: map<string, SessionData>)

  /** `addUser2ToSession`: a live session gets its second profile. */
  function AddUser2(m: map<string, SessionData>, id: string, user2Profile: TasteProfile, now: int): Outcome
  {
    var l := Get(m, id, now);
    match l.found
    case None => Outcome(false, l.after)
    case Some(s) => Outcome(true, l.after[id := s.(user2Profile := Some(user2Profile))])
  }

  /** `updateSessionData`: a live session gets both profiles replaced. */
  function Update(m: map<string, SessionData>, id: string, user1Profile: TasteProfile,
                  user2Profile: TasteProfile, now: int): Outcome
  {
    var l := Get(m, id, now);
    match l.found
    case None => Outcome(false, l.after)
    case Some(s) => Outcome(true, l.after[id := s.(user1Profile := user1Profile, user2Profile := Some(user2Profile))])
  }

  // ---------------------------------------------------------------------------
  // Properties of the store

  /** Cleanup removes exactly the sessions past their expiry time and leaves
      every other session as it was; a second cleanup at the same time changes
      nothing. */
  lemma LiveSpec(m: map<string, SessionData>, now: int)
    ensures forall k :: k in Live(m, now) <==> k in m && now <= m[k].expiresAt
    ensures forall k :: k in Live(m, now) ==> Live(m, now)[k] == m[k]
    ensures Live(Live(m, now), now) == Live(m, now)
  {
  }

  /** A session is kept until its expiry time inclusive. */
  lemma GetAtExpiry(m: map<string, SessionData>, id: string)
    requires id in m
    ensures Get(m, id, m[id].expiresAt) == Lookup(Some(m[id]), m)
    ensures Get(m, id, m[id].expiresAt + 1) == Lookup(None, m - {id})
  {
  }

  /** An unknown id is not found and changes nothing; an expired one is not
      found and is removed; a live one is found and nothing changes. */
  lemma GetSpec(m: map<string, SessionData>, id: string, now: int)
    ensures Get(m, id, now).found.Some? <==> id in m && now <= m[id].expiresAt
    ensures Get(m, id, now).found.Some? ==> Get(m, id, now).found.value == m[id]
    ensures id in m && now > m[id].expiresAt ==> id !in Get(m, id, now).after
    ensures forall k :: k != id ==> (k in Get(m, id, now).after <==> k in m)
    ensures forall k :: k in Get(m, id, now).after ==> Get(m, id, now).after[k] == m[k]
  {
  }

  /** The new session expires thirty minutes after it is created and has no
      second profile. It survives the cleanup that follows its creation
      exactly when the cleanup's clock reading is not past that expiry, and
      it is then found at any instant up to it. Another session survives
      exactly when it has not expired at the cleanup's reading. */
  lemma CreatedSpec(m: map<string, SessionData>, id: string, user1Profile: TasteProfile,
                    now: int, cleanupNow: int)
    ensures id in Created(m, id, user1Profile, now, cleanupNow) <==> cleanupNow <= now + TTL
    ensures id in Created(m, id, user1Profile, now, cleanupNow) ==>
              Created(m, id, user1Profile, now, cleanupNow)[id] == SessionData(id, user1Profile, None, now, now + TTL)
              && forall t :: t <= now + TTL ==>
                   Get(Created(m, id, user1Profile, now, cleanupNow), id, t).found == Some(NewSession(id, user1Profile, now))
    ensures cleanupNow == now ==> id in Created(m, id, user1Profile, now, cleanupNow)
    ensures forall k :: k != id ==>
              (k in Created(m, id, user1Profile, now, cleanupNow) <==> k in m && cleanupNow <= m[k].expiresAt)
  {
    assert TTL > 0;
  }

  /** Adding the second user fails exactly when the session is missing or
      expired (and an expired session is removed); on success only the second
      profile of that session changes, while its id, first profile and both
      timestamps stay. No other session is touched. */
  lemma AddUser2Spec(m: map<string, SessionData>, id: string, user2Profile: TasteProfile, now: int)
    ensures var o := AddUser2(m, id, user2Profile, now);
            && (o.ok <==> id in m && now <= m[id].expiresAt)
            && (o.ok ==> id in o.after
                         && o.after[id].user2Profile == Some(user2Profile)
                         && o.after[id].id == m[id].id
                         && o.after[id].user1Profile == m[id].user1Profile
                         && o.after[id].createdAt == m[id].createdAt
                         && o.after[id].expiresAt == m[id].expiresAt)
            && (!o.ok ==> id !in o.after || id !in m)
            && (forall k :: k != id ==> (k in o.after <==> k in m) && (k in m ==> o.after[k] == m[k]))
  {
  }

  /** Updating replaces both profiles of a live session and keeps its
      timestamps: the time to live is not refreshed. */
  lemma UpdateSpec(m: map<string, SessionData>, id: string, user1Profile: TasteProfile,
                   user2Profile: TasteProfile, now: int)
    ensures var o := Update(m, id, user1Profile, user2Profile, now);
            && (o.ok <==> id in m && now <= m[id].expiresAt)
            && (o.ok ==> id in o.after
                         && o.after[id].user1Profile == user1Profile
                         && o.after[id].user2Profile == Some(user2Profile)
                         && o.after[id].id == m[id].id
                         && o.after[id].createdAt == m[id].createdAt
                         && o.after[id].expiresAt == m[id].expiresAt)
            && (!o.ok ==> id !in o.after || id !in m)
            && (forall k :: k != id ==> (k in o.after <==> k in m) && (k in m ==> o.after[k] == m[k]))
  {
  }

  // ---------------------------------------------------------------------------
  // The store as objects

  /** A comparison session. Its id and timestamps are never reassigned; the
      profiles are updated in place. */
  class Session {
    const id: string
    var user1Profile: TasteProfile
    var user2Profile: Option<TasteProfile>
    const createdAt: int
    const expiresAt: int

    constructor (id: string, user1Profile: TasteProfile, createdAt: int, expiresAt: int)
      ensures this.id == id && this.user1Profile == user1Profile && this.user2Profile == None
      ensures this.createdAt == createdAt && this.expiresAt == expiresAt
    {
      this.id := id;
      this.user1Profile := user1Profile;
      this.user2Profile := None;
      this.createdAt := createdAt;
      this.expiresAt := expiresAt;
    }

    ghost function Data(): SessionData
      reads this
    {
      SessionData(id, user1Profile, user2Profile, createdAt, expiresAt)
    }
  }

  class InMemoryStorage {
    var sessions: map<string, Session>

    /** Every session is stored under its own id, so distinct keys hold
        distinct session objects. */
    ghost predicate Valid()
      reads this
    {
      forall k :: k in sessions ==> sessions[k].id == k
    }

    /** The store's content as a value. */
    ghost function Contents(): map<string, SessionData>
      reads this, sessions.Values
    {
      map k | k in sessions :: sessions[k].Data()
    }

    constructor ()
      ensures Valid() && Contents() == map[]
    {
      sessions := map[];
    }

    /** `createSession`, with the generated id supplied. The clock is read
        twice: `now` when the session is stamped, and `cleanupNow` inside the
        cleanup that follows. */
    method CreateSession(user1Profile: TasteProfile, sessionId: string, now: int, cleanupNow: int)
      returns (id: string)
      requires Valid()
      modifies this
      ensures Valid()
      ensures id == sessionId
      ensures Contents() == Created(old(Contents()), sessionId, user1Profile, now, cleanupNow)
    {
      var session := new Session(sessionId, user1Profile, now, now + TTL);
      ghost var before := Contents();
      sessions := sessions[sessionId := session];
      assert Contents() == before[sessionId := NewSession(sessionId, user1Profile, now)];
      Cleanup(cleanupNow);
      id := sessionId;
    }

    /** `getSession`: the stored session object itself, or null when it is
        missing or expired; an expired session is deleted. */
    method GetSession(sessionId: string, now: int) returns (session: Session?)
      requires Valid()
      modifies this
      ensures Valid()
      ensures Contents() == Get(old(Contents()), sessionId, now).after
      ensures session == null <==> Get(old(Contents()), sessionId, now).found.None?
      ensures session != null ==> sessionId in sessions && session == sessions[sessionId]
                                  && session.id == sessionId
      ensures sessions.Values <= old(sessions.Values)
    {
      if sessionId !in sessions {
        return null;
      }
      session := sessions[sessionId];
      if now > session.expiresAt {
        sessions := sessions - {sessionId};
        return null;
      }
    }

    /** `addUser2ToSession`. */
    method AddUser2ToSession(sessionId: string, user2Profile: TasteProfile, now: int) returns (ok: bool)
      requires Valid()
      modifies this, sessions.Values
      ensures Valid()
      ensures ok == AddUser2(old(Contents()), sessionId, user2Profile, now).ok
      ensures Contents() == AddUser2(old(Contents()), sessionId, user2Profile, now).after
    {
      ghost var before := Contents();
      var session := GetSession(sessionId, now);
      if session == null {
        return false;
      }
      ghost var found := Contents();
      session.user2Profile := Some(user2Profile);
      sessions := sessions[sessionId := session];
      Touched(found, sessionId);
      ok := true;
    }

    /** `updateSessionData`. */
    method UpdateSessionData(sessionId: string, user1Profile: TasteProfile, user2Profile: TasteProfile, now: int)
      returns (ok: bool)
      requires Valid()
      modifies this, sessions.Values
      ensures Valid()
      ensures ok == Update(old(Contents()), sessionId, user1Profile, user2Profile, now).ok
      ensures Contents() == Update(old(Contents()), sessionId, user1Profile, user2Profile, now).after
    {
      var session := GetSession(sessionId, now);
      if session == null {
        return false;
      }
      ghost var found := Contents();
      session.user1Profile := user1Profile;
      session.user2Profile := Some(user2Profile);
      sessions := sessions[sessionId := session];
      Touched(found, sessionId);
      ok := true;
    }

    /** After the session stored under `id` was changed in place, the content
        differs from `before` at `id` only. */
    ghost method Touched(before: map<string, SessionData>, id: string)
      requires Valid() && id in sessions && id in before
      requires forall k :: k in before <==> k in sessions
      requires forall k :: k in sessions && k != id ==> before[k] == sessions[k].Data()
      ensures Contents() == before[id := sessions[id].Data()]
    {
    }

    /** `cleanup`: deletes every session whose expiry time has passed. The
        entries are visited in some order; the outcome does not depend on it. */
    method Cleanup(now: int)
      requires Valid()
      modifies this
      ensures Valid()
      ensures Contents() == Live(old(Contents()), now)
      ensures sessions.Values <= old(sessions.Values)
    {
      ghost var start := sessions;
      var todo := sessions.Keys;
      while todo != {}
        invariant todo <= start.Keys
        invariant sessions == map k | k in start && (k in todo || now <= start[k].expiresAt) :: start[k]
        decreases todo
      {
        var k :| k in todo;
        if now > sessions[k].expiresAt {
          sessions := sessions - {k};
        }
        todo := todo - {k};
      }
    }
  }
}
