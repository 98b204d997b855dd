/**
 * The session table of src/managers/sessionManager.ts: sessions by id in
 * insertion order, and the id of the active one. The clock and the fresh
 * id are parameters; a time is a number of milliseconds.
 */
module Sessions {
  import opened Wrappers
  import opened Strings
  import opened OrderedMaps
  import opened Limits

  datatype Session = Session(id: string, name: string, createdAt: int, lastActiveAt: int, messageCount: nat, workDir: string)

  /** What `getStats` reports. */
  datatype Stats = Stats(total: nat, active: nat)

  const DefaultNamePrefix: string := "会话 "

  /** `name || \`会话 ${size + 1}\``: an absent or empty name gives the numbered default. */
  function SessionName(name: Option<string>, size: nat): string {
    if name.Some? && name.value != "" then name.value else DefaultNamePrefix + NatToString(size + 1)
  }

  /** `sessionId || this.activeSessionId`, with `if (!id) return` as `None`. */
  function TargetId(sessionId: Option<string>, active: Option<string>): (r: Option<string>)
    ensures r.Some? ==> r.value != ""
    ensures sessionId.Some? && sessionId.value != "" ==> r == sessionId
  {
    if sessionId.Some? && sessionId.value != "" then sessionId
    else if active.Some? && active.value != "" then active
    else None
  }

  /** Idle for longer than the session timeout at time `now`. */
  predicate IsExpired(s: Session, now: int) {
    now - s.lastActiveAt > SessionTimeoutMs
  }

  /** The ids in `keys` whose session has expired, in order. */
  function ExpiredIds(keys: seq<string>, values: map<string, Session>, now: int): (r: seq<string>)
    ensures forall x :: x in r <==> x in keys && x in values && IsExpired(values[x], now)
  {
    if keys == [] then []
    else
      var rest := ExpiredIds(keys[1..], values, now);
      if keys[0] in values && IsExpired(values[keys[0]], now) then [keys[0]] + rest else rest
  }

  /** The ids of the expired sessions of a table. */
  ghost function ExpiredSet(values: map<string, Session>, now: int): set<string> {
    set k | k in values && IsExpired(values[k], now)
  }

  /** Filtering a concatenation filters each part. */
  lemma {:induction false} ExpiredIdsAppend(a: seq<string>, b: seq<string>, values: map<string, Session>, now: int)
    ensures ExpiredIds(a + b, values, now) == ExpiredIds(a, values, now) + ExpiredIds(b, values, now)
  {
    if a == [] {
      assert a + b == b;
    } else {
      assert (a + b)[0] == a[0];
      assert (a + b)[1..] == a[1..] + b;
      ExpiredIdsAppend(a[1..], b, values, now);
    }
  }

  /** `s` without the elements of `d`, order kept. */
  function Keep(s: seq<string>, d: set<string>): (r: seq<string>)
    ensures forall x :: x in r <==> x in s && x !in d
  {
    if s == [] then []
    else if s[0] in d then Keep(s[1..], d)
    else [s[0]] + Keep(s[1..], d)
  }

  /** Deleting one more key keeps the others in order. */
  lemma {:induction false} WithoutKeep(s: seq<string>, d: set<string>, k: string)
    ensures Without(Keep(s, d), k) == Keep(s, d + {k})
  {
    if s != [] {
      WithoutKeep(s[1..], d, k);
    }
  }

  /** The expired ids and the ids kept split the keys between them. */
  lemma {:induction false} ExpiredKeepCount(s: seq<string>, values: map<string, Session>, now: int)
    requires forall x :: x in s ==> x in values
    ensures |ExpiredIds(s, values, now)| + |Keep(s, ExpiredSet(values, now))| == |s|
  {
    if s != [] {
      ExpiredKeepCount(s[1..], values, now);
    }
  }

  /** Newest first: `lastActiveAt` never increases along the list. */
  predicate NewestFirst(s: seq<Session>) {
    forall i, j :: 0 <= i < j < |s| ==> s[i].lastActiveAt >= s[j].lastActiveAt
  }

  /** `x` put before the first session of `s` that is no newer than it. */
  function InsertByRecent(x: Session, s: seq<Session>): (r: seq<Session>)
    ensures multiset(r) == multiset(s) + multiset{x}
  {
    if s == [] then [x]
    else if s[0].lastActiveAt <= x.lastActiveAt then [x] + s
    else
      assert s == [s[0]] + s[1..];
      [s[0]] + InsertByRecent(x, s[1..])
  }

  /** What the insertion holds is `x` or a session of `s`. */
  lemma {:induction false} InsertMembers(x: Session, s: seq<Session>)
    ensures forall y :: y in InsertByRecent(x, s) ==> y == x || y in s
  {
    if s != [] && s[0].lastActiveAt > x.lastActiveAt {
      InsertMembers(x, s[1..]);
    }
  }

  /** Inserting into a newest-first list keeps it newest first. */
  lemma {:induction false} InsertKeepsOrder(x: Session, s: seq<Session>)
    requires NewestFirst(s)
    ensures NewestFirst(InsertByRecent(x, s))
  {
    if s != [] && s[0].lastActiveAt > x.lastActiveAt {
      var rest := InsertByRecent(x, s[1..]);
      InsertKeepsOrder(x, s[1..]);
      InsertMembers(x, s[1..]);
      var r := [s[0]] + rest;
      assert r == InsertByRecent(x, s);
      forall i, j | 0 <= i < j < |r|
        ensures r[i].lastActiveAt >= r[j].lastActiveAt
      {
        if i == 0 {
          var y := rest[j - 1];
          assert r[j] == y && y in rest;
          if y != x {
            var k :| 0 <= k < |s[1..]| && s[1..][k] == y;
            assert s[k + 1] == y;
          }
        } else {
          assert r[i] == rest[i - 1] && r[j] == rest[j - 1];
        }
      }
    }
  }

  /** `sort((a, b) => b.lastActiveAt - a.lastActiveAt)`: an insertion sort that keeps ties in their order. */
  function SortByRecent(s: seq<Session>): (r: seq<Session>)
    ensures multiset(r) == multiset(s)
  {
    if s == [] then []
    else
      assert s == [s[0]] + s[1..];
      InsertByRecent(s[0], SortByRecent(s[1..]))
  }

  /** The sort puts the sessions newest first. */
  lemma {:induction false} SortNewestFirst(s: seq<Session>)
    ensures NewestFirst(SortByRecent(s))
  {
    if s != [] {
      SortNewestFirst(s[1..]);
      InsertKeepsOrder(s[0], SortByRecent(s[1..]));
    }
  }

  /** Every session of the table is stored under its own id. */
  ghost predicate IdsMatch(t: OMap<string, Session>) {
    forall k :: k in t.values ==> t.values[k].id == k
  }

  /** The elements of a sequence. */
  ghost function SetOf(s: seq<string>): set<string> {
    set x | x in s
  }

  /** The ids the first loop collects from all the keys are those of the expired sessions. */
  lemma ExpiredIdsAll(t: OMap<string, Session>, now: int)
    requires t.Valid()
    ensures SetOf(ExpiredIds(t.keys, t.values, now)) == ExpiredSet(t.values, now)
  {
    var e := ExpiredIds(t.keys, t.values, now);
    forall x
      ensures x in e <==> x in ExpiredSet(t.values, now)
    {
      if x in t.values {
        assert x in t.keys;
      }
    }
  }

  /** One more element of a prefix adds it to the prefix's elements. */
  lemma SetOfPrefix(s: seq<string>, j: nat)
    requires j < |s|
    ensures SetOf(s[..j + 1]) == SetOf(s[..j]) + {s[j]}
  {
    assert s[..j + 1] == s[..j] + [s[j]];
  }

  /** Keeping all but nothing keeps everything. */
  lemma {:induction false} KeepAll(s: seq<string>)
    ensures Keep(s, {}) == s
  {
    if s != [] {
      KeepAll(s[1..]);
    }
  }

  /** One deletion of the second loop of `cleanupExpiredSessions`. */
  lemma DeleteOneMore(t: OMap<string, Session>, orig: OMap<string, Session>, gone: set<string>, k: string)
    requires t.Valid() && IdsMatch(t)
    requires t.keys == Keep(orig.keys, gone) && t.values == orig.values - gone
    ensures t.Delete(k).Valid() && IdsMatch(t.Delete(k))
    ensures t.Delete(k).keys == Keep(orig.keys, gone + {k})
    ensures t.Delete(k).values == orig.values - (gone + {k})
  {
    WithoutKeep(orig.keys, gone, k);
  }

  class SessionManager {
    var sessions: OMap<string, Session>
    var activeSessionId: Option<string>

    /** Every session is stored under its own id. */
    ghost predicate Valid()
      reads this
    {
      sessions.Valid() && forall k :: k in sessions.values ==> sessions.values[k].id == k
    }

    constructor()
      ensures Valid() && sessions == Empty() && activeSessionId == None
    {
      sessions := Empty();
      activeSessionId := None;
    }

    /**
     * `createSession`: a session with no messages, created and active at
     * `now`, goes in under `id` and becomes the active one.
     */
    method CreateSession(name: Option<string>, id: string, now: int, workDir: string) returns (session: Session)
      requires Valid()
      modifies this
      ensures Valid()
      ensures session == Session(id, SessionName(name, old(sessions.Size())), now, now, 0, workDir)
      ensures sessions == old(sessions).Set(id, session) && activeSessionId == Some(id)
      ensures id != "" ==> GetActiveSession() == Some(session)
    {
      session := Session(id, SessionName(name, sessions.Size()), now, now, 0, workDir);
      sessions.SetValid(id, session);
      sessions := sessions.Set(id, session);
      activeSessionId := Some(id);
    }

    /** `getActiveSession`: the session under the active id; none when the id is absent or empty or its session is gone. */
    function GetActiveSession(): (r: Option<Session>)
      reads this
      requires Valid()
      ensures r.Some? ==> activeSessionId == Some(r.value.id) && sessions.Get(r.value.id) == r
      ensures r.None? ==> activeSessionId.None? || activeSessionId.value == "" || !sessions.Has(activeSessionId.value)
    {
      if activeSessionId.None? || activeSessionId.value == "" then None
      else sessions.Get(activeSessionId.value)
    }

    /** `setActiveSession`: false and nothing changes for an unknown id; else the id becomes active and its session is touched. */
    method SetActiveSession(sessionId: string, now: int) returns (ok: bool)
      requires Valid()
      modifies this
      ensures Valid()
      ensures ok <==> old(sessions.Has(sessionId))
      ensures !ok ==> sessions == old(sessions) && activeSessionId == old(activeSessionId)
      ensures ok ==> activeSessionId == Some(sessionId)
                     && sessions == old(sessions).Set(sessionId, old(sessions.values[sessionId]).(lastActiveAt := now))
      ensures ok && sessionId != "" ==> GetActiveSession().Some? && GetActiveSession().value.id == sessionId
    {
      if !sessions.Has(sessionId) {
        return false;
      }
      activeSessionId := Some(sessionId);
      var session := sessions.values[sessionId];
      sessions.SetValid(sessionId, session.(lastActiveAt := now));
      sessions := sessions.Set(sessionId, session.(lastActiveAt := now));
      ok := true;
    }

    /**
     * `incrementMessageCount`: one more message for the given session, or
     * else the active one, which is touched; nothing when there is no such
     * session.
     */
    method IncrementMessageCount(sessionId: Option<string>, now: int)
      requires Valid()
      modifies this
      ensures Valid() && activeSessionId == old(activeSessionId)
      ensures var id := TargetId(sessionId, old(activeSessionId));
              if id.Some? && old(sessions.Has(id.value)) then
                var s := old(sessions.values[id.value]);
                sessions == old(sessions).Set(id.value, s.(messageCount := s.messageCount + 1, lastActiveAt := now))
              else sessions == old(sessions)
    {
      var id := TargetId(sessionId, activeSessionId);
      if id.None? {
        return;
      }
      if sessions.Has(id.value) {
        var s := sessions.values[id.value];
        var touched := s.(messageCount := s.messageCount + 1, lastActiveAt := now);
        sessions.SetValid(id.value, touched);
        sessions := sessions.Set(id.value, touched);
      }
    }

    /** `listSessions`: every session once, newest first. */
    function ListSessions(): (r: seq<Session>)
      reads this
      requires Valid()
      ensures NewestFirst(r)
      ensures multiset(r) == multiset(sessions.ValueList())
    {
      SortNewestFirst(sessions.ValueList());
      SortByRecent(sessions.ValueList())
    }

    /** `getSession`: the session stored under `sessionId`, which carries that id. */
    function GetSession(sessionId: string): (r: Option<Session>)
      reads this
      requires Valid()
      ensures r.Some? <==> sessions.Has(sessionId)
      ensures r.Some? ==> r.value.id == sessionId && r.value == sessions.values[sessionId]
    {
      sessions.Get(sessionId)
    }

    /** `deleteSession`: whether the id was there; the active id is cleared exactly when it was the one deleted. */
    method DeleteSession(sessionId: string) returns (existed: bool)
      requires Valid()
      modifies this
      ensures Valid()
      ensures existed <==> old(sessions.Has(sessionId))
      ensures sessions == old(sessions).Delete(sessionId) && !sessions.Has(sessionId)
      ensures activeSessionId == if existed && old(activeSessionId) == Some(sessionId) then None else old(activeSessionId)
    {
      existed := sessions.Has(sessionId);
      sessions := sessions.Delete(sessionId);
      if existed && activeSessionId == Some(sessionId) {
        activeSessionId := None;
      }
    }

    /** The first loop of `cleanupExpiredSessions`: the ids of the sessions expired at `now`, in the table's order. */
    method CollectExpired(now: int) returns (expired: seq<string>)
      requires Valid()
      ensures expired == ExpiredIds(sessions.keys, sessions.values, now)
    {
      var keys := sessions.keys;
      expired := [];
      var i := 0;
      while i < |keys|
        invariant 0 <= i <= |keys|
        invariant expired == ExpiredIds(keys[..i], sessions.values, now)
      {
        assert keys[i] in keys;
        ExpiredIdsAppend(keys[..i], [keys[i]], sessions.values, now);
        assert keys[..i + 1] == keys[..i] + [keys[i]];
        if now - sessions.values[keys[i]].lastActiveAt > SessionTimeoutMs {
          expired := expired + [keys[i]];
        }
        i := i + 1;
      }
      assert keys[..|keys|] == keys;
    }

    /** The second loop of `cleanupExpiredSessions`: each of the ids is deleted in turn. */
    method DeleteAll(ids: seq<string>)
      requires Valid()
      modifies this
      ensures Valid() && activeSessionId == old(activeSessionId)
      ensures sessions.keys == Keep(old(sessions).keys, SetOf(ids))
      ensures sessions.values == old(sessions).values - SetOf(ids)
    {
      KeepAll(sessions.keys);
      assert SetOf(ids[..0]) == {};
      var j := 0;
      while j < |ids|
        invariant 0 <= j <= |ids|
        invariant sessions.Valid() && IdsMatch(sessions) && activeSessionId == old(activeSessionId)
        invariant sessions.keys == Keep(old(sessions).keys, SetOf(ids[..j]))
        invariant sessions.values == old(sessions).values - SetOf(ids[..j])
      {
        DeleteOneMore(sessions, old(sessions), SetOf(ids[..j]), ids[j]);
        SetOfPrefix(ids, j);
        sessions := sessions.Delete(ids[j]);
        j := j + 1;
      }
      assert ids[..|ids|] == ids;
    }

    /**
     * `cleanupExpiredSessions`: the ids of the expired sessions are
     * collected in order, then deleted; the number deleted is returned.
     * The active id is left as it is, even when its session is gone.
     */
    method CleanupExpiredSessions(now: int) returns (count: nat)
      requires Valid()
      modifies this
      ensures Valid() && activeSessionId == old(activeSessionId)
      ensures sessions.values == old(sessions).values - ExpiredSet(old(sessions).values, now)
      ensures sessions.keys == Keep(old(sessions).keys, ExpiredSet(old(sessions).values, now))
      ensures count + sessions.Size() == old(sessions.Size())
    {
      var expired := CollectExpired(now);
      ExpiredIdsAll(sessions, now);
      ExpiredKeepCount(sessions.keys, sessions.values, now);
      DeleteAll(expired);
      count := |expired|;
    }

    /** `getStats`: the number of sessions, and 1 exactly when there is a non-empty active id. */
    function GetStats(): (r: Stats)
      reads this
      ensures r.total == sessions.Size()
      ensures r.active == 1 <==> activeSessionId.Some? && activeSessionId.value != ""
      ensures r.active <= 1
    {
      Stats(sessions.Size(), if activeSessionId.Some? && activeSessionId.value != "" then 1 else 0)
    }
  }
}
