/**
 Refresh-token sessions: each login starts a family, each refresh replaces the presented token by the next of
 its family. Sessions are stored under their token's hash, and hashes stand for tokens throughout.
 */
module Sessions {
  import opened Wrappers

  datatype Session = Session(
    id: string,
    user: string,
    family: string,
    expiresAt: int,
    revoked: bool,
    replacedBy: Option<string>)

  type Store = map<string, Session>

  const WEEK := 7 * 24 * 3600 * 1_000_000_000

  /** A request, with the clock's reading, the fresh names drawn for it and whether the session's user is active. */
  datatype Event =
    | Login(now: int, user: string, id: string, family: string, hash: string)
    | Refresh(now: int, hash: string, active: bool, newId: string, newHash: string)
    | Logout(hash: string)

  function Issued(now: int, user: string, id: string, family: string): Session {
    Session(id, user, family, now + WEEK, false, None)
  }

  function FamilyRevoked(s: Store, family: string): Store {
    map h | h in s :: if s[h].family == family then s[h].(revoked := true) else s[h]
  }

  function Revoked(s: Store, hash: string, replacedBy: Option<string>): Store
    requires hash in s
  {
    s[hash := s[hash].(revoked := true, replacedBy := replacedBy)]
  }

  /** A refresh that replaces the presented token. */
  predicate Rotates(s: Store, e: Event) {
    e.Refresh? && e.hash in s && !s[e.hash].revoked && e.now <= s[e.hash].expiresAt && e.active
  }

  function Next(s: Store, e: Event): Store {
    match e
    case Login(now, user, id, family, hash) => s[hash := Issued(now, user, id, family)]
    case Refresh(now, hash, active, newId, newHash) =>
      if hash !in s then s
      else if s[hash].revoked then FamilyRevoked(s, s[hash].family)
      else if now > s[hash].expiresAt || !active then s
      else
        var rotated := s[newHash := Issued(now, s[hash].user, newId, s[hash].family)];
        Revoked(rotated, hash, Some(newId))
    case Logout(hash) => if hash in s then Revoked(s, hash, None) else s
  }

  function Run(log: seq<Event>): Store {
    if log == [] then map[] else Next(Run(log[..|log| - 1]), log[|log| - 1])
  }

  /** The tokens, session IDs and families drawn for an event are new. */
  ghost predicate Fresh(s: Store, e: Event) {
    match e
    case Login(_, _, id, family, hash) =>
      hash !in s && forall h | h in s :: s[h].id != id && s[h].family != family
    case Refresh(_, _, _, newId, newHash) => newHash !in s && forall h | h in s :: s[h].id != newId
    case Logout(_) => true
  }

  ghost predicate AllFresh(log: seq<Event>) {
    forall i | 0 <= i < |log| :: Fresh(Run(log[..i]), log[i])
  }

  lemma FreshPrefix(log: seq<Event>, n: nat)
    requires AllFresh(log) && n <= |log|
    ensures AllFresh(log[..n])
  {
    assert forall i | 0 <= i < n :: log[..n][..i] == log[..i];
  }

  predicate Live(s: Store, hash: string) {
    hash in s && !s[hash].revoked
  }

  predicate Dead(s: Store, family: string) {
    forall h | h in s && s[h].family == family :: s[h].revoked
  }

  predicate Known(s: Store, family: string) {
    exists h :: h in s && s[h].family == family
  }

  // ---- What each request brings about ----

  lemma RunOneMore(log: seq<Event>, e: Event)
    ensures Run(log + [e]) == Next(Run(log), e)
  {
    assert (log + [e])[..|log|] == log;
  }

  /** A login adds one session, good for seven days; a logout revokes the session of its token and no other. */
  lemma LoginAndLogout(log: seq<Event>, now: int, user: string, id: string, family: string, hash: string)
    ensures Run(log + [Login(now, user, id, family, hash)]) ==
            Run(log)[hash := Session(id, user, family, now + 604_800_000_000_000, false, None)]
    ensures var s, after := Run(log), Run(log + [Logout(hash)]);
            if hash in s then after == s[hash := s[hash].(revoked := true, replacedBy := None)] else after == s
  {
    RunOneMore(log, Login(now, user, id, family, hash));
    RunOneMore(log, Logout(hash));
  }

  /**
   What a refresh does: nothing for an unknown or expired token or an inactive user; for a revoked one it revokes the
   family; and else it revokes the token and issues the next one of its family to the same user for seven days.
   */
  lemma RefreshDoes(log: seq<Event>, now: int, hash: string, active: bool, newId: string, newHash: string)
    requires newHash !in Run(log)
    ensures var s, after := Run(log), Run(log + [Refresh(now, hash, active, newId, newHash)]);
            if hash !in s then after == s
            else if s[hash].revoked then
              && after.Keys == s.Keys
              && forall h | h in s :: after[h] == if s[h].family == s[hash].family then s[h].(revoked := true) else s[h]
            else if now > s[hash].expiresAt || !active then after == s
            else after == s[hash := s[hash].(revoked := true, replacedBy := Some(newId))]
                           [newHash := Session(newId, s[hash].user, s[hash].family, now + 604_800_000_000_000,
                                               false, None)]
  {
    RunOneMore(log, Refresh(now, hash, active, newId, newHash));
  }

  /** An event that issues a token, in the store it meets. */
  predicate Issues(s: Store, e: Event, hash: string) {
    (e.Login? && e.hash == hash) || (Rotates(s, e) && e.newHash == hash)
  }

  lemma StepKeepsIssue(s: Store, e: Event, hash: string)
    requires Fresh(s, e) && hash in s
    ensures var after := Next(s, e);
            && hash in after && after[hash].user == s[hash].user && after[hash].family == s[hash].family
            && after[hash].expiresAt == s[hash].expiresAt
  {
  }

  /**
   A token keeps its user, family and expiry for good: it can be used exactly while it is not revoked, its user is
   active, and no more than seven days have passed since it was issued.
   */
  lemma {:induction false} UsableForAWeek(log: seq<Event>, n: nat, hash: string)
    requires AllFresh(log) && n < |log| && Issues(Run(log[..n]), log[n], hash)
    ensures hash in Run(log) && Run(log)[hash].expiresAt == log[n].now + 604_800_000_000_000
    ensures forall now, active, newId, newHash ::
              Rotates(Run(log), Refresh(now, hash, active, newId, newHash)) <==>
                !Run(log)[hash].revoked && active && now <= log[n].now + 604_800_000_000_000
    decreases |log|
  {
    var before, e := log[..|log| - 1], log[|log| - 1];
    FreshPrefix(log, |before|);
    assert log[..|before|] == before;
    if n < |before| {
      assert before[..n] == log[..n];
      UsableForAWeek(before, n, hash);
      hide Run;
      StepKeepsIssue(Run(before), e, hash);
    }
  }

  ghost predicate OneUser(s: Store) {
    forall g, h | g in s && h in s && s[g].family == s[h].family :: s[g].user == s[h].user
  }

  lemma StepKeepsUsers(s: Store, e: Event)
    requires Fresh(s, e) && OneUser(s)
    ensures OneUser(Next(s, e))
  {
  }

  /** All sessions of a family are one user's. */
  lemma {:induction false} FamilyHasOneUser(log: seq<Event>)
    requires AllFresh(log)
    ensures OneUser(Run(log))
  {
    hide Next, Fresh;
    if log != [] {
      var before := log[..|log| - 1];
      FreshPrefix(log, |before|);
      FamilyHasOneUser(before);
      hide OneUser;
      StepKeepsUsers(Run(before), log[|log| - 1]);
    }
  }

  // ---- One live token in a family, and it is the newest ----

  /** The token most recently issued in a family. */
  function Newest(log: seq<Event>, family: string): Option<string> {
    if log == [] then None else
    var before, e := log[..|log| - 1], log[|log| - 1];
    if e.Login? && e.family == family then Some(e.hash)
    else if Rotates(Run(before), e) && Run(before)[e.hash].family == family then Some(e.newHash)
    else Newest(before, family)
  }

  lemma {:induction false} LiveIsNewest(log: seq<Event>, hash: string)
    requires AllFresh(log) && Live(Run(log), hash)
    ensures Newest(log, Run(log)[hash].family) == Some(hash)
  {
    var before, e := log[..|log| - 1], log[|log| - 1];
    FreshPrefix(log, |before|);
    assert log[..|before|] == before;
    if Live(Run(before), hash) {
      LiveIsNewest(before, hash);
    }
    if Rotates(Run(before), e) {
      LiveIsNewest(before, e.hash);
    }
  }

  /** In every run a family has at most one unrevoked session. */
  lemma AtMostOneLive(log: seq<Event>, g: string, h: string)
    requires AllFresh(log) && Live(Run(log), g) && Live(Run(log), h)
    requires Run(log)[g].family == Run(log)[h].family
    ensures g == h
  {
    LiveIsNewest(log, g);
    LiveIsNewest(log, h);
  }

  // ---- A family that has died stays dead ----

  lemma StepKeepsDead(s: Store, e: Event, family: string)
    requires Fresh(s, e) && Known(s, family) && Dead(s, family)
    ensures Known(Next(s, e), family) && Dead(Next(s, e), family)
  {
    var h :| h in s && s[h].family == family;
    assert h in Next(s, e) && Next(s, e)[h].family == family;
  }

  /** Once all sessions of a family are revoked, no later event gives it a live one. */
  lemma {:induction false} DeadStaysDead(log: seq<Event>, n: nat, family: string)
    requires AllFresh(log) && n <= |log| && Known(Run(log[..n]), family) && Dead(Run(log[..n]), family)
    ensures Known(Run(log), family) && Dead(Run(log), family)
    decreases |log|
  {
    if n == |log| {
      assert log[..n] == log;
    } else {
      var before := log[..|log| - 1];
      FreshPrefix(log, |before|);
      assert before[..n] == log[..n] && log[..|before|] == before;
      DeadStaysDead(before, n, family);
      StepKeepsDead(Run(before), log[|log| - 1], family);
    }
  }

  lemma StepKeepsRevoked(s: Store, e: Event, hash: string)
    requires Fresh(s, e) && hash in s && s[hash].revoked
    ensures hash in Next(s, e) && Next(s, e)[hash].revoked && Next(s, e)[hash].family == s[hash].family
  {
  }

  lemma {:induction false} RevokedStaysRevoked(log: seq<Event>, n: nat, hash: string)
    requires AllFresh(log) && n <= |log| && hash in Run(log[..n]) && Run(log[..n])[hash].revoked
    ensures hash in Run(log) && Run(log)[hash].revoked && Run(log)[hash].family == Run(log[..n])[hash].family
    decreases |log|
  {
    if n == |log| {
      assert log[..n] == log;
    } else {
      var before := log[..|log| - 1];
      FreshPrefix(log, |before|);
      assert before[..n] == log[..n] && log[..|before|] == before;
      hide Next, Fresh;
      RevokedStaysRevoked(before, n, hash);
      StepKeepsRevoked(Run(before), log[|log| - 1], hash);
    }
  }

  /** Presenting a revoked token, at any point of any run, leaves its family without a live session for good. */
  lemma ReplayEndsFamily(log: seq<Event>, i: nat)
    requires AllFresh(log) && i < |log| && log[i].Refresh?
    requires var s := Run(log[..i]); log[i].hash in s && s[log[i].hash].revoked
    ensures Dead(Run(log), Run(log[..i])[log[i].hash].family)
  {
    var s, h := Run(log[..i]), log[i].hash;
    assert log[..i + 1][..i] == log[..i];
    assert h in Next(s, log[i]) && Next(s, log[i])[h].family == s[h].family;
    DeadStaysDead(log, i + 1, s[h].family);
  }

  lemma RotatedIsRevoked(s: Store, e: Event)
    requires Rotates(s, e)
    ensures var h, after := e.hash, Next(s, e); h in after && after[h].revoked && after[h].family == s[h].family
  {
  }

  /**
   A token used twice, by whomever and with anything in between, ends its family: whichever use came first, no
   token of the family works after the second.
   */
  lemma TokenUsedTwice(log: seq<Event>, i: nat, j: nat)
    requires AllFresh(log) && i < j < |log| && log[j].Refresh? && log[j].hash == log[i].hash
    requires Rotates(Run(log[..i]), log[i])
    ensures Dead(Run(log), Run(log[..i])[log[i].hash].family)
  {
    var h := log[i].hash;
    assert log[..i + 1][..i] == log[..i] && log[..j][..i + 1] == log[..i + 1];
    FreshPrefix(log, j);
    RotatedIsRevoked(Run(log[..i]), log[i]);
    hide Next, Fresh, Rotates, Dead;
    RevokedStaysRevoked(log[..j], i + 1, h);
    ReplayEndsFamily(log, j);
  }

  /** Logging out ends a family exactly when it is the live token that is given up; an older one leaves it as it was. */
  lemma LogoutEndsFamilyIff(log: seq<Event>, i: nat)
    requires AllFresh(log) && i < |log| && log[i].Logout? && log[i].hash in Run(log[..i])
    ensures var s, h := Run(log[..i]), log[i].hash;
            Dead(Run(log[..i + 1]), s[h].family) <==> Live(s, h) || Dead(s, s[h].family)
  {
    var s, h := Run(log[..i]), log[i].hash;
    FreshPrefix(log, i);
    assert log[..i + 1][..i] == log[..i];
    forall g | Live(s, g) && Live(s, h) && s[g].family == s[h].family
      ensures g == h
    {
      AtMostOneLive(log[..i], g, h);
    }
    if g :| Live(s, g) && s[g].family == s[h].family && !Live(s, h) {
      assert Live(Next(s, log[i]), g);
    }
  }

  // ---- The store and the service ----

  ghost predicate UniqueIds(s: Store) {
    forall g, h | g in s && h in s && g != h :: s[g].id != s[h].id
  }

  lemma StepKeepsIds(s: Store, e: Event)
    requires Fresh(s, e) && UniqueIds(s)
    ensures UniqueIds(Next(s, e))
  {
  }

  lemma NoIds()
    ensures UniqueIds(map[])
  {
  }

  lemma {:induction false} IdsAreUnique(log: seq<Event>)
    requires AllFresh(log)
    ensures UniqueIds(Run(log))
  {
    hide Next, Fresh, UniqueIds;
    if log != [] {
      var before := log[..|log| - 1];
      FreshPrefix(log, |before|);
      IdsAreUnique(before);
      StepKeepsIds(Run(before), log[|log| - 1]);
    } else {
      NoIds();
    }
  }

  class MemorySessionRepo {
    var sessions: Store

    constructor ()
      ensures sessions == map[]
    {
      sessions := map[];
    }

    method Create(hash: string, session: Session)
      modifies this
      ensures sessions == old(sessions)[hash := session]
    {
      sessions := sessions[hash := session];
    }

    /** Revokes a session with the ID, if there is one. */
    method Revoke(id: string, replacedBy: Option<string>)
      modifies this
      ensures (exists h :: h in old(sessions) && old(sessions)[h].id == id) ==>
                exists h :: h in old(sessions) && old(sessions)[h].id == id
                            && sessions == Revoked(old(sessions), h, replacedBy)
      ensures (forall h | h in old(sessions) :: old(sessions)[h].id != id) ==> sessions == old(sessions)
    {
      var rest := sessions.Keys;
      while rest != {}
        invariant rest <= sessions.Keys && sessions == old(sessions)
        invariant forall h | h in sessions && h !in rest :: sessions[h].id != id
        decreases |rest|
      {
        var h :| h in rest;
        rest := rest - {h};
        if sessions[h].id == id {
          sessions := sessions[h := sessions[h].(revoked := true, replacedBy := replacedBy)];
          return;
        }
      }
    }

    method RevokeFamily(family: string)
      modifies this
      ensures sessions == FamilyRevoked(old(sessions), family)
    {
      var rest := sessions.Keys;
      while rest != {}
        invariant rest <= sessions.Keys == old(sessions).Keys
        invariant forall h | h in rest :: sessions[h] == old(sessions)[h]
        invariant forall h | h in sessions && h !in rest :: sessions[h] == FamilyRevoked(old(sessions), family)[h]
        decreases |rest|
      {
        var h :| h in rest;
        rest := rest - {h};
        if sessions[h].family == family {
          sessions := sessions[h := sessions[h].(revoked := true)];
        }
      }
    }
  }

  datatype Error = RefreshTokenInvalid | RefreshTokenReused | AccountDisabled

  class Service {
    const repo: MemorySessionRepo

    constructor (repo: MemorySessionRepo)
      ensures this.repo == repo
    {
      this.repo := repo;
    }

    /** The session a login or a completed second factor records. */
    method IssueSession(now: int, user: string, id: string, family: string, hash: string)
      modifies repo
      ensures repo.sessions == Next(old(repo.sessions), Login(now, user, id, family, hash))
    {
      repo.Create(hash, Session(id, user, family, now + WEEK, false, None));
    }

    method RefreshSession(now: int, hash: string, active: bool, newId: string, newHash: string)
      returns (r: Result<string, Error>)
      requires UniqueIds(repo.sessions) && Fresh(repo.sessions, Refresh(now, hash, active, newId, newHash))
      modifies repo
      ensures var e := Refresh(now, hash, active, newId, newHash);
              && repo.sessions == Next(old(repo.sessions), e)
              && (r.Success? <==> Rotates(old(repo.sessions), e))
              && (r.Success? ==> r.value == newHash && Live(repo.sessions, newHash))
      ensures r == Failure(RefreshTokenReused) <==> hash in old(repo.sessions) && old(repo.sessions)[hash].revoked
      ensures r == Failure(AccountDisabled) <==>
              && hash in old(repo.sessions) && !old(repo.sessions)[hash].revoked
              && now <= old(repo.sessions)[hash].expiresAt && !active
    {
      if hash !in repo.sessions {
        return Failure(RefreshTokenInvalid);
      }
      var session := repo.sessions[hash];
      if session.revoked {
        repo.RevokeFamily(session.family);
        return Failure(RefreshTokenReused);
      }
      if now > session.expiresAt {
        return Failure(RefreshTokenInvalid);
      }
      if !active {
        return Failure(AccountDisabled);
      }
      repo.Create(newHash, Session(newId, session.user, session.family, now + WEEK, false, None));
      repo.Revoke(session.id, Some(newId));
      r := Success(newHash);
    }

    method LogoutSession(hash: string)
      requires UniqueIds(repo.sessions)
      modifies repo
      ensures repo.sessions == Next(old(repo.sessions), Logout(hash))
    {
      if hash in repo.sessions {
        repo.Revoke(repo.sessions[hash].id, None);
      }
    }
  }
}
