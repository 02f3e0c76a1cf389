/**
 Key versions: rotation puts the previous key into its grace period and issues the next version; keys can be revoked.
 */
module KeyRotation {
  import opened Wrappers

  datatype Status = Active | Grace | Revoked

  datatype Key = Key(kind: string, version: int, status: Status, graceUntil: Option<int>)

  type Keys = map<string, Key>

  const HOUR := 3600 * 1_000_000_000
  const DEFAULT_GRACE := 24 * HOUR

  /** The two keys the store starts with. */
  const SEEDS: Keys := map[
    "key-jwt-active" := Key("jwt_signing", 1, Active, None),
    "key-backup-active" := Key("backup_encryption", 1, Active, None)]

  /** Rotate carries the previous key that GetActive found. */
  datatype Event =
    | Rotate(kind: string, id: string, previous: Option<string>, now: int, grace: int)
    | Revoke(id: string)

  predicate Usable(k: Key, kind: string) {
    k.kind == kind && (k.status.Active? || k.status.Grace?)
  }

  /** A usable key of the kind that no usable one exceeds in version; None if none is usable. */
  ghost predicate IsLatest(keys: Keys, kind: string, found: Option<string>) {
    match found
    case None => forall k | k in keys :: !Usable(keys[k], kind)
    case Some(id) =>
      && id in keys && Usable(keys[id], kind)
      && forall k | k in keys && Usable(keys[k], kind) :: keys[k].version <= keys[id].version
  }

  function NextVersion(keys: Keys, previous: Option<string>): int {
    if previous.Some? && previous.value in keys then keys[previous.value].version + 1 else 1
  }

  function Retired(keys: Keys, previous: Option<string>, until: int): Keys {
    if previous.Some? && previous.value in keys
    then keys[previous.value := keys[previous.value].(status := Grace, graceUntil := Some(until))] else keys
  }

  function Next(keys: Keys, e: Event): Keys {
    match e
    case Rotate(kind, id, previous, now, grace) =>
      var until := now + if grace <= 0 then DEFAULT_GRACE else grace;
      Retired(keys, previous, until)[id := Key(kind, NextVersion(keys, previous), Active, None)]
    case Revoke(id) =>
      if id in keys && !keys[id].status.Revoked? then keys[id := keys[id].(status := Revoked)] else keys
  }

  function Run(log: seq<Event>): Keys {
    if log == [] then SEEDS else Next(Run(log[..|log| - 1]), log[|log| - 1])
  }

  /** New keys have new IDs, and the previous key is one that GetActive may return. */
  ghost predicate Proper(keys: Keys, e: Event) {
    e.Rotate? ==> e.id !in keys && IsLatest(keys, e.kind, e.previous)
  }

  ghost predicate AllProper(log: seq<Event>) {
    forall i | 0 <= i < |log| :: Proper(Run(log[..i]), log[i])
  }

  // ---- What every reachable state keeps ----

  predicate InOrder(a: Key, b: Key) {
    Usable(a, b.kind) && Usable(b, b.kind) ==>
      && a.version != b.version
      && !(a.status.Active? && b.status.Active?)
      && (a.status.Active? ==> a.version > b.version)
  }

  /** One active key of a kind at most; usable versions distinct; the active one above every key in grace. */
  ghost predicate Ordered(keys: Keys) {
    forall j, k | j in keys && k in keys && j != k :: InOrder(keys[j], keys[k])
  }

  predicate Issued(keys: Keys, kind: string, version: int) {
    exists k :: k in keys && keys[k].kind == kind && keys[k].version == version
  }

  /** The versions ever issued of a kind are those from one to some number. */
  ghost predicate Contiguous(keys: Keys) {
    forall k | k in keys ::
      keys[k].version >= 1 && (keys[k].version > 1 ==> Issued(keys, keys[k].kind, keys[k].version - 1))
  }

  lemma StepKeepsOrder(keys: Keys, e: Event)
    requires Ordered(keys) && Proper(keys, e)
    ensures Ordered(Next(keys, e))
  {
    var after := Next(keys, e);
    forall j, k | j in after && k in after && j != k
      ensures InOrder(after[j], after[k])
    {
      if j in keys && k in keys {
        assert InOrder(keys[j], keys[k]) && InOrder(keys[k], keys[j]);
      }
    }
  }

  lemma StepKeepsIssued(keys: Keys, e: Event, kind: string, version: int)
    requires Proper(keys, e) && Issued(keys, kind, version)
    ensures Issued(Next(keys, e), kind, version)
  {
    var k :| k in keys && keys[k].kind == kind && keys[k].version == version;
    assert k in Next(keys, e) && Next(keys, e)[k].kind == kind;
  }

  lemma StepKeepsContiguity(keys: Keys, e: Event)
    requires Contiguous(keys) && Proper(keys, e)
    ensures Contiguous(Next(keys, e))
  {
    var after := Next(keys, e);
    forall k | k in after
      ensures after[k].version >= 1 && (after[k].version > 1 ==> Issued(after, after[k].kind, after[k].version - 1))
    {
      if k in keys {
        if after[k].version > 1 {
          StepKeepsIssued(keys, e, after[k].kind, after[k].version - 1);
        }
      } else if after[k].version > 1 {
        assert Issued(keys, e.kind, after[k].version - 1) by {
          assert keys[e.previous.value].version == after[k].version - 1;
        }
        StepKeepsIssued(keys, e, e.kind, after[k].version - 1);
      }
    }
  }

  /** In every reachable state each kind has at most one active key, and its usable versions are in order. */
  lemma {:induction false} KeysAreOrdered(log: seq<Event>)
    requires AllProper(log)
    ensures Ordered(Run(log)) && Contiguous(Run(log))
  {
    hide Next;
    if log != [] {
      var before := log[..|log| - 1];
      assert forall i | 0 <= i < |before| :: before[..i] == log[..i];
      KeysAreOrdered(before);
      StepKeepsOrder(Run(before), log[|log| - 1]);
      StepKeepsContiguity(Run(before), log[|log| - 1]);
    }
  }

  /** GetActive therefore has one answer only. */
  lemma LatestIsUnique(log: seq<Event>, kind: string, a: Option<string>, b: Option<string>)
    requires AllProper(log) && IsLatest(Run(log), kind, a) && IsLatest(Run(log), kind, b)
    ensures a == b
  {
    KeysAreOrdered(log);
  }

  /** After a rotation the new key is what GetActive finds, and the key found before has become a key in grace. */
  lemma RotationTakesOver(log: seq<Event>, e: Event)
    requires AllProper(log) && e.Rotate? && Proper(Run(log), e)
    ensures IsLatest(Next(Run(log), e), e.kind, Some(e.id)) && Next(Run(log), e)[e.id].status.Active?
    ensures e.previous.Some? ==> Next(Run(log), e)[e.previous.value].status.Grace?
  {
    KeysAreOrdered(log);
  }

  /**
   What a rotation writes: the next version as the active key, and the key it found, if any, in grace for the time asked
   for, or for a day. A revocation marks one key. Neither touches any other key.
   */
  lemma RotationWrites(log: seq<Event>, e: Event)
    requires Proper(Run(log), e)
    ensures var keys, after := Run(log), Run(log + [e]);
            if e.Revoke? then
              after == if e.id in keys then keys[e.id := keys[e.id].(status := Revoked)] else keys
            else if e.previous.None? then after == keys[e.id := Key(e.kind, 1, Active, None)]
            else
              var found, until := keys[e.previous.value], e.now + if e.grace > 0 then e.grace else 86_400_000_000_000;
              after == keys[e.previous.value := found.(status := Grace, graceUntil := Some(until))]
                           [e.id := Key(e.kind, found.version + 1, Active, None)]
  {
    assert (log + [e])[..|log|] == log;
    if e.Revoke? && e.id in Run(log) && Run(log)[e.id].status.Revoked? {
      assert Run(log)[e.id := Run(log)[e.id].(status := Revoked)] == Run(log);
    }
  }

  lemma StepKeepsRevoked(keys: Keys, e: Event, id: string)
    requires Proper(keys, e) && id in keys && keys[id].status.Revoked?
    ensures id in Next(keys, e) && Next(keys, e)[id].status.Revoked?
  {
  }

  /** A revoked key stays revoked, and is never again what GetActive finds. */
  lemma {:induction false} RevokedIsNotFound(log: seq<Event>, n: nat, id: string)
    requires AllProper(log) && n <= |log| && id in Run(log[..n]) && Run(log[..n])[id].status.Revoked?
    ensures id in Run(log) && Run(log)[id].status.Revoked?
    ensures forall kind :: !IsLatest(Run(log), kind, Some(id))
    decreases |log|
  {
    hide Next, Proper;
    if n == |log| {
      assert log[..n] == log;
    } else {
      var before := log[..|log| - 1];
      assert forall i | 0 <= i <= |before| :: before[..i] == log[..i];
      RevokedIsNotFound(before, n, id);
      assert Proper(Run(log[..|before|]), log[|before|]);
      StepKeepsRevoked(Run(before), log[|before|], id);
    }
  }

  // ---- Version numbers that come back ----

  lemma {:induction false} VersionsBelow(keys: Keys, kind: string, high: int, low: int)
    requires Contiguous(keys) && Issued(keys, kind, high) && 1 <= low <= high
    ensures Issued(keys, kind, low)
    decreases high - low
  {
    if low < high {
      var k :| k in keys && keys[k].kind == kind && keys[k].version == high;
      assert Issued(keys, keys[k].kind, keys[k].version - 1);
      VersionsBelow(keys, kind, high - 1, low);
    }
  }

  /** A revoked key of a kind with a higher version than every usable one. */
  ghost predicate Outranks(keys: Keys, kind: string, k: string) {
    && k in keys && keys[k].kind == kind && keys[k].status.Revoked?
    && forall j | j in keys && Usable(keys[j], kind) :: keys[j].version < keys[k].version
  }

  lemma ReusedOutranks(keys: Keys, kind: string, previous: Option<string>, k: string)
    requires IsLatest(keys, kind, previous)
    requires k in keys && keys[k].kind == kind && keys[k].version == NextVersion(keys, previous)
    ensures Outranks(keys, kind, k)
  {
  }

  lemma OutrankingReuses(keys: Keys, kind: string, previous: Option<string>, k: string)
    requires Contiguous(keys) && IsLatest(keys, kind, previous) && Outranks(keys, kind, k)
    ensures Issued(keys, kind, NextVersion(keys, previous))
  {
    VersionsBelow(keys, kind, keys[k].version, NextVersion(keys, previous));
  }

  /**
   A rotation issues a version number that was issued before exactly when some revoked key of the kind has a
   higher version than every usable one.
   */
  lemma VersionIsReusedIff(log: seq<Event>, e: Event)
    requires AllProper(log) && e.Rotate? && Proper(Run(log), e)
    ensures var keys := Run(log);
            Issued(keys, e.kind, NextVersion(keys, e.previous)) <==> exists k :: Outranks(keys, e.kind, k)
  {
    hide IsLatest, Outranks, Contiguous, Ordered;
    var keys := Run(log);
    KeysAreOrdered(log);
    if k :| k in keys && keys[k].kind == e.kind && keys[k].version == NextVersion(keys, e.previous) {
      ReusedOutranks(keys, e.kind, e.previous, k);
    }
    if k :| Outranks(keys, e.kind, k) {
      OutrankingReuses(keys, e.kind, e.previous, k);
    }
  }

  lemma AfterThree(a: Event, b: Event, c: Event)
    requires Proper(SEEDS, a) && Proper(Next(SEEDS, a), b) && Proper(Next(Next(SEEDS, a), b), c)
    ensures AllProper([a, b, c]) && Run([a, b, c]) == Next(Next(Next(SEEDS, a), b), c)
  {
    hide Next, Proper;
    var log := [a, b, c];
    assert log[..0] == [] && log[..1] == [a] && log[..2] == [a, b] && [a, b][..1] == [a] && [a][..0] == [];
    assert Run([a]) == Next(SEEDS, a) && Run([a, b]) == Next(Run([a]), b);
  }

  /** It does happen: rotate, revoke the new key, rotate again. */
  lemma VersionTwoTwice(now: int)
    ensures exists log :: AllProper(log) && "a" in Run(log) && "b" in Run(log)
                          && Run(log)["a"].kind == Run(log)["b"].kind == "jwt_signing"
                          && Run(log)["a"].version == Run(log)["b"].version == 2
  {
    var seed := "key-jwt-active";
    var first, revoke, second :=
      Rotate("jwt_signing", "a", Some(seed), now, 0), Revoke("a"), Rotate("jwt_signing", "b", Some(seed), now, 0);
    assert |"a"| == 1 && |"b"| == 1 && |seed| == 14 && |"key-backup-active"| == 17 && "a"[0] != "b"[0];
    KindsDiffer();
    AfterThree(first, revoke, second);
    hide AllProper, Run;
  }

  lemma KindsDiffer()
    ensures "jwt_signing" != "backup_encryption"
  {
    assert "jwt_signing"[0] != "backup_encryption"[0];
  }

  // ---- The store and the service ----

  class MemoryKeyRotationRepo {
    var records: Keys

    constructor ()
      ensures records == SEEDS
    {
      records := SEEDS;
    }

    /** The maximum of a scan over the map. */
    method GetActive(kind: string) returns (latest: Option<string>)
      ensures IsLatest(records, kind, latest)
    {
      latest := None;
      var rest := records.Keys;
      while rest != {}
        invariant rest <= records.Keys
        invariant latest.None? ==> forall k | k in records && k !in rest :: !Usable(records[k], kind)
        invariant latest.Some? ==>
            && latest.value in records && Usable(records[latest.value], kind)
            && forall k | k in records && k !in rest && Usable(records[k], kind) ::
                 records[k].version <= records[latest.value].version
        decreases |rest|
      {
        var k :| k in rest;
        rest := rest - {k};
        var rec := records[k];
        if rec.kind == kind && (rec.status == Active || rec.status == Grace) {
          if latest.None? || rec.version > records[latest.value].version {
            latest := Some(k);
          }
        }
      }
    }

    method Save(id: string, rec: Key)
      modifies this
      ensures records == old(records)[id := rec]
    {
      records := records[id := rec];
    }
  }

  datatype Error = KeyNotFound | KeyAlreadyRevoked

  class Service {
    const repo: MemoryKeyRotationRepo

    constructor (repo: MemoryKeyRotationRepo)
      ensures this.repo == repo
    {
      this.repo := repo;
    }

    method RotateKey(kind: string, id: string, now: int, gracePeriod: int)
      returns (version: int, ghost previous: Option<string>)
      requires id !in repo.records
      modifies repo
      ensures Proper(old(repo.records), Rotate(kind, id, previous, now, gracePeriod))
      ensures repo.records == Next(old(repo.records), Rotate(kind, id, previous, now, gracePeriod))
      ensures version == NextVersion(old(repo.records), previous)
    {
      var grace := gracePeriod;
      if grace <= 0 {
        grace := DEFAULT_GRACE;
      }
      var prevActive := repo.GetActive(kind);
      previous := prevActive;
      version := 1;
      if prevActive.Some? {
        var rec := repo.records[prevActive.value];
        version := rec.version + 1;
        repo.Save(prevActive.value, rec.(status := Grace, graceUntil := Some(now + grace)));
      }
      repo.Save(id, Key(kind, version, Active, None));
    }

    method RevokeKey(id: string) returns (r: Result<Key, Error>)
      modifies repo
      ensures repo.records == Next(old(repo.records), Revoke(id))
      ensures r.Success? <==> id in old(repo.records) && !old(repo.records)[id].status.Revoked?
      ensures r.Success? ==> r.value == repo.records[id]
      ensures r == Failure(KeyNotFound) <==> id !in old(repo.records)
    {
      if id !in repo.records {
        return Failure(KeyNotFound);
      }
      var rec := repo.records[id];
      if rec.status == Revoked {
        return Failure(KeyAlreadyRevoked);
      }
      repo.Save(id, rec.(status := Revoked));
      r := Success(rec.(status := Revoked));
    }
  }
}
