/** Backup records: deletion that guards the last verified one, and retention pruning built on it. */
module Backups {
  import opened Wrappers
  import Sums

  datatype Status = Pending | Running | Verified | Failed | Expired | Deleted

  datatype Record = Record(createdAt: int, status: Status, isProtected: bool)

  type Store = map<string, Record>

  const DAY := 24 * 3600 * 1_000_000_000
  const PAGE := 1000

  function VerifiedIds(s: Store): set<string> {
    set id | id in s && s[id].status.Verified?
  }

  /** Deletion refuses protected records and the only verified one. */
  predicate Deletable(s: Store, id: string) {
    id in s && !s[id].isProtected && (s[id].status.Verified? ==> VerifiedIds(s) - {id} != {})
  }

  function Without(s: Store, id: string): Store {
    if Deletable(s, id) then s - {id} else s
  }

  /** The instant some days before another. */
  function Cutoff(now: int, days: int): int {
    now - days * DAY
  }

  predicate Due(r: Record, cutoff: int) {
    !r.isProtected && r.createdAt < cutoff
  }

  /** The store after pruning has gone through a listing, whose entries are as they were when listed. */
  function Pruned(s: Store, page: seq<string>, cutoff: int): Store
    requires forall id | id in page :: id in s
  {
    if page == [] then s else
    var rest, last := page[..|page| - 1], page[|page| - 1];
    var earlier := Pruned(s, rest, cutoff);
    if Due(s[last], cutoff) then Without(earlier, last) else earlier
  }

  /** A page of the listing, newest first: nothing left out is newer than anything on it. */
  ghost predicate IsListing(s: Store, page: seq<string>, limit: nat) {
    && (forall id | id in page :: id in s)
    && (forall i, j | 0 <= i < j < |page| :: page[i] != page[j] && s[page[i]].createdAt >= s[page[j]].createdAt)
    && |page| == (if |s| < limit then |s| else limit)
    && (forall id, i | id in s && id !in page && 0 <= i < |page| :: s[page[i]].createdAt >= s[id].createdAt)
  }

  // ---- What pruning removes ----

  function DueIds(s: Store, page: seq<string>, cutoff: int): set<string> {
    set id | id in page && id in s && Due(s[id], cutoff)
  }

  function LastVerified(s: Store, page: seq<string>): Option<string> {
    if page == [] then None
    else if page[|page| - 1] in VerifiedIds(s) then Some(page[|page| - 1])
    else LastVerified(s, page[..|page| - 1])
  }

  /** The one due record that survives: the last verified one listed, when all verified records are due. */
  function Spared(s: Store, page: seq<string>, cutoff: int): set<string> {
    if VerifiedIds(s) <= DueIds(s, page, cutoff) && LastVerified(s, page).Some?
    then {LastVerified(s, page).value} else {}
  }

  predicate Distinct(page: seq<string>) {
    forall i, j | 0 <= i < j < |page| :: page[i] != page[j]
  }

  lemma {:induction false} LastVerifiedIs(s: Store, page: seq<string>)
    ensures var last := LastVerified(s, page);
            && (last.Some? <==> exists id :: id in page && id in VerifiedIds(s))
            && (last.Some? ==> exists i :: 0 <= i < |page| && page[i] == last.value && last.value in VerifiedIds(s)
                                        && forall j | i < j < |page| :: page[j] !in VerifiedIds(s))
  {
    hide VerifiedIds;
    if page != [] {
      var rest := page[..|page| - 1];
      LastVerifiedIs(s, rest);
      assert page == rest + [page[|page| - 1]];
      if page[|page| - 1] in VerifiedIds(s) {
        assert page[|page| - 1] in page;
      } else if LastVerified(s, rest).Some? {
        var i :| && 0 <= i < |rest| && rest[i] == LastVerified(s, rest).value
                 && forall j | i < j < |rest| :: rest[j] !in VerifiedIds(s);
        assert page[i] == LastVerified(s, page).value;
      }
    }
  }

  /** Part-way through a listing, with the spared record of the whole. */
  ghost predicate GoneSoFar(s: Store, current: Store, page: seq<string>, n: nat, cutoff: int)
    requires n <= |page|
  {
    && current.Keys == s.Keys - (DueIds(s, page[..n], cutoff) - Spared(s, page, cutoff))
    && forall id | id in current :: id in s && current[id] == s[id]
  }

  lemma PruneStep(s: Store, current: Store, page: seq<string>, n: nat, cutoff: int)
    requires n < |page| && Distinct(page) && (forall id | id in page :: id in s)
    requires GoneSoFar(s, current, page, n, cutoff)
    ensures GoneSoFar(s, if Due(s[page[n]], cutoff) then Without(current, page[n]) else current, page, n + 1, cutoff)
  {
    var id := page[n];
    assert page[..n + 1] == page[..n] + [id];
    assert DueIds(s, page[..n + 1], cutoff) == DueIds(s, page[..n], cutoff) + if Due(s[id], cutoff) then {id} else {};
    assert id !in page[..n];
    assert id in current;
    if Due(s[id], cutoff) {
      DeletableIff(s, current, page, n, cutoff);
    }
  }

  /** A due record met in the listing is refused deletion exactly when it is the spared one. */
  lemma DeletableIff(s: Store, current: Store, page: seq<string>, n: nat, cutoff: int)
    requires n < |page| && Distinct(page) && (forall id | id in page :: id in s)
    requires GoneSoFar(s, current, page, n, cutoff) && Due(s[page[n]], cutoff) && page[n] in current
    ensures Deletable(current, page[n]) <==> page[n] !in Spared(s, page, cutoff)
  {
    var id := page[n];
    LastVerifiedIs(s, page);
    if s[id].status.Verified? {
      assert id in VerifiedIds(s);
      if !(VerifiedIds(s) <= DueIds(s, page, cutoff)) {
        var v :| v in VerifiedIds(s) && v !in DueIds(s, page, cutoff);
        assert v !in DueIds(s, page[..n], cutoff);
        assert v in VerifiedIds(current) - {id};
      } else if id != LastVerified(s, page).value {
        assert LastVerified(s, page).value in VerifiedIds(current) - {id};
      } else {
        forall v | v in VerifiedIds(s) && v != id
          ensures v !in current
        {
          var k :| 0 <= k < |page| && page[k] == v;
          assert k < n;
          assert page[..n][k] == v;
        }
      }
    }
  }

  lemma {:induction false} PruneGoesTo(s: Store, page: seq<string>, n: nat, cutoff: int)
    requires n <= |page| && Distinct(page) && forall id | id in page :: id in s
    ensures GoneSoFar(s, Pruned(s, page[..n], cutoff), page, n, cutoff)
  {
    if n > 0 {
      PruneGoesTo(s, page, n - 1, cutoff);
      assert page[..n][..n - 1] == page[..n - 1];
      PruneStep(s, Pruned(s, page[..n - 1], cutoff), page, n - 1, cutoff);
    }
  }

  /**
   Pruning any listing removes exactly the due records on it, except one if that would leave no verified record:
   then the last verified one listed stays. What stays is unchanged.
   */
  lemma PruningRemoves(s: Store, page: seq<string>, cutoff: int)
    requires Distinct(page) && forall id | id in page :: id in s
    ensures var after := Pruned(s, page, cutoff);
            && after.Keys == s.Keys - (DueIds(s, page, cutoff) - Spared(s, page, cutoff))
            && forall id | id in after :: after[id] == s[id]
  {
    PruneGoesTo(s, page, |page|, cutoff);
    assert page[..|page|] == page;
  }

  /** The number of verified records never falls to zero. */
  lemma PruningKeepsAVerified(s: Store, page: seq<string>, cutoff: int)
    requires Distinct(page) && (forall id | id in page :: id in s) && VerifiedIds(s) != {}
    ensures VerifiedIds(Pruned(s, page, cutoff)) != {}
  {
    PruningRemoves(s, page, cutoff);
    LastVerifiedIs(s, page);
    if VerifiedIds(s) <= DueIds(s, page, cutoff) {
      var v :| v in VerifiedIds(s);
      assert v in page;
      assert LastVerified(s, page).value in VerifiedIds(Pruned(s, page, cutoff));
    } else {
      var v :| v in VerifiedIds(s) && v !in DueIds(s, page, cutoff);
      assert v in VerifiedIds(Pruned(s, page, cutoff));
    }
  }

  lemma ListsAll(s: Store, page: seq<string>)
    requires IsListing(s, page, PAGE) && |s| <= PAGE
    ensures forall id :: id in page <==> id in s
  {
    var listed := set id | id in page;
    SeqSize(page);
    assert listed <= s.Keys && |s.Keys| == |s|;
    Sums.SubsetBySize(listed, s.Keys);
  }

  lemma {:induction false} SeqSize(page: seq<string>)
    requires Distinct(page)
    ensures |set id | id in page| == |page|
  {
    if page != [] {
      var rest, last := page[..|page| - 1], page[|page| - 1];
      SeqSize(rest);
      assert (set id | id in page) == (set id | id in rest) + {last};
    }
  }

  /**
   With at most a page of records, an unprotected expired record that survives is the only one, it is now the
   only verified record, and no verified record was older.
   */
  lemma OneSurvivor(s: Store, page: seq<string>, cutoff: int, id: string)
    requires IsListing(s, page, PAGE) && |s| <= PAGE
    requires id in Pruned(s, page, cutoff) && id in s && Due(s[id], cutoff)
    ensures VerifiedIds(Pruned(s, page, cutoff)) == {id}
    ensures forall v | v in VerifiedIds(s) :: s[id].createdAt <= s[v].createdAt && Due(s[v], cutoff)
    ensures forall r | r in Pruned(s, page, cutoff) && r in s && Due(s[r], cutoff) :: r == id
  {
    var after := Pruned(s, page, cutoff);
    ListsAll(s, page);
    PruningRemoves(s, page, cutoff);
    LastVerifiedIs(s, page);
    assert id in DueIds(s, page, cutoff) && id in Spared(s, page, cutoff);
    hide Pruned, LastVerified, Due;
    forall v | v in VerifiedIds(s)
      ensures s[id].createdAt <= s[v].createdAt && Due(s[v], cutoff) && (v in after ==> v == id)
    {
      assert v in DueIds(s, page, cutoff);
      var k :| 0 <= k < |page| && page[k] == v;
    }
    assert id in VerifiedIds(after);
  }

  // ---- Runs ----

  datatype Event =
    | Create(id: string, now: int, stored: bool, verifies: bool)
    | Verify(id: string, intact: bool)
    | Delete(id: string)
    | Retain(page: seq<string>, cutoff: int)

  /** A new backup that stores and verifies is marked protected if it is then the only verified one. */
  function Created(s: Store, id: string, now: int, ok: bool): Store {
    var status := if ok then Verified else Failed;
    var first := s[id := Record(now, status, false)];
    first[id := first[id].(isProtected := ok && |VerifiedIds(first)| <= 1)]
  }

  function Next(s: Store, e: Event): Store {
    match e
    case Create(id, now, stored, verifies) => Created(s, id, now, stored && verifies)
    case Verify(id, intact) =>
      if id in s then s[id := s[id].(status := if intact then Verified else Failed)] else s
    case Delete(id) => Without(s, id)
    case Retain(page, cutoff) => if forall id | id in page :: id in s then Pruned(s, page, cutoff) else s
  }

  function Run(log: seq<Event>): Store {
    if log == [] then map[] else Next(Run(log[..|log| - 1]), log[|log| - 1])
  }

  /** New backups have new IDs, and retention works on a listing. */
  ghost predicate Proper(log: seq<Event>) {
    forall i | 0 <= i < |log| ::
      && (log[i].Create? ==> log[i].id !in Run(log[..i]))
      && (log[i].Retain? ==> IsListing(Run(log[..i]), log[i].page, PAGE))
  }

  lemma {:induction false} PrunedKeeps(s: Store, page: seq<string>, cutoff: int, id: string)
    requires (forall x | x in page :: x in s) && id in s && s[id].isProtected
    ensures id in Pruned(s, page, cutoff) && Pruned(s, page, cutoff)[id] == s[id]
  {
    if page != [] {
      PrunedKeeps(s, page[..|page| - 1], cutoff, id);
    }
  }

  /** A protected record stays, and stays protected, whatever follows. */
  lemma {:induction false} ProtectedIsKept(log: seq<Event>, n: nat, id: string)
    requires Proper(log) && n <= |log| && id in Run(log[..n]) && Run(log[..n])[id].isProtected
    ensures id in Run(log) && Run(log)[id].isProtected
    decreases |log|
  {
    if n == |log| {
      assert log[..n] == log;
    } else {
      var before, e := log[..|log| - 1], log[|log| - 1];
      assert forall i | 0 <= i <= |before| :: before[..i] == log[..i];
      ProtectedIsKept(before, n, id);
      if e.Retain? {
        PrunedKeeps(Run(before), e.page, e.cutoff, id);
      }
    }
  }

  lemma VerifyingLosesIff(s: Store, id: string, intact: bool)
    requires VerifiedIds(s) != {}
    ensures VerifiedIds(Next(s, Verify(id, intact))) == {} <==> !intact && VerifiedIds(s) == {id}
  {
    var after := VerifiedIds(Next(s, Verify(id, intact)));
    var v :| v in VerifiedIds(s);
    if intact {
      assert v in after;
    } else {
      assert after == VerifiedIds(s) - {id};
      assert v != id ==> v in VerifiedIds(s) - {id};
    }
  }

  /** Only finding an artifact damaged can take the last verified backup away; deleting and pruning cannot. */
  lemma LastVerifiedIsLostIff(log: seq<Event>, e: Event)
    requires Proper(log + [e]) && VerifiedIds(Run(log)) != {}
    ensures VerifiedIds(Run(log + [e])) == {} <==> e.Verify? && !e.intact && VerifiedIds(Run(log)) == {e.id}
  {
    var s := Run(log);
    assert (log + [e])[..|log|] == log;
    assert (log + [e])[|log|] == e;
    var v :| v in VerifiedIds(s);
    match e
    case Create(id, _, _, _) =>
      assert v in VerifiedIds(Next(s, e));
    case Verify(id, intact) =>
      VerifyingLosesIff(s, id, intact);
    case Delete(id) =>
      if Deletable(s, id) && v == id {
        var w :| w in VerifiedIds(s) - {id};
        assert w in VerifiedIds(Next(s, e));
      } else {
        assert v in VerifiedIds(Next(s, e));
      }
    case Retain(page, cutoff) =>
      PruningKeepsAVerified(s, page, cutoff);
  }

  /** A backup is verified when it was stored and verifies, and protected when it is then the only verified one. */
  lemma FirstBackupIsProtected(log: seq<Event>, id: string, now: int, stored: bool, verifies: bool)
    requires id !in Run(log)
    ensures var s, after := Run(log), Run(log + [Create(id, now, stored, verifies)]);
            && after.Keys == s.Keys + {id} && (forall x | x in s :: after[x] == s[x])
            && after[id].createdAt == now
            && after[id].status == (if stored && verifies then Verified else Failed)
            && (after[id].isProtected <==>
                stored && verifies && forall x | x in s :: !s[x].status.Verified?)
  {
    var s, e := Run(log), Create(id, now, stored, verifies);
    assert (log + [e])[..|log|] == log && (log + [e])[|log|] == e;
    var first := s[id := Record(now, if stored && verifies then Verified else Failed, false)];
    if stored && verifies {
      assert VerifiedIds(first) == VerifiedIds(s) + {id} && id !in VerifiedIds(s);
      if x :| x in s && s[x].status.Verified? {
        assert x in VerifiedIds(s);
        Sums.SubsetBySize({}, VerifiedIds(s));
      } else {
        assert VerifiedIds(s) == {};
      }
    }
  }

  /** What a deletion takes: an unprotected record, if it is not verified or another one is. */
  lemma DeletableIffSpared(s: Store, id: string)
    ensures Deletable(s, id) <==>
            && id in s && !s[id].isProtected
            && (s[id].status.Verified? ==> exists x :: x in s && x != id && s[x].status.Verified?)
  {
    if x :| x in s && x != id && s[x].status.Verified? {
      assert x in VerifiedIds(s) - {id};
    }
  }

  /**
   What a policy of some days removes: only unprotected records created more than so many days ago. One of those that
   stays, with at most a page of records, stays as the only verified record.
   */
  lemma PolicyRemovesOnlyOld(s: Store, page: seq<string>, now: int, days: int, id: string)
    requires IsListing(s, page, PAGE) && id in s
    ensures var after := Pruned(s, page, Cutoff(now, days));
            && after.Keys <= s.Keys
            && (id in after ==> after[id] == s[id])
            && (id !in after ==> !s[id].isProtected && s[id].createdAt + days * 86_400_000_000_000 < now)
            && (|s| <= 1000 && id in after && !s[id].isProtected
                && s[id].createdAt + days * 86_400_000_000_000 < now ==>
                  forall x | x in after :: after[x].status.Verified? <==> x == id)
  {
    var cutoff := Cutoff(now, days);
    PruningRemoves(s, page, cutoff);
    if |s| <= 1000 && Due(s[id], cutoff) && id in Pruned(s, page, cutoff) {
      OneSurvivor(s, page, cutoff, id);
      var after := Pruned(s, page, cutoff);
      assert forall x | x in after :: after[x].status.Verified? <==> x in VerifiedIds(after);
    }
    hide Pruned, Spared;
  }

  lemma PageIsStored(s: Store, page: seq<string>)
    requires IsListing(s, page, PAGE)
    ensures forall id | id in page :: id in s
  {
  }

  lemma NothingPruned(s: Store, cutoff: int)
    ensures Pruned(s, [], cutoff) == s
  {
  }

  lemma PruneNext(s: Store, page: seq<string>, i: nat, cutoff: int)
    requires i < |page| && forall id | id in page :: id in s
    ensures Pruned(s, page[..i + 1], cutoff) ==
            if !s[page[i]].isProtected && s[page[i]].createdAt < cutoff
            then Without(Pruned(s, page[..i], cutoff), page[i]) else Pruned(s, page[..i], cutoff)
  {
    assert page[..i + 1][..i] == page[..i];
  }

  /** Every record is still as it was, or was unprotected and created more than so many days ago. */
  ghost predicate OnlyOldGone(before: Store, after: Store, now: int, days: int) {
    forall id | id in before ::
      if id in after then after[id] == before[id]
      else !before[id].isProtected && before[id].createdAt + days * 86_400_000_000_000 < now
  }

  lemma PolicyKeepsTheRest(s: Store, page: seq<string>, now: int, days: int)
    requires IsListing(s, page, PAGE)
    ensures OnlyOldGone(s, Pruned(s, page, Cutoff(now, days)), now, days)
  {
    hide Pruned, IsListing;
    forall id | id in s {
      PolicyRemovesOnlyOld(s, page, now, days, id);
    }
  }

  // ---- The store and the service ----

  class MemoryBackupRepo {
    var backups: Store

    constructor ()
      ensures backups == map[]
    {
      backups := map[];
    }

    method CountVerified() returns (count: nat)
      ensures count == |VerifiedIds(backups)|
    {
      count := 0;
      var rest := backups.Keys;
      ghost var seen: set<string> := {};
      while rest != {}
        invariant rest <= backups.Keys
        invariant seen == set id | id in backups && id !in rest && backups[id].status.Verified?
        invariant count == |seen|
        decreases |rest|
      {
        var id :| id in rest;
        rest := rest - {id};
        if backups[id].status == Verified {
          count := count + 1;
          seen := seen + {id};
        }
      }
      assert seen == VerifiedIds(backups);
    }

    method Delete(id: string) returns (ok: bool)
      modifies this
      ensures ok == Deletable(old(backups), id) && backups == Without(old(backups), id)
      ensures backups == if ok then old(backups) - {id} else old(backups)
    {
      if id !in backups || backups[id].isProtected {
        return false;
      }
      var verifiedCount := 0;
      var rest := backups.Keys;
      while rest != {}
        invariant rest <= backups.Keys && backups == old(backups) && 0 <= verifiedCount
        invariant verifiedCount == 0 <==> forall x | x in VerifiedIds(backups) - {id} :: x in rest
        decreases |rest|
      {
        var x :| x in rest;
        rest := rest - {x};
        if backups[x].status == Verified && x != id {
          verifiedCount := verifiedCount + 1;
          assert x in VerifiedIds(backups) - {id};
        }
      }
      assert verifiedCount == 0 <==> VerifiedIds(backups) - {id} == {};
      if backups[id].status == Verified && verifiedCount == 0 {
        return false;
      }
      backups := backups - {id};
      ok := true;
    }

    /** The newest of some records; the library's sort is replaced by taking the newest again and again. */
    method Newest(ids: set<string>) returns (newest: string)
      requires ids != {} && ids <= backups.Keys
      ensures newest in ids && forall id | id in ids :: backups[id].createdAt <= backups[newest].createdAt
    {
      newest :| newest in ids;
      var rest := ids - {newest};
      while rest != {}
        invariant rest <= ids && newest in ids && newest !in rest
        invariant forall id | id in ids && id !in rest :: backups[id].createdAt <= backups[newest].createdAt
        decreases |rest|
      {
        var id :| id in rest;
        rest := rest - {id};
        if backups[id].createdAt > backups[newest].createdAt {
          newest := id;
        }
      }
    }

    method List(limit: nat) returns (page: seq<string>)
      ensures IsListing(backups, page, limit)
    {
      page := [];
      var rest := backups.Keys;
      while |page| < limit && rest != {}
        invariant rest <= backups.Keys && forall id :: id in backups <==> id in rest || id in page
        invariant forall id | id in page :: id !in rest
        invariant |page| <= limit && |page| + |rest| == |backups|
        invariant forall i, j | 0 <= i < j < |page| ::
            page[i] != page[j] && backups[page[i]].createdAt >= backups[page[j]].createdAt
        invariant forall id, i | id in rest && 0 <= i < |page| :: backups[page[i]].createdAt >= backups[id].createdAt
        decreases |rest|
      {
        var id := Newest(rest);
        rest := rest - {id};
        page := page + [id];
      }
    }
  }

  class Service {
    const repo: MemoryBackupRepo

    constructor (repo: MemoryBackupRepo)
      ensures this.repo == repo
    {
      this.repo := repo;
    }

    /** Prunes by a policy that keeps records for some days; None stands for an unknown policy. */
    method ApplyRetentionPolicy(now: int, retentionDays: Option<int>)
      returns (deleted: Option<nat>, ghost page: seq<string>)
      modifies repo
      ensures retentionDays.None? ==> deleted.None? && repo.backups == old(repo.backups)
      ensures retentionDays.Some? ==>
                && IsListing(old(repo.backups), page, PAGE)
                && repo.backups == Pruned(old(repo.backups), page, Cutoff(now, retentionDays.value))
                && deleted == Some(|old(repo.backups)| - |repo.backups|)
      ensures retentionDays.Some? ==> OnlyOldGone(old(repo.backups), repo.backups, now, retentionDays.value)
    {
      if retentionDays.None? {
        return None, [];
      }
      var listing := repo.List(PAGE);
      PageIsStored(repo.backups, listing);
      hide IsListing, OnlyOldGone, Pruned, Without, Deletable, Cutoff;
      NothingPruned(repo.backups, Cutoff(now, retentionDays.value));
      page := listing;
      var listed := repo.backups;
      var cutoff := Cutoff(now, retentionDays.value);
      var count := 0;
      var i := 0;
      while i < |listing|
        invariant 0 <= i <= |listing| && forall id | id in listing :: id in listed
        invariant repo.backups == Pruned(listed, listing[..i], cutoff)
        invariant 0 <= count == |listed| - |repo.backups|
      {
        PruneNext(listed, listing, i, cutoff);
        var b := listed[listing[i]];
        if !b.isProtected && b.createdAt < cutoff {
          var ok := repo.Delete(listing[i]);
          if ok {
            count := count + 1;
          }
        }
        i := i + 1;
      }
      assert listing[..i] == listing;
      deleted := Some(count);
      PolicyKeepsTheRest(listed, listing, now, retentionDays.value);
    }
  }
}
