/**
 The hash-chained audit ledger. The digest is a parameter: any function from text to text, which theorems
 about tampering take to be injective and to produce digests without the separator, as hexadecimal is.
 */
module Audit {
  import opened Wrappers
  import opened Text

  /** details is the JSON text of the details; an absent severity is "". createdAt 0 stands for the zero time. */
  datatype AuditLog = AuditLog(
    id: int,
    actor: Option<string>,
    actorIP: string,
    userAgent: string,
    action: string,
    resourceType: string,
    resource: Option<string>,
    requestID: string,
    statusCode: int,
    details: string,
    severity: string,
    prevHash: string,
    hash: string,
    createdAt: int)

  function OrEmpty(o: Option<string>): string {
    match o
    case None => ""
    case Some(s) => s
  }

  /** The fields joined by a separator, the first of them before it. */
  function Joined(fields: seq<string>): string
    requires fields != []
  {
    if |fields| == 1 then fields[0] else fields[0] + "|" + Joined(fields[1..])
  }

  /** The fields that are hashed after the previous hash, in order, up to the details. */
  function Described(l: AuditLog): seq<string> {
    [OrEmpty(l.actor), l.actorIP, l.action, l.resourceType, OrEmpty(l.resource), l.requestID,
     Decimal(l.statusCode), l.severity]
  }

  function Payload(l: AuditLog): string {
    l.prevHash + "|" + (Joined(Described(l)) + "|" + (l.details + "|" + Decimal(l.createdAt)))
  }

  function ComputeHash(digest: string -> string, l: AuditLog): string {
    digest(Payload(l))
  }

  /** An entry without a hash counts as a legacy entry and passes. */
  predicate VerifyHash(digest: string -> string, l: AuditLog) {
    l.hash == "" || ComputeHash(digest, l) == l.hash
  }

  predicate EntryOk(digest: string -> string, logs: seq<AuditLog>, i: nat)
    requires i < |logs|
  {
    VerifyHash(digest, logs[i]) && (i > 0 ==> logs[i].prevHash == logs[i - 1].hash)
  }

  function WindowStart(logs: seq<AuditLog>, limit: int): nat {
    if limit > 0 && |logs| > limit then |logs| - limit else 0
  }

  /** The hashed text, field by field in its order. */
  lemma PayloadText(l: AuditLog)
    ensures var actor := if l.actor.Some? then l.actor.value else "";
            var resource := if l.resource.Some? then l.resource.value else "";
            Payload(l) ==
            l.prevHash + "|" + ((actor + "|" + (l.actorIP + "|" + (l.action + "|" + (l.resourceType + "|" + (resource
            + "|" + (l.requestID + "|" + (Decimal(l.statusCode) + "|" + l.severity)))))))
            + "|" + (l.details + "|" + Decimal(l.createdAt)))
  {
    var f := Described(l);
    JoinedTail(f, 7);
    JoinedTail(f, 6);
    JoinedTail(f, 5);
    JoinedTail(f, 4);
    JoinedTail(f, 3);
    JoinedTail(f, 2);
    JoinedTail(f, 1);
    JoinedTail(f, 0);
    hide Joined, Decimal;
    assert f[0..] == f;
  }

  lemma JoinedTail(f: seq<string>, i: nat)
    requires i < |f|
    ensures Joined(f[i..]) == if i == |f| - 1 then f[i] else f[i] + "|" + Joined(f[i + 1..])
  {
    assert i < |f| - 1 ==> f[i..][1..] == f[i + 1..];
  }

  /** An entry passes when its hash, if it has one, is that of its text, and it names the hash before it. */
  lemma EntryOkIff(digest: string -> string, logs: seq<AuditLog>, i: nat)
    requires i < |logs|
    ensures EntryOk(digest, logs, i) <==>
            && (logs[i].hash != "" ==> logs[i].hash == digest(Payload(logs[i])))
            && (i > 0 ==> logs[i].prevHash == logs[i - 1].hash)
  {
  }

  // ---- What the payload determines ----

  predicate Plain(s: string) {
    '|' !in s
  }

  predicate PlainFields(fields: seq<string>) {
    forall i | 0 <= i < |fields| :: Plain(fields[i])
  }

  lemma {:induction false} JoinedInjective(a: seq<string>, x: string, b: seq<string>, y: string)
    requires a != [] && |a| == |b| && PlainFields(a) && PlainFields(b)
    requires Joined(a) + "|" + x == Joined(b) + "|" + y
    ensures a == b && x == y
  {
    if |a| == 1 {
      CutAtFirst(a[0], x, b[0], y, '|');
    } else {
      assert Joined(a) + "|" + x == a[0] + "|" + (Joined(a[1..]) + "|" + x);
      assert Joined(b) + "|" + y == b[0] + "|" + (Joined(b[1..]) + "|" + y);
      CutAtFirst(a[0], Joined(a[1..]) + "|" + x, b[0], Joined(b[1..]) + "|" + y, '|');
      JoinedInjective(a[1..], x, b[1..], y);
      assert a == [a[0]] + a[1..] && b == [b[0]] + b[1..];
    }
  }

  /**
   Records whose hashed text fields, other than the JSON details, have no separator in them have the same
   payload exactly when they agree on every hashed field, an absent actor or resource reading as empty.
   */
  lemma PayloadDeterminesFields(a: AuditLog, b: AuditLog)
    requires Plain(a.prevHash) && Plain(b.prevHash)
    requires PlainFields(Described(a)) && PlainFields(Described(b))
    ensures Payload(a) == Payload(b) <==>
            && a.prevHash == b.prevHash && OrEmpty(a.actor) == OrEmpty(b.actor) && a.actorIP == b.actorIP
            && a.action == b.action && a.resourceType == b.resourceType && OrEmpty(a.resource) == OrEmpty(b.resource)
            && a.requestID == b.requestID && a.statusCode == b.statusCode && a.severity == b.severity
            && a.details == b.details && a.createdAt == b.createdAt
  {
    if Payload(a) == Payload(b) {
      var x, y := a.details + "|" + Decimal(a.createdAt), b.details + "|" + Decimal(b.createdAt);
      CutAtFirst(a.prevHash, Joined(Described(a)) + "|" + x, b.prevHash, Joined(Described(b)) + "|" + y, '|');
      JoinedInjective(Described(a), x, Described(b), y);
      CutAtLast(a.details, Decimal(a.createdAt), b.details, Decimal(b.createdAt), '|');
      DecimalInjective(a.createdAt, b.createdAt);
      assert forall i | 0 <= i < 8 :: Described(a)[i] == Described(b)[i];
      assert Decimal(a.statusCode) == Described(a)[6] == Described(b)[6] == Decimal(b.statusCode);
      DecimalInjective(a.statusCode, b.statusCode);
    }
  }

  /** The hashed texts before the status code. */
  function Texts(l: AuditLog): seq<string> {
    [l.prevHash, OrEmpty(l.actor), l.actorIP, l.action, l.resourceType, OrEmpty(l.resource), l.requestID]
  }

  function WithTexts(l: AuditLog, f: seq<string>): (r: AuditLog)
    requires |f| == 7
    ensures Texts(r) == f && SameRest(l, r)
  {
    l.(prevHash := f[0], actor := Some(f[1]), actorIP := f[2], action := f[3], resourceType := f[4],
       resource := Some(f[5]), requestID := f[6])
  }

  /** The same status, severity, details and time. */
  predicate SameRest(a: AuditLog, b: AuditLog) {
    a.statusCode == b.statusCode && a.severity == b.severity && a.details == b.details && a.createdAt == b.createdAt
  }

  function Rest(l: AuditLog): string {
    Decimal(l.statusCode) + "|" + l.severity + "|" + (l.details + "|" + Decimal(l.createdAt))
  }

  lemma {:induction false} JoinedParts(a: seq<string>, b: seq<string>)
    requires a != [] && b != []
    ensures Joined(a + b) == Joined(a) + "|" + Joined(b)
  {
    assert (a + b)[1..] == a[1..] + b;
    if |a| > 1 {
      JoinedParts(a[1..], b);
      assert a[0] + "|" + (Joined(a[1..]) + "|" + Joined(b)) == a[0] + "|" + Joined(a[1..]) + "|" + Joined(b);
    } else {
      assert a[1..] + b == b;
    }
  }

  lemma PayloadParts(l: AuditLog)
    ensures Payload(l) == Joined(Texts(l)) + "|" + Rest(l)
  {
    var fields, ends := Described(l)[..6], [Decimal(l.statusCode), l.severity];
    var last := l.details + "|" + Decimal(l.createdAt);
    assert Described(l) == fields + ends;
    assert Texts(l) == [l.prevHash] + fields;
    JoinedParts(fields, ends);
    JoinedParts([l.prevHash], fields);
    assert ends[1..] == [l.severity];
    assert Joined(ends) == Decimal(l.statusCode) + "|" + l.severity;
    hide Joined, Described;
    assert Payload(l) == l.prevHash + "|" + (Joined(fields) + "|" + Joined(ends) + "|" + last);
    assert l.prevHash + "|" + (Joined(fields) + "|" + Joined(ends) + "|" + last)
        == l.prevHash + "|" + Joined(fields) + "|" + (Joined(ends) + "|" + last);
  }

  function Separators(s: string): nat {
    multiset(s)['|']
  }

  /** Joined texts hold one separator fewer than there are texts exactly when none of the texts holds one. */
  lemma {:induction false} SeparatorCount(f: seq<string>)
    requires f != []
    ensures |f| - 1 <= Separators(Joined(f))
    ensures Separators(Joined(f)) == |f| - 1 <==> PlainFields(f)
  {
    assert '|' in f[0] <==> Separators(f[0]) > 0;
    if |f| > 1 {
      SeparatorCount(f[1..]);
      assert Separators(f[0] + "|" + Joined(f[1..])) == Separators(f[0]) + 1 + Separators(Joined(f[1..]));
      assert forall i | 1 <= i < |f| :: f[i] == f[1..][i - 1];
    }
  }

  /** Text after a separator may move to the front of the next field, and text before one to the end of the previous. */
  lemma {:induction false} ShiftRight(f: seq<string>, i: nat, x: string, y: string)
    requires i + 1 < |f| && f[i] == x + "|" + y
    ensures Joined(f[i := x][i + 1 := y + "|" + f[i + 1]]) == Joined(f)
  {
    var g := f[i := x][i + 1 := y + "|" + f[i + 1]];
    if i > 0 {
      ShiftRight(f[1..], i - 1, x, y);
      assert g[1..] == f[1..][i - 1 := x][i := y + "|" + f[i + 1]];
    } else {
      SplitTwo(f);
      SplitTwo(g);
      assert g[2..] == f[2..];
      assert x + "|" + (y + "|" + f[1]) == x + "|" + y + "|" + f[1];
    }
  }

  lemma {:induction false} ShiftLeft(f: seq<string>, i: nat, x: string, y: string)
    requires 0 < i < |f| && f[i] == x + "|" + y
    ensures Joined(f[i - 1 := f[i - 1] + "|" + x][i := y]) == Joined(f)
  {
    var g := f[i - 1 := f[i - 1] + "|" + x][i := y];
    if i > 1 {
      ShiftLeft(f[1..], i - 1, x, y);
      assert g[1..] == f[1..][i - 2 := f[i - 1] + "|" + x][i - 1 := y];
    } else {
      SplitTwo(f);
      SplitTwo(g);
      assert g[2..] == f[2..];
      assert f[0] + "|" + x + "|" + y == f[0] + "|" + (x + "|" + y);
    }
  }

  /** The first two texts joined, and what follows them. */
  lemma {:induction false} SplitTwo(f: seq<string>)
    requires 2 <= |f|
    ensures Joined(f) == f[0] + "|" + f[1] + if |f| == 2 then "" else "|" + Joined(f[2..])
  {
    assert f[1..][1..] == f[2..];
  }

  /** Every record with a separator in one of these texts shares its payload with a different record. */
  lemma SeparatorIsAmbiguous(a: AuditLog) returns (b: AuditLog)
    requires !PlainFields(Texts(a))
    ensures SameRest(a, b) && Texts(b) != Texts(a) && Payload(b) == Payload(a)
  {
    var f := Texts(a);
    var i :| 0 <= i < 7 && !Plain(f[i]);
    var k :| 0 <= k < |f[i]| && f[i][k] == '|';
    var x, y := f[i][..k], f[i][k + 1..];
    assert f[i] == x + "|" + y;
    var g;
    if i < 6 {
      ShiftRight(f, i, x, y);
      g := f[i := x][i + 1 := y + "|" + f[i + 1]];
      assert |g[i]| < |f[i]|;
    } else {
      ShiftLeft(f, i, x, y);
      g := f[i - 1 := f[i - 1] + "|" + x][i := y];
      assert |g[i]| < |f[i]|;
    }
    b := WithTexts(a, g);
    PayloadParts(a);
    PayloadParts(b);
  }

  lemma NoTwin(a: AuditLog, b: AuditLog)
    requires PlainFields(Texts(a)) && SameRest(a, b) && Payload(a) == Payload(b)
    ensures Texts(a) == Texts(b)
  {
    PayloadParts(a);
    PayloadParts(b);
    assert Rest(a) == Rest(b) && |Texts(a)| == |Texts(b)| == 7;
    hide *;
    CutEnd(Joined(Texts(a)), Joined(Texts(b)), Rest(a));
    SeparatorCount(Texts(a));
    SeparatorCount(Texts(b));
    JoinedInjective(Texts(a), "", Texts(b), "");
  }

  lemma CutEnd(x: string, y: string, rest: string)
    requires x + "|" + rest == y + "|" + rest
    ensures x == y
  {
    assert |x| == |y| && x == (x + "|" + rest)[..|x|] == y;
  }

  /**
   Among records of one status, severity, details and time, a payload is shared exactly when a text holds the
   separator.
   */
  lemma PayloadIsSharedIff(a: AuditLog)
    ensures (exists b :: SameRest(a, b) && Texts(b) != Texts(a) && Payload(b) == Payload(a)) <==> !PlainFields(Texts(a))
  {
    if PlainFields(Texts(a)) {
      forall b | SameRest(a, b) && Payload(b) == Payload(a)
        ensures Texts(b) == Texts(a)
      {
        NoTwin(a, b);
      }
    } else {
      var b := SeparatorIsAmbiguous(a);
    }
  }

  lemma PayloadDeterminesPrevious(a: AuditLog, b: AuditLog)
    requires Plain(a.prevHash) && Plain(b.prevHash) && Payload(a) == Payload(b)
    ensures a.prevHash == b.prevHash
  {
    CutAtFirst(a.prevHash, Joined(Described(a)) + "|" + (a.details + "|" + Decimal(a.createdAt)),
               b.prevHash, Joined(Described(b)) + "|" + (b.details + "|" + Decimal(b.createdAt)), '|');
  }

  // ---- Tampering ----

  ghost predicate InjectiveDigest(digest: string -> string) {
    && (forall x, y :: digest(x) == digest(y) ==> x == y)
    && (forall x :: digest(x) != "" && Plain(digest(x)))
  }

  function Spelled(s: string): string {
    if s == "" then "." else Digits(s[0] as int) + "." + Spelled(s[1..])
  }

  lemma SpelledFront(x: string)
    ensures Spelled(x) != "" && (x == "" <==> Spelled(x)[0] == '.')
  {
    if x != "" {
      assert Spelled(x)[0] == Digits(x[0] as int)[0];
    }
  }

  lemma {:induction false} SpelledInjective(x: string, y: string)
    requires Spelled(x) == Spelled(y)
    ensures x == y
  {
    SpelledFront(x);
    SpelledFront(y);
    if x != "" {
      ReadFront(x[0] as int, Spelled(x[1..]), y[0] as int, Spelled(y[1..]));
      SpelledInjective(x[1..], y[1..]);
      assert x == [x[0]] + x[1..] && y == [y[0]] + y[1..];
    }
  }

  lemma {:induction false} SpelledPlain(x: string)
    ensures Spelled(x) != "" && Plain(Spelled(x))
  {
    if x != "" {
      SpelledPlain(x[1..]);
    }
  }

  /** The assumption on the digest can be met. */
  lemma InjectiveDigestExists()
    ensures InjectiveDigest(Spelled)
  {
    forall x, y | Spelled(x) == Spelled(y)
      ensures x == y
    {
      SpelledInjective(x, y);
    }
    forall x
      ensures Spelled(x) != "" && Plain(Spelled(x))
    {
      SpelledPlain(x);
    }
  }

  ghost predicate Verified(digest: string -> string, logs: seq<AuditLog>) {
    forall i | 0 <= i < |logs| :: EntryOk(digest, logs, i)
  }

  /** Every hash is the digest of its entry. */
  ghost predicate Sealed(digest: string -> string, logs: seq<AuditLog>) {
    forall i | 0 <= i < |logs| :: logs[i].hash == ComputeHash(digest, logs[i])
  }

  ghost predicate AllHashed(logs: seq<AuditLog>) {
    forall i | 0 <= i < |logs| :: logs[i].hash != ""
  }

  /**
   The head hash pins the ledger down: two fully hashed ledgers of one length that both verify in full and
   end in the same hash have the same hashed payload, and the same hash, at every position.
   */
  lemma {:induction false} HeadHashFixesLedger(digest: string -> string, a: seq<AuditLog>, b: seq<AuditLog>)
    requires InjectiveDigest(digest)
    requires |a| == |b| && AllHashed(a) && AllHashed(b) && Verified(digest, a) && Verified(digest, b)
    requires a != [] ==> a[|a| - 1].hash == b[|b| - 1].hash
    ensures forall i | 0 <= i < |a| :: Payload(a[i]) == Payload(b[i]) && a[i].hash == b[i].hash
  {
    hide Payload;
    if a != [] {
      var n := |a| - 1;
      assert EntryOk(digest, a, n) && EntryOk(digest, b, n);
      assert Payload(a[n]) == Payload(b[n]);
      if n > 0 {
        assert EntryOk(digest, a, n - 1) && EntryOk(digest, b, n - 1);
        PayloadDeterminesPrevious(a[n], b[n]);
      }
      VerifiedPrefix(digest, a, n);
      VerifiedPrefix(digest, b, n);
      HeadHashFixesLedger(digest, a[..n], b[..n]);
      assert forall i | 0 <= i < n :: a[..n][i] == a[i] && b[..n][i] == b[i];
    }
  }

  /** Ledgers that only Record has written meet the conditions of that theorem, so their head hash fixes them. */
  lemma HeadHashFixesRecordedLedger(digest: string -> string, a: seq<AuditLog>, b: seq<AuditLog>)
    requires InjectiveDigest(digest)
    requires |a| == |b| && Sealed(digest, a) && Sealed(digest, b) && Verified(digest, a) && Verified(digest, b)
    requires a != [] ==> a[|a| - 1].hash == b[|b| - 1].hash
    ensures AllHashed(a)
    ensures forall i | 0 <= i < |a| :: Payload(a[i]) == Payload(b[i]) && a[i].hash == b[i].hash
  {
    assert AllHashed(a) && AllHashed(b);
    HeadHashFixesLedger(digest, a, b);
  }

  lemma VerifiedPrefix(digest: string -> string, logs: seq<AuditLog>, n: nat)
    requires Verified(digest, logs) && n <= |logs|
    ensures Verified(digest, logs[..n])
  {
    forall i | 0 <= i < n
      ensures EntryOk(digest, logs[..n], i)
    {
      assert EntryOk(digest, logs, i);
    }
  }

  /** What no digest protects: the identifier and the user agent of an entry are outside the payload. */
  lemma UnhashedFields(digest: string -> string, logs: seq<AuditLog>, k: nat, id: int, agent: string)
    requires k < |logs|
    ensures Verified(digest, logs[k := logs[k].(id := id, userAgent := agent)]) <==> Verified(digest, logs)
  {
    var forged := logs[k := logs[k].(id := id, userAgent := agent)];
    assert forall i | 0 <= i < |logs| :: forged[i].prevHash == logs[i].prevHash && forged[i].hash == logs[i].hash;
    assert forall i | 0 <= i < |logs| :: Payload(forged[i]) == Payload(logs[i]);
    forall i | 0 <= i < |logs|
      ensures EntryOk(digest, forged, i) <==> EntryOk(digest, logs, i)
    {
    }
  }

  /**
   Nor do entries without hashes protect anything: such a ledger verifies exactly when nothing but its first entry
   names a previous hash.
   */
  lemma UnhashedLedgerVerifiesIff(digest: string -> string, logs: seq<AuditLog>)
    requires forall i | 0 <= i < |logs| :: logs[i].hash == ""
    ensures Verified(digest, logs) <==> forall i | 0 < i < |logs| :: logs[i].prevHash == ""
  {
    forall i | 0 <= i < |logs|
      ensures EntryOk(digest, logs, i) <==> i == 0 || logs[i].prevHash == ""
    {
    }
  }

  function Cleared(logs: seq<AuditLog>): (r: seq<AuditLog>)
    ensures |r| == |logs|
  {
    seq(|logs|, i requires 0 <= i < |logs| => logs[i].(hash := "", prevHash := ""))
  }

  /** So any ledger at all verifies once its hashes and previous hashes are cleared. */
  lemma ClearedLedgerVerifies(digest: string -> string, logs: seq<AuditLog>)
    ensures Verified(digest, Cleared(logs))
  {
    UnhashedLedgerVerifiesIff(digest, Cleared(logs));
  }

  // ---- The store ----

  /** The entry a call to Record appends. */
  function Recorded(digest: string -> string, logs: seq<AuditLog>, log: AuditLog, id: int, now: int): AuditLog {
    var stamped := log.(
      id := id,
      createdAt := if log.createdAt == 0 then now else log.createdAt,
      severity := if log.severity == "" then "info" else log.severity,
      prevHash := if logs == [] then log.prevHash else logs[|logs| - 1].hash);
    stamped.(hash := ComputeHash(digest, stamped))
  }

  lemma HashSeals(digest: string -> string, l: AuditLog)
    ensures ComputeHash(digest, l.(hash := ComputeHash(digest, l))) == ComputeHash(digest, l)
  {
    assert Payload(l.(hash := ComputeHash(digest, l))) == Payload(l);
  }

  lemma AppendSealed(digest: string -> string, logs: seq<AuditLog>, l: AuditLog)
    requires Verified(digest, logs) && Sealed(digest, logs)
    requires l.hash == ComputeHash(digest, l) && (logs != [] ==> l.prevHash == logs[|logs| - 1].hash)
    ensures Verified(digest, logs + [l]) && Sealed(digest, logs + [l])
  {
    assert VerifyHash(digest, l);
    hide VerifyHash, ComputeHash;
    forall i | 0 <= i < |logs| + 1
      ensures EntryOk(digest, logs + [l], i)
    {
      assert i < |logs| ==> EntryOk(digest, logs, i);
    }
  }

  /** What Record fills in: the number, the time and the severity where they are missing, the link and the hash. */
  lemma RecordedIs(digest: string -> string, logs: seq<AuditLog>, log: AuditLog, id: int, now: int)
    ensures var e := Recorded(digest, logs, log, id, now);
            && e == log.(id := id, createdAt := e.createdAt, severity := e.severity, prevHash := e.prevHash,
                         hash := digest(Payload(e)))
            && (log.createdAt != 0 ==> e.createdAt == log.createdAt) && (log.createdAt == 0 ==> e.createdAt == now)
            && (log.severity != "" ==> e.severity == log.severity) && (log.severity == "" ==> e.severity == "info")
            && e.prevHash == if logs == [] then log.prevHash else logs[|logs| - 1].hash
  {
    var e := Recorded(digest, logs, log, id, now);
    HashSeals(digest, e.(hash := ""));
    assert e.(hash := "").(hash := e.hash) == e;
    assert Payload(e.(hash := "")) == Payload(e);
  }

  class MemoryAuditRepo {
    const digest: string -> string
    var auditLogs: seq<AuditLog>
    var auditCounter: int

    /** A ledger that only Record has written: it verifies, is hashed throughout, and numbers its entries from 1. */
    ghost predicate Valid()
      reads this
    {
      && auditCounter == |auditLogs|
      && Verified(digest, auditLogs)
      && Sealed(digest, auditLogs)
      && (forall i | 0 <= i < |auditLogs| :: auditLogs[i].id == i + 1)
    }

    constructor (digest: string -> string)
      ensures Valid() && this.digest == digest && auditLogs == []
    {
      this.digest, auditLogs, auditCounter := digest, [], 0;
    }

    method Record(log: AuditLog, now: int)
      requires Valid()
      modifies this
      ensures Valid()
      ensures auditLogs == old(auditLogs) + [Recorded(digest, old(auditLogs), log, old(auditCounter) + 1, now)]
    {
      auditCounter := auditCounter + 1;
      var copy := log.(id := auditCounter);
      if copy.createdAt == 0 {
        copy := copy.(createdAt := now);
      }
      if copy.severity == "" {
        copy := copy.(severity := "info");
      }
      if |auditLogs| > 0 {
        copy := copy.(prevHash := auditLogs[|auditLogs| - 1].hash);
      }
      HashSeals(digest, copy);
      copy := copy.(hash := ComputeHash(digest, copy));
      hide VerifyHash, ComputeHash, EntryOk, Verified, Sealed;
      AppendSealed(digest, auditLogs, copy);
      auditLogs := auditLogs + [copy];
    }

    /** Checks the newest entries, all of them for a limit of 0 or less; works on any ledger, tampered or not. */
    method VerifyChainIntegrity(limit: int) returns (ok: bool, n: int)
      ensures ok <==> forall i | WindowStart(auditLogs, limit) <= i < |auditLogs| :: EntryOk(digest, auditLogs, i)
      ensures ok ==> n == |auditLogs| - WindowStart(auditLogs, limit)
      ensures !ok ==> exists bad | WindowStart(auditLogs, limit) <= bad < |auditLogs| ::
                        && !EntryOk(digest, auditLogs, bad) && n == auditLogs[bad].id
                        && forall i | WindowStart(auditLogs, limit) <= i < bad :: EntryOk(digest, auditLogs, i)
      ensures ok ==> n == if limit <= 0 || |auditLogs| < limit then |auditLogs| else limit
      ensures ok <==> forall i | 0 <= i < |auditLogs| && (limit <= 0 || |auditLogs| - i <= limit) ::
                        EntryOk(digest, auditLogs, i)
      ensures Valid() ==> ok
    {
      if |auditLogs| == 0 {
        return true, 0;
      }
      var start := 0;
      if limit > 0 && |auditLogs| > limit {
        start := |auditLogs| - limit;
      }
      for i := start to |auditLogs|
        invariant forall j | start <= j < i :: EntryOk(digest, auditLogs, j)
      {
        var l := auditLogs[i];
        if l.hash != "" && ComputeHash(digest, l) != l.hash {
          assert !EntryOk(digest, auditLogs, i);
          return false, l.id;
        }
        if i > 0 {
          var prev := auditLogs[i - 1];
          if l.prevHash != prev.hash {
            assert !EntryOk(digest, auditLogs, i);
            return false, l.id;
          }
        }
      }
      return true, |auditLogs| - start;
    }
  }
}
