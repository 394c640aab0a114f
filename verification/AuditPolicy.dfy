/** The audit check: the index of exceptions, the de-duplicating scan of the findings, and the policy
    their verdict stands for. */
module AuditPolicy {
  import opened Wrappers
  import opened Text
  import opened AuditParser

  /** A finding as the audit yields it; an empty string stands for an absent value. */
  datatype Finding = Finding(name: string, severity: string, advisory: string, title: string)

  /** Lower-casing, the ISO date parser, and today's date. */
  datatype Env = Env(lower: string -> string, parseDate: string -> Option<int>, today: int)

  type Key = (string, string)

  datatype Entry = Entry(severity: string, expires: int)

  datatype Problem =
    | MissingFields(exception: Record) | InvalidDate(exception: Record) | BlankKey
    | Duplicate(key: Key) | NoAdvisory(finding: Finding) | SeverityMismatch(finding: Finding, severity: string)

  const REQUIRED: seq<string> := ["package", "advisory", "severity", "mitigation", "expires_on"]

  function Get(e: Record, field: string): string {
    if field in e then e[field] else ""
  }

  predicate HasFields(e: Record) {
    forall i :: 0 <= i < |REQUIRED| ==> Get(e, REQUIRED[i]) != ""
  }

  function ExceptionKey(env: Env, e: Record): Key {
    (Strip(Get(e, "package")), env.lower(Strip(Get(e, "advisory"))))
  }

  function Severity(env: Env, severity: string): string {
    env.lower(Strip(severity))
  }

  function FindingKey(env: Env, f: Finding): Key {
    (Strip(f.name), env.lower(Strip(f.advisory)))
  }

  /** A finding the check looks at: named, and high or critical. */
  predicate Serious(env: Env, f: Finding) {
    (Severity(env, f.severity) == "high" || Severity(env, f.severity) == "critical") && f.name != ""
  }

  predicate Identified(env: Env, f: Finding) {
    Serious(env, f) && FindingKey(env, f).1 != ""
  }

  // ---------------------------------------------------------------- the index

  datatype Index = Index(entries: map<Key, Entry>, problems: seq<Problem>)

  function AddException(env: Env, index: Index, e: Record): Index {
    if !HasFields(e) then index.(problems := index.problems + [MissingFields(e)])
    else if env.parseDate(Get(e, "expires_on")).None? then index.(problems := index.problems + [InvalidDate(e)])
    else
      var key := ExceptionKey(env, e);
      if key.0 == "" || key.1 == "" then index.(problems := index.problems + [BlankKey])
      else if key in index.entries then index.(problems := index.problems + [Duplicate(key)])
      else index.(entries := index.entries[key := EntryOf(env, e)])
  }

  function EntryOf(env: Env, e: Record): Entry
    requires env.parseDate(Get(e, "expires_on")).Some?
  {
    Entry(Severity(env, Get(e, "severity")), env.parseDate(Get(e, "expires_on")).value)
  }

  function BuildIndex(env: Env, exceptions: seq<Record>): Index {
    if exceptions == [] then Index(map[], []) else
      AddException(env, BuildIndex(env, exceptions[..|exceptions| - 1]), exceptions[|exceptions| - 1])
  }

  method IndexExceptions(env: Env, exceptions: seq<Record>) returns (entries: map<Key, Entry>, problems: seq<Problem>)
    ensures Index(entries, problems) == BuildIndex(env, exceptions)
  {
    entries, problems := map[], [];
    for i := 0 to |exceptions|
      invariant Index(entries, problems) == BuildIndex(env, exceptions[..i])
    {
      var e := exceptions[i];
      assert exceptions[..i + 1][..i] == exceptions[..i];
      if exists k :: 0 <= k < |REQUIRED| && Get(e, REQUIRED[k]) == "" {
        problems := problems + [MissingFields(e)];
        continue;
      }
      if env.parseDate(Get(e, "expires_on")).None? {
        problems := problems + [InvalidDate(e)];
        continue;
      }
      var key := ExceptionKey(env, e);
      if key.0 == "" || key.1 == "" {
        problems := problems + [BlankKey];
        continue;
      }
      if key in entries {
        problems := problems + [Duplicate(key)];
        continue;
      }
      entries := entries[key := EntryOf(env, e)];
    }
    assert exceptions[..|exceptions|] == exceptions;
  }

  // ---------------------------------------------------------------- the scan

  datatype Scan = Scan(seen: set<Key>, missing: seq<Finding>, expired: seq<Finding>, problems: seq<Problem>)

  function AddFinding(env: Env, entries: map<Key, Entry>, scan: Scan, f: Finding): Scan {
    if !Serious(env, f) then scan
    else if !Identified(env, f) then scan.(problems := scan.problems + [NoAdvisory(f)])
    else if FindingKey(env, f) in scan.seen then scan
    else
      var key := FindingKey(env, f);
      var scan' := scan.(seen := scan.seen + {key});
      if key !in entries then scan'.(missing := scan.missing + [f])
      else
        var entry := entries[key];
        scan'.(
          problems := if Mismatch(env, entry, f) then scan.problems + [SeverityMismatch(f, entry.severity)] else scan.problems,
          expired := if entry.expires < env.today then scan.expired + [f] else scan.expired)
  }

  predicate Mismatch(env: Env, entry: Entry, f: Finding) {
    entry.severity != "" && entry.severity != Severity(env, f.severity)
  }

  function ScanAll(env: Env, entries: map<Key, Entry>, findings: seq<Finding>): Scan {
    if findings == [] then Scan({}, [], [], []) else
      AddFinding(env, entries, ScanAll(env, entries, findings[..|findings| - 1]), findings[|findings| - 1])
  }

  method ScanFindings(env: Env, entries: map<Key, Entry>, findings: seq<Finding>)
    returns (missing: seq<Finding>, expired: seq<Finding>, problems: seq<Problem>)
    ensures var scan := ScanAll(env, entries, findings);
      missing == scan.missing && expired == scan.expired && problems == scan.problems
  {
    var seen: set<Key> := {};
    missing, expired, problems := [], [], [];
    for i := 0 to |findings|
      invariant Scan(seen, missing, expired, problems) == ScanAll(env, entries, findings[..i])
    {
      var f := findings[i];
      assert findings[..i + 1][..i] == findings[..i];
      var sev := Severity(env, f.severity);
      if (sev != "high" && sev != "critical") || f.name == "" {
        continue;
      }
      var key := FindingKey(env, f);
      if key.1 == "" {
        problems := problems + [NoAdvisory(f)];
        continue;
      }
      if key in seen {
        continue;
      }
      seen := seen + {key};
      if key !in entries {
        missing := missing + [f];
        continue;
      }
      var entry := entries[key];
      if entry.severity != "" && entry.severity != sev {
        problems := problems + [SeverityMismatch(f, entry.severity)];
      }
      if entry.expires < env.today {
        expired := expired + [f];
      }
    }
    assert findings[..|findings|] == findings;
  }

  // ---------------------------------------------------------------- the policy

  predicate Acceptable(env: Env, e: Record) {
    && HasFields(e) && env.parseDate(Get(e, "expires_on")).Some?
    && ExceptionKey(env, e).0 != "" && ExceptionKey(env, e).1 != ""
  }

  /** The finding at position i is the first with its key. */
  ghost predicate First(env: Env, findings: seq<Finding>, i: nat) {
    && i < |findings| && Identified(env, findings[i])
    && forall k :: 0 <= k < i && Identified(env, findings[k]) ==> FindingKey(env, findings[k]) != FindingKey(env, findings[i])
  }

  predicate Covers(env: Env, e: Record, f: Finding) {
    && env.parseDate(Get(e, "expires_on")).Some?
    && ExceptionKey(env, e) == FindingKey(env, f) && !Mismatch(env, EntryOf(env, e), f)
    && EntryOf(env, e).expires >= env.today
  }

  ghost predicate Covered(env: Env, exceptions: seq<Record>, f: Finding) {
    exists e :: e in exceptions && Covers(env, e, f)
  }

  ghost predicate UniqueKeys(env: Env, exceptions: seq<Record>) {
    forall i, j :: 0 <= i < j < |exceptions| ==> ExceptionKey(env, exceptions[i]) != ExceptionKey(env, exceptions[j])
  }

  /** The policy: every exception is complete, dated and has a key of its own; every serious finding
      has an advisory; and the first finding of each key is covered by an unexpired exception of its
      severity. */
  ghost predicate Policy(env: Env, exceptions: seq<Record>, findings: seq<Finding>) {
    && AllAcceptable(env, exceptions)
    && UniqueKeys(env, exceptions)
    && (forall f :: f in findings && Serious(env, f) ==> Identified(env, f))
    && (forall i :: 0 <= i < |findings| && First(env, findings, i) ==> Covered(env, exceptions, findings[i]))
  }

  // The policy spelled out, without the functions the check uses.

  predicate IsComplete(e: Record) {
    && "package" in e && e["package"] != "" && "advisory" in e && e["advisory"] != ""
    && "severity" in e && e["severity"] != "" && "mitigation" in e && e["mitigation"] != ""
    && "expires_on" in e && e["expires_on"] != ""
  }

  predicate IsGood(env: Env, e: Record) {
    && IsComplete(e) && env.parseDate(e["expires_on"]).Some?
    && Strip(e["package"]) != "" && env.lower(Strip(e["advisory"])) != ""
  }

  predicate SameException(env: Env, e: Record, x: Record) {
    && IsComplete(e) && IsComplete(x)
    && Strip(e["package"]) == Strip(x["package"]) && env.lower(Strip(e["advisory"])) == env.lower(Strip(x["advisory"]))
  }

  predicate IsSerious(env: Env, f: Finding) {
    f.name != "" && (env.lower(Strip(f.severity)) == "high" || env.lower(Strip(f.severity)) == "critical")
  }

  predicate SameFinding(env: Env, f: Finding, g: Finding) {
    Strip(f.name) == Strip(g.name) && env.lower(Strip(f.advisory)) == env.lower(Strip(g.advisory))
  }

  /** An exception covers a finding of its package and advisory, in any case, if it has not expired and,
      unless its severity is blank, names the finding's. */
  predicate IsCoveredBy(env: Env, f: Finding, e: Record)
    requires IsGood(env, e)
  {
    && Strip(e["package"]) == Strip(f.name) && env.lower(Strip(e["advisory"])) == env.lower(Strip(f.advisory))
    && env.parseDate(e["expires_on"]).value >= env.today
    && (env.lower(Strip(e["severity"])) == "" || env.lower(Strip(e["severity"])) == env.lower(Strip(f.severity)))
  }

  /** Every exception is good, no two are for the same package and advisory, every serious finding has an
      advisory, and of each package and advisory the first serious finding is covered. */
  ghost predicate Rules(env: Env, exceptions: seq<Record>, findings: seq<Finding>) {
    && (forall i :: 0 <= i < |exceptions| ==> IsGood(env, exceptions[i]))
    && (forall i, j :: 0 <= i < j < |exceptions| ==> !SameException(env, exceptions[i], exceptions[j]))
    && (forall i :: 0 <= i < |findings| && IsSerious(env, findings[i]) ==> env.lower(Strip(findings[i].advisory)) != "")
    && (forall i :: 0 <= i < |findings| && IsSerious(env, findings[i]) ==>
         || (exists k :: 0 <= k < i && IsSerious(env, findings[k]) && SameFinding(env, findings[k], findings[i]))
         || (exists x :: 0 <= x < |exceptions| && IsCoveredBy(env, findings[i], exceptions[x])))
  }

  lemma AcceptableIsGood(env: Env, e: Record)
    ensures Acceptable(env, e) <==> IsGood(env, e)
  {
    var required := REQUIRED;
    assert required[0] == "package" && required[1] == "advisory" && required[2] == "severity";
    assert required[3] == "mitigation" && required[4] == "expires_on";
    assert HasFields(e) <==> IsComplete(e);
  }

  lemma CoversIsCoveredBy(env: Env, e: Record, f: Finding)
    requires IsGood(env, e)
    ensures Covers(env, e, f) <==> IsCoveredBy(env, f, e)
  {
  }

  lemma CoveredIsCoveredBy(env: Env, exceptions: seq<Record>, f: Finding)
    requires forall i :: 0 <= i < |exceptions| ==> IsGood(env, exceptions[i])
    ensures Covered(env, exceptions, f) <==> exists x :: 0 <= x < |exceptions| && IsCoveredBy(env, f, exceptions[x])
  {
    forall x | 0 <= x < |exceptions| ensures Covers(env, exceptions[x], f) <==> IsCoveredBy(env, f, exceptions[x]) {
      CoversIsCoveredBy(env, exceptions[x], f);
    }
    if e :| e in exceptions && Covers(env, e, f) {
      var x :| 0 <= x < |exceptions| && exceptions[x] == e;
      assert IsCoveredBy(env, f, exceptions[x]);
    }
    if x :| 0 <= x < |exceptions| && IsCoveredBy(env, f, exceptions[x]) {
      assert exceptions[x] in exceptions && Covers(env, exceptions[x], f);
    }
  }

  lemma AllAcceptableIsGood(env: Env, exceptions: seq<Record>)
    ensures AllAcceptable(env, exceptions) <==> forall i :: 0 <= i < |exceptions| ==> IsGood(env, exceptions[i])
  {
    forall i | 0 <= i < |exceptions| ensures Acceptable(env, exceptions[i]) <==> IsGood(env, exceptions[i]) {
      AcceptableIsGood(env, exceptions[i]);
    }
  }

  /** Finding by finding, when every serious one has an advisory. */
  lemma FirstCovered(env: Env, exceptions: seq<Record>, findings: seq<Finding>, i: nat)
    requires forall x :: 0 <= x < |exceptions| ==> IsGood(env, exceptions[x])
    requires forall k :: 0 <= k < |findings| && IsSerious(env, findings[k]) ==> env.lower(Strip(findings[k].advisory)) != ""
    requires i < |findings|
    ensures (First(env, findings, i) ==> Covered(env, exceptions, findings[i])) <==>
      (IsSerious(env, findings[i]) ==>
         || (exists k :: 0 <= k < i && IsSerious(env, findings[k]) && SameFinding(env, findings[k], findings[i]))
         || (exists x :: 0 <= x < |exceptions| && IsCoveredBy(env, findings[i], exceptions[x])))
  {
    CoveredIsCoveredBy(env, exceptions, findings[i]);
    assert forall k :: 0 <= k < |findings| ==> (Identified(env, findings[k]) <==> IsSerious(env, findings[k]));
    assert forall k :: 0 <= k < i ==>
      (FindingKey(env, findings[k]) == FindingKey(env, findings[i]) <==> SameFinding(env, findings[k], findings[i]));
  }

  /** The policy says what is spelled out. */
  lemma PolicyIsRules(env: Env, exceptions: seq<Record>, findings: seq<Finding>)
    ensures Policy(env, exceptions, findings) <==> Rules(env, exceptions, findings)
  {
    AllAcceptableIsGood(env, exceptions);
    if AllAcceptable(env, exceptions) {
      UniqueIsSame(env, exceptions);
      SeriousAdvisories(env, findings);
      if forall f :: f in findings && Serious(env, f) ==> Identified(env, f) {
        forall i | 0 <= i < |findings|
          ensures (First(env, findings, i) ==> Covered(env, exceptions, findings[i])) <==>
            (IsSerious(env, findings[i]) ==>
               || (exists k :: 0 <= k < i && IsSerious(env, findings[k]) && SameFinding(env, findings[k], findings[i]))
               || (exists x :: 0 <= x < |exceptions| && IsCoveredBy(env, findings[i], exceptions[x])))
        {
          FirstCovered(env, exceptions, findings, i);
        }
      }
    }
  }

  lemma UniqueIsSame(env: Env, exceptions: seq<Record>)
    requires forall i :: 0 <= i < |exceptions| ==> IsGood(env, exceptions[i])
    ensures UniqueKeys(env, exceptions) <==>
      forall i, j :: 0 <= i < j < |exceptions| ==> !SameException(env, exceptions[i], exceptions[j])
  {
  }

  lemma SeriousAdvisories(env: Env, findings: seq<Finding>)
    ensures (forall f :: f in findings && Serious(env, f) ==> Identified(env, f)) <==>
      forall i :: 0 <= i < |findings| && IsSerious(env, findings[i]) ==> env.lower(Strip(findings[i].advisory)) != ""
  {
    assert forall f :: Serious(env, f) <==> IsSerious(env, f);
    assert forall i :: 0 <= i < |findings| ==> findings[i] in findings;
  }

  // ---------------------------------------------------------------- the verdict is the policy

  ghost predicate AllAcceptable(env: Env, exceptions: seq<Record>) {
    forall e :: e in exceptions ==> Acceptable(env, e)
  }

  lemma UniqueKeysAppend(env: Env, front: seq<Record>, last: Record)
    ensures UniqueKeys(env, front + [last]) <==> UniqueKeys(env, front) && !HasException(env, front, ExceptionKey(env, last))
  {
    var all, key := front + [last], ExceptionKey(env, last);
    assert forall i :: 0 <= i < |front| ==> all[i] == front[i];
    if i :| 0 <= i < |front| && ExceptionKey(env, front[i]) == key {
      assert ExceptionKey(env, all[i]) == ExceptionKey(env, all[|front|]);
    }
  }

  /** An index built without problems has exactly the keys of the exceptions. */
  lemma {:induction false} IndexHasKeys(env: Env, exceptions: seq<Record>)
    requires BuildIndex(env, exceptions).problems == []
    ensures forall key :: key in BuildIndex(env, exceptions).entries <==> HasException(env, exceptions, key)
  {
    if exceptions != [] {
      var front, last := exceptions[..|exceptions| - 1], exceptions[|exceptions| - 1];
      assert exceptions == front + [last];
      IndexHasKeys(env, front);
      IndexKeys(env, front, last);
    }
  }

  lemma AllAcceptableAppend(env: Env, front: seq<Record>, last: Record)
    ensures AllAcceptable(env, front + [last]) <==> AllAcceptable(env, front) && Acceptable(env, last)
  {
    assert last in front + [last];
  }

  /** Indexing finds no problem exactly when every exception is acceptable and has a key of its own. */
  lemma {:induction false} IndexAccepts(env: Env, exceptions: seq<Record>)
    ensures BuildIndex(env, exceptions).problems == [] <==> AllAcceptable(env, exceptions) && UniqueKeys(env, exceptions)
  {
    if exceptions != [] {
      var front, last := exceptions[..|exceptions| - 1], exceptions[|exceptions| - 1];
      assert exceptions == front + [last];
      IndexAccepts(env, front);
      UniqueKeysAppend(env, front, last);
      AllAcceptableAppend(env, front, last);
      if BuildIndex(env, front).problems == [] {
        IndexHasKeys(env, front);
      }
    }
  }

  ghost predicate HasException(env: Env, exceptions: seq<Record>, key: Key) {
    exists i :: 0 <= i < |exceptions| && ExceptionKey(env, exceptions[i]) == key
  }

  lemma HasExceptionAppend(env: Env, front: seq<Record>, last: Record, key: Key)
    ensures HasException(env, front + [last], key) <==> HasException(env, front, key) || key == ExceptionKey(env, last)
  {
    var all := front + [last];
    assert all[|front|] == last;
    if i :| 0 <= i < |front| && ExceptionKey(env, front[i]) == key {
      assert all[i] == front[i];
    }
  }

  lemma IndexKeys(env: Env, front: seq<Record>, last: Record)
    requires Acceptable(env, last)
    requires forall key :: key in BuildIndex(env, front).entries <==> HasException(env, front, key)
    ensures BuildIndex(env, front + [last]).problems == BuildIndex(env, front).problems ==>
      forall key :: key in BuildIndex(env, front + [last]).entries <==> HasException(env, front + [last], key)
  {
    var before := BuildIndex(env, front);
    assert (front + [last])[..|front|] == front;
    assert BuildIndex(env, front + [last]) == AddException(env, before, last);
    forall key ensures HasException(env, front + [last], key) <==> HasException(env, front, key) || key == ExceptionKey(env, last) {
      HasExceptionAppend(env, front, last, key);
    }
  }

  /** Every entry of the index is that of an acceptable exception with its key. */
  lemma {:induction false} IndexEntries(env: Env, exceptions: seq<Record>, key: Key) returns (e: Record)
    requires key in BuildIndex(env, exceptions).entries
    ensures e in exceptions && Acceptable(env, e) && ExceptionKey(env, e) == key
    ensures BuildIndex(env, exceptions).entries[key] == EntryOf(env, e)
  {
    var front, last := exceptions[..|exceptions| - 1], exceptions[|exceptions| - 1];
    assert exceptions == front + [last];
    if key in BuildIndex(env, front).entries {
      e := IndexEntries(env, front, key);
    } else {
      e := last;
    }
  }

  /** What a scan reports nothing about: a finding with an unexpired entry of its severity. */
  predicate Clean(env: Env, entries: map<Key, Entry>, f: Finding) {
    var key := FindingKey(env, f);
    key in entries && !Mismatch(env, entries[key], f) && entries[key].expires >= env.today
  }

  lemma FirstAppend(env: Env, findings: seq<Finding>, last: Finding)
    ensures forall i :: 0 <= i < |findings| ==> (First(env, findings + [last], i) <==> First(env, findings, i))
    ensures First(env, findings + [last], |findings|) <==>
      Identified(env, last) && !HasFinding(env, findings, FindingKey(env, last))
  {
    var all := findings + [last];
    forall i | 0 <= i < |findings| ensures First(env, all, i) <==> First(env, findings, i) {
      assert all[..i] == findings[..i];
      assert forall k :: 0 <= k < i ==> all[k] == findings[k];
    }
    assert forall k :: 0 <= k < |findings| ==> all[k] == findings[k];
  }

  ghost predicate HasFinding(env: Env, findings: seq<Finding>, key: Key) {
    exists i :: 0 <= i < |findings| && Identified(env, findings[i]) && FindingKey(env, findings[i]) == key
  }

  lemma HasFindingAppend(env: Env, findings: seq<Finding>, last: Finding, key: Key)
    ensures HasFinding(env, findings + [last], key) <==>
      HasFinding(env, findings, key) || (Identified(env, last) && FindingKey(env, last) == key)
  {
    var all := findings + [last];
    if i :| 0 <= i < |findings| && Identified(env, findings[i]) && FindingKey(env, findings[i]) == key {
      assert all[i] == findings[i];
    }
    if Identified(env, last) && FindingKey(env, last) == key {
      assert all[|findings|] == last;
    }
  }

  lemma {:induction false} ScanSeen(env: Env, entries: map<Key, Entry>, findings: seq<Finding>)
    ensures forall key :: key in ScanAll(env, entries, findings).seen <==> HasFinding(env, findings, key)
  {
    if findings != [] {
      var front, last := findings[..|findings| - 1], findings[|findings| - 1];
      assert findings == front + [last];
      ScanSeen(env, entries, front);
      forall key ensures key in ScanAll(env, entries, findings).seen <==> HasFinding(env, findings, key) {
        HasFindingAppend(env, front, last, key);
      }
    }
  }

  predicate Silent(scan: Scan) {
    scan.missing == [] && scan.expired == [] && scan.problems == []
  }

  ghost predicate AllClean(env: Env, entries: map<Key, Entry>, findings: seq<Finding>) {
    && (forall i :: 0 <= i < |findings| && Serious(env, findings[i]) ==> Identified(env, findings[i]))
    && (forall i :: 0 <= i < |findings| && First(env, findings, i) ==> Clean(env, entries, findings[i]))
  }

  lemma {:induction false} SilentIffAllClean(env: Env, entries: map<Key, Entry>, findings: seq<Finding>)
    ensures Silent(ScanAll(env, entries, findings)) <==> AllClean(env, entries, findings)
  {
    if findings != [] {
      var front, last := findings[..|findings| - 1], findings[|findings| - 1];
      assert findings == front + [last];
      SilentIffAllClean(env, entries, front);
      ScanSeen(env, entries, front);
      FirstAppend(env, front, last);
      AllCleanAppend(env, entries, front, last);
    }
  }

  lemma AllCleanAppend(env: Env, entries: map<Key, Entry>, front: seq<Finding>, last: Finding)
    ensures AllClean(env, entries, front + [last]) <==>
      && AllClean(env, entries, front)
      && (Serious(env, last) ==> Identified(env, last))
      && (First(env, front + [last], |front|) ==> Clean(env, entries, last))
  {
    var all := front + [last];
    FirstAppend(env, front, last);
    assert all[|front|] == last && forall i :: 0 <= i < |front| ==> all[i] == front[i];
  }

  lemma CleanIffCovered(env: Env, exceptions: seq<Record>, f: Finding)
    requires BuildIndex(env, exceptions).problems == []
    ensures Clean(env, BuildIndex(env, exceptions).entries, f) <==> Covered(env, exceptions, f)
  {
    var entries, key := BuildIndex(env, exceptions).entries, FindingKey(env, f);
    IndexAccepts(env, exceptions);
    IndexHasKeys(env, exceptions);
    if key in entries {
      var e := IndexEntries(env, exceptions, key);
      forall x | x in exceptions && ExceptionKey(env, x) == key ensures x == e {
        var i :| 0 <= i < |exceptions| && exceptions[i] == x;
        var j :| 0 <= j < |exceptions| && exceptions[j] == e;
      }
    } else {
      forall x | x in exceptions ensures ExceptionKey(env, x) != key {
        var i :| 0 <= i < |exceptions| && exceptions[i] == x;
      }
    }
  }

  lemma AllCleanIffCovered(env: Env, exceptions: seq<Record>, findings: seq<Finding>)
    requires BuildIndex(env, exceptions).problems == []
    ensures AllClean(env, BuildIndex(env, exceptions).entries, findings) <==>
      && (forall f :: f in findings && Serious(env, f) ==> Identified(env, f))
      && (forall i :: 0 <= i < |findings| && First(env, findings, i) ==> Covered(env, exceptions, findings[i]))
  {
    var entries := BuildIndex(env, exceptions).entries;
    forall i | 0 <= i < |findings| ensures Clean(env, entries, findings[i]) <==> Covered(env, exceptions, findings[i]) {
      CleanIffCovered(env, exceptions, findings[i]);
    }
  }

  lemma VerdictIsPolicy(env: Env, exceptions: seq<Record>, findings: seq<Finding>)
    ensures BuildIndex(env, exceptions).problems == [] && Silent(ScanAll(env, BuildIndex(env, exceptions).entries, findings))
       <==> Policy(env, exceptions, findings)
  {
    var index := BuildIndex(env, exceptions);
    IndexAccepts(env, exceptions);
    SilentIffAllClean(env, index.entries, findings);
    if index.problems == [] {
      AllCleanIffCovered(env, exceptions, findings);
    }
  }

  /** The exit code of the check: 0 exactly when the policy holds, in its own words. */
  method Verdict(env: Env, exceptions: seq<Record>, findings: seq<Finding>) returns (code: int)
    ensures code == 0 || code == 1
    ensures code == 0 <==> Policy(env, exceptions, findings)
    ensures code == 0 <==> Rules(env, exceptions, findings)
  {
    PolicyIsRules(env, exceptions, findings);
    var entries, problems := IndexExceptions(env, exceptions);
    var missing, expired, more := ScanFindings(env, entries, findings);
    VerdictIsPolicy(env, exceptions, findings);
    code := if problems + more != [] || missing != [] || expired != [] then 1 else 0;
  }

  // ---------------------------------------------------------------- what is reported

  /** When indexing reports a problem. */
  ghost predicate Faulty(env: Env, exceptions: seq<Record>, p: Problem) {
    match p
    case MissingFields(e) => e in exceptions && !IsComplete(e)
    case InvalidDate(e) => e in exceptions && IsComplete(e) && env.parseDate(e["expires_on"]).None?
    case BlankKey => exists e :: e in exceptions && IsBlankKeyed(env, e)
    case Duplicate(key) => exists j :: 0 <= j < |exceptions| && IsRepeat(env, exceptions, j, key)
    case _ => false
  }

  predicate IsBlankKeyed(env: Env, e: Record) {
    && IsComplete(e) && env.parseDate(e["expires_on"]).Some?
    && (Strip(e["package"]) == "" || env.lower(Strip(e["advisory"])) == "")
  }

  predicate HasKey(env: Env, e: Record, key: Key) {
    IsGood(env, e) && Strip(e["package"]) == key.0 && env.lower(Strip(e["advisory"])) == key.1
  }

  /** The exception at j has a key that an earlier one has. */
  ghost predicate IsRepeat(env: Env, exceptions: seq<Record>, j: nat, key: Key) {
    && j < |exceptions| && HasKey(env, exceptions[j], key)
    && exists i :: 0 <= i < j && HasKey(env, exceptions[i], key)
  }

  lemma AddExceptionIs(env: Env, index: Index, e: Record, key: Key)
    ensures IsGood(env, e) <==> Acceptable(env, e)
    ensures HasKey(env, e, key) <==> Acceptable(env, e) && ExceptionKey(env, e) == key
    ensures !IsComplete(e) ==> AddException(env, index, e) == index.(problems := index.problems + [MissingFields(e)])
    ensures IsComplete(e) && env.parseDate(e["expires_on"]).None? ==>
      AddException(env, index, e) == index.(problems := index.problems + [InvalidDate(e)])
    ensures IsBlankKeyed(env, e) ==> AddException(env, index, e) == index.(problems := index.problems + [BlankKey])
  {
    AcceptableIsGood(env, e);
    var required := REQUIRED;
    assert required[0] == "package" && required[1] == "advisory" && required[2] == "severity";
    assert required[3] == "mitigation" && required[4] == "expires_on";
    assert HasFields(e) <==> IsComplete(e);
  }

  /** The index holds the keys of the good exceptions. */
  lemma {:induction false} IndexedKeys(env: Env, exceptions: seq<Record>, key: Key)
    ensures key in BuildIndex(env, exceptions).entries <==>
      exists i :: 0 <= i < |exceptions| && HasKey(env, exceptions[i], key)
  {
    if exceptions != [] {
      var front, last := exceptions[..|exceptions| - 1], exceptions[|exceptions| - 1];
      assert exceptions == front + [last];
      IndexedKeys(env, front, key);
      AddExceptionIs(env, BuildIndex(env, front), last, key);
      assert forall i :: 0 <= i < |front| ==> front[i] == exceptions[i];
    }
  }

  /** Under each key the index holds the severity and date of the first good exception with that key. */
  lemma {:induction false} IndexedFirst(env: Env, exceptions: seq<Record>, i: nat, key: Key)
    requires i < |exceptions| && HasKey(env, exceptions[i], key)
    requires forall k :: 0 <= k < i ==> !HasKey(env, exceptions[k], key)
    ensures var entries := BuildIndex(env, exceptions).entries; var e := exceptions[i];
      key in entries && entries[key] == Entry(env.lower(Strip(e["severity"])), env.parseDate(e["expires_on"]).value)
  {
    var front, last := exceptions[..|exceptions| - 1], exceptions[|exceptions| - 1];
    AddExceptionIs(env, BuildIndex(env, front), last, key);
    IndexedKeys(env, front, key);
    if i < |front| {
      IndexedFirst(env, front, i, key);
    } else {
      assert forall k :: 0 <= k < |front| ==> front[k] == exceptions[k];
      assert key !in BuildIndex(env, front).entries;
    }
  }

  /** What one more exception adds to the problems. */
  lemma LastReported(env: Env, front: seq<Record>, last: Record, p: Problem)
    ensures p in AddException(env, BuildIndex(env, front), last).problems <==>
      || p in BuildIndex(env, front).problems || Faulty(env, [last], p)
      || (p.Duplicate? && IsRepeat(env, front + [last], |front|, p.key))
  {
    var index, key := BuildIndex(env, front), ExceptionKey(env, last);
    AddExceptionIs(env, index, last, key);
    SingleFaulty(env, last, p);
    RepeatOfKey(env, front, last);
    if p.Duplicate? {
      AddExceptionIs(env, index, last, p.key);
    }
  }

  lemma SingleFaulty(env: Env, e: Record, p: Problem)
    ensures Faulty(env, [e], p) <==>
      || (p == MissingFields(e) && !IsComplete(e))
      || (p == InvalidDate(e) && IsComplete(e) && env.parseDate(e["expires_on"]).None?)
      || (p == BlankKey && IsBlankKeyed(env, e))
  {
    assert [e][0] == e;
    assert forall j, key :: !IsRepeat(env, [e], j, key);
    if p == BlankKey && IsBlankKeyed(env, e) {
      assert e in [e];
    }
  }

  lemma RepeatOfKey(env: Env, front: seq<Record>, last: Record)
    ensures Acceptable(env, last) ==>
      (ExceptionKey(env, last) in BuildIndex(env, front).entries <==> IsRepeat(env, front + [last], |front|, ExceptionKey(env, last)))
    ensures forall key :: IsRepeat(env, front + [last], |front|, key) ==> Acceptable(env, last) && ExceptionKey(env, last) == key
  {
    var all, key := front + [last], ExceptionKey(env, last);
    assert all[|front|] == last && forall i :: 0 <= i < |front| ==> all[i] == front[i];
    IndexedKeys(env, front, key);
    AddExceptionIs(env, BuildIndex(env, front), last, key);
    forall k | IsRepeat(env, all, |front|, k) ensures Acceptable(env, last) && key == k {
      AddExceptionIs(env, BuildIndex(env, front), last, k);
    }
    if i :| 0 <= i < |front| && HasKey(env, front[i], key) {
      assert HasKey(env, all[i], key);
    }
  }

  /** Indexing reports exactly the faults. */
  lemma {:induction false} IndexReports(env: Env, exceptions: seq<Record>, p: Problem)
    ensures p in BuildIndex(env, exceptions).problems <==> Faulty(env, exceptions, p)
  {
    if exceptions != [] {
      var front, last := exceptions[..|exceptions| - 1], exceptions[|exceptions| - 1];
      assert exceptions == front + [last];
      IndexReports(env, front, p);
      LastReported(env, front, last, p);
      FaultyAppend(env, front, last, p);
    }
  }

  lemma FaultyAppend(env: Env, front: seq<Record>, last: Record, p: Problem)
    ensures Faulty(env, front + [last], p) <==>
      Faulty(env, front, p) || Faulty(env, [last], p) || (p.Duplicate? && IsRepeat(env, front + [last], |front|, p.key))
  {
    var all := front + [last];
    assert all[|front|] == last;
    if p.Duplicate? {
      forall j | 0 <= j < |front| ensures IsRepeat(env, all, j, p.key) <==> IsRepeat(env, front, j, p.key) {
        assert forall i :: 0 <= i <= j ==> all[i] == front[i];
      }
    }
  }

  /** The finding is in the list, the first serious one of its package and advisory. */
  ghost predicate IsFirst(env: Env, findings: seq<Finding>, f: Finding) {
    exists i :: 0 <= i < |findings| && findings[i] == f && First(env, findings, i)
  }

  lemma IsFirstAppend(env: Env, front: seq<Finding>, last: Finding, f: Finding)
    ensures IsFirst(env, front + [last], f) <==>
      IsFirst(env, front, f) || (f == last && Identified(env, last) && !HasFinding(env, front, FindingKey(env, last)))
  {
    var all := front + [last];
    FirstAppend(env, front, last);
    assert all[|front|] == last;
    if i :| 0 <= i < |front| && front[i] == f && First(env, front, i) {
      assert all[i] == f;
    }
    if i :| 0 <= i < |all| && all[i] == f && First(env, all, i) {
      assert i < |front| ==> front[i] == f;
    }
  }

  /** When a scan complains of a finding. */
  ghost predicate Suspect(env: Env, entries: map<Key, Entry>, findings: seq<Finding>, p: Problem) {
    match p
    case NoAdvisory(f) => f in findings && IsSerious(env, f) && env.lower(Strip(f.advisory)) == ""
    case SeverityMismatch(f, severity) =>
      && IsFirst(env, findings, f) && FindingKey(env, f) in entries
      && severity == entries[FindingKey(env, f)].severity != "" && severity != env.lower(Strip(f.severity))
    case _ => false
  }

  /** A scan reports exactly the findings without an advisory and, of each package and advisory, the first
      finding if no entry has its key, if that entry has expired, or if it names another severity. */
  lemma {:induction false} ScanReports(env: Env, entries: map<Key, Entry>, findings: seq<Finding>, f: Finding, p: Problem)
    ensures var scan := ScanAll(env, entries, findings); var key := FindingKey(env, f);
      && (f in scan.missing <==> IsFirst(env, findings, f) && key !in entries)
      && (f in scan.expired <==> IsFirst(env, findings, f) && key in entries && entries[key].expires < env.today)
      && (p in scan.problems <==> Suspect(env, entries, findings, p))
  {
    if findings != [] {
      var front, last := findings[..|findings| - 1], findings[|findings| - 1];
      assert findings == front + [last];
      ScanReports(env, entries, front, f, p);
      ScanSeen(env, entries, front);
      IsFirstAppend(env, front, last, f);
      if p.SeverityMismatch? {
        IsFirstAppend(env, front, last, p.finding);
      }
    }
  }

  // ---------------------------------------------------------------- order and duplicates

  function KeysOf(env: Env, reported: seq<Finding>): seq<Key> {
    seq(|reported|, i requires 0 <= i < |reported| => FindingKey(env, reported[i]))
  }

  ghost predicate NoRepeats(keys: seq<Key>) {
    forall i, j :: 0 <= i < j < |keys| ==> keys[i] != keys[j]
  }

  lemma KeysAppend(env: Env, reported: seq<Finding>, last: Finding)
    ensures KeysOf(env, reported + [last]) == KeysOf(env, reported) + [FindingKey(env, last)]
  {
  }

  /** The findings reported without skipping: every identified one whose key is wanted. */
  function Reported(env: Env, wanted: Key -> bool, findings: seq<Finding>): seq<Key> {
    if findings == [] then [] else
      var front, last := Reported(env, wanted, findings[..|findings| - 1]), findings[|findings| - 1];
      if Identified(env, last) && wanted(FindingKey(env, last)) then front + [FindingKey(env, last)] else front
  }

  /** Keeping the first occurrence of each key. */
  function Distinct(keys: seq<Key>): seq<Key> {
    if keys == [] then [] else
      var front, last := Distinct(keys[..|keys| - 1]), keys[|keys| - 1];
      if last in front then front else front + [last]
  }

  lemma {:induction false} DistinctMembers(keys: seq<Key>)
    ensures NoRepeats(Distinct(keys))
    ensures forall key :: key in Distinct(keys) <==> key in keys
  {
    if keys != [] {
      var front, last := keys[..|keys| - 1], keys[|keys| - 1];
      DistinctMembers(front);
      assert keys == front + [last];
    }
  }

  lemma {:induction false} ReportedSeen(env: Env, wanted: Key -> bool, findings: seq<Finding>, key: Key)
    ensures key in Reported(env, wanted, findings) <==> HasFinding(env, findings, key) && wanted(key)
  {
    if findings != [] {
      var front, last := findings[..|findings| - 1], findings[|findings| - 1];
      assert findings == front + [last];
      ReportedSeen(env, wanted, front, key);
      HasFindingAppend(env, front, last, key);
    }
  }

  function Missing(entries: map<Key, Entry>): Key -> bool {
    key => key !in entries
  }

  function Expired(env: Env, entries: map<Key, Entry>): Key -> bool {
    key => key in entries && entries[key].expires < env.today
  }

  /** One step of the scan against one step of the scan without `seen`. */
  lemma DistinctStep(env: Env, wanted: Key -> bool, findings: seq<Finding>, last: Finding)
    ensures var front, key := Reported(env, wanted, findings), FindingKey(env, last);
      Distinct(Reported(env, wanted, findings + [last])) ==
        if Identified(env, last) && wanted(key) && !HasFinding(env, findings, key) then Distinct(front) + [key] else Distinct(front)
  {
    var front, key := Reported(env, wanted, findings), FindingKey(env, last);
    assert (findings + [last])[..|findings|] == findings;
    assert (front + [key])[..|front|] == front;
    ReportedSeen(env, wanted, findings, key);
    DistinctMembers(front);
  }

  /** Skipping the keys already seen loses nothing: what is reported as missing and as expired is what
      a scan without skipping reports, each key once, in first-seen order. */
  lemma {:induction false} DeduplicationIsLossless(env: Env, entries: map<Key, Entry>, findings: seq<Finding>)
    ensures KeysOf(env, ScanAll(env, entries, findings).missing) == Distinct(Reported(env, Missing(entries), findings))
    ensures KeysOf(env, ScanAll(env, entries, findings).expired) == Distinct(Reported(env, Expired(env, entries), findings))
  {
    if findings != [] {
      var front, last := findings[..|findings| - 1], findings[|findings| - 1];
      var scan := ScanAll(env, entries, front);
      assert findings == front + [last];
      DeduplicationIsLossless(env, entries, front);
      ScanSeen(env, entries, front);
      DistinctStep(env, Missing(entries), front, last);
      DistinctStep(env, Expired(env, entries), front, last);
      KeysAppend(env, scan.missing, last);
      KeysAppend(env, scan.expired, last);
    }
  }

  lemma {:induction false} TwoPlaces(exceptions: seq<Record>, e: Record) returns (i: nat, j: nat)
    requires multiset(exceptions)[e] >= 2
    ensures i < j < |exceptions| && exceptions[i] == e && exceptions[j] == e
  {
    var n := |exceptions| - 1;
    assert exceptions == exceptions[..n] + [exceptions[n]];
    if exceptions[n] == e {
      assert e in exceptions[..n];
      i :| 0 <= i < n && exceptions[..n][i] == e;
      j := n;
    } else {
      i, j := TwoPlaces(exceptions[..n], e);
    }
  }

  /** An exception listed twice is listed twice in any order. */
  lemma TwiceKept(exceptions: seq<Record>, permuted: seq<Record>, i: nat, j: nat) returns (k: nat, l: nat)
    requires multiset(exceptions) == multiset(permuted)
    requires i < j < |permuted| && permuted[i] == permuted[j]
    ensures k < l < |exceptions| && exceptions[k] == exceptions[l]
  {
    var e := permuted[i];
    assert permuted == permuted[..j] + permuted[j..];
    assert permuted[..j][i] == e && permuted[j..][0] == e;
    assert e in multiset(permuted[..j]) && e in multiset(permuted[j..]);
    k, l := TwoPlaces(exceptions, e);
  }

  lemma PlaceKept(exceptions: seq<Record>, permuted: seq<Record>, i: nat) returns (k: nat)
    requires multiset(exceptions) == multiset(permuted) && i < |permuted|
    ensures k < |exceptions| && exceptions[k] == permuted[i]
  {
    assert permuted[i] in multiset(exceptions);
    k :| 0 <= k < |exceptions| && exceptions[k] == permuted[i];
  }

  /** A permutation keeps two exceptions with one key apart. */
  lemma UniqueKeysPermuted(env: Env, exceptions: seq<Record>, permuted: seq<Record>)
    requires multiset(exceptions) == multiset(permuted)
    requires UniqueKeys(env, exceptions)
    ensures UniqueKeys(env, permuted)
  {
    forall i, j | 0 <= i < j < |permuted| ensures ExceptionKey(env, permuted[i]) != ExceptionKey(env, permuted[j]) {
      if permuted[i] == permuted[j] {
        var k, l := TwiceKept(exceptions, permuted, i, j);
      } else {
        var k := PlaceKept(exceptions, permuted, i);
        var l := PlaceKept(exceptions, permuted, j);
      }
    }
  }

  /** The order of the exceptions does not matter to the verdict. */
  lemma PolicyIgnoresOrder(env: Env, exceptions: seq<Record>, permuted: seq<Record>, findings: seq<Finding>)
    requires multiset(exceptions) == multiset(permuted)
    ensures Policy(env, exceptions, findings) <==> Policy(env, permuted, findings)
  {
    if Policy(env, exceptions, findings) {
      PolicyPermuted(env, exceptions, permuted, findings);
    }
    if Policy(env, permuted, findings) {
      PolicyPermuted(env, permuted, exceptions, findings);
    }
  }

  lemma PolicyPermuted(env: Env, exceptions: seq<Record>, permuted: seq<Record>, findings: seq<Finding>)
    requires multiset(exceptions) == multiset(permuted)
    requires Policy(env, exceptions, findings)
    ensures Policy(env, permuted, findings)
  {
    UniqueKeysPermuted(env, exceptions, permuted);
    forall e | e in permuted ensures e in exceptions && Acceptable(env, e) {
      assert e in multiset(exceptions);
    }
    forall i | 0 <= i < |findings| && First(env, findings, i) ensures Covered(env, permuted, findings[i]) {
      var e :| e in exceptions && Covers(env, e, findings[i]);
      assert e in multiset(permuted);
    }
  }
}
