/** The migration lint: reading git's report of a branch, the errors it calls for, and what a merge that
    passes may do to the migrations. */
module MigrationLint {
  import opened Wrappers
  import opened Text
  import opened MigrationNames

  // ---------------------------------------------------------------- reading the report

  /** The characters at which `str.splitlines` breaks a text. */
  predicate IsBreak(c: char) {
    var n := c as int;
    0x0A <= n <= 0x0D || 0x1C <= n <= 0x1E || n == 0x85 || n == 0x2028 || n == 0x2029
  }

  function LineLength(text: string): (n: nat)
    ensures n <= |text|
  {
    if text == "" || IsBreak(text[0]) then 0 else 1 + LineLength(text[1..])
  }

  function SplitLines(text: string): seq<string>
    decreases |text|
  {
    if text == "" then [] else
      var n := LineLength(text);
      if n == |text| then [text]
      else if text[n] == '\r' && n + 1 < |text| && text[n + 1] == '\n' then [text[..n]] + SplitLines(text[n + 2..])
      else [text[..n]] + SplitLines(text[n + 1..])
  }

  /** The paths added, modified and deleted. */
  datatype Diff = Diff(added: set<string>, modified: set<string>, deleted: set<string>)

  function ReadLine(diff: Diff, line: string): Diff {
    if Strip(line) == "" then diff else ReadParts(diff, Split(line, '\t'))
  }

  function ReadParts(diff: Diff, parts: seq<string>): Diff
    requires parts != []
  {
    var status := parts[0];
    if StartsWith(status, "A") && |parts| >= 2 then diff.(added := diff.added + {parts[1]})
    else if StartsWith(status, "M") && |parts| >= 2 then diff.(modified := diff.modified + {parts[1]})
    else if StartsWith(status, "D") && |parts| >= 2 then diff.(deleted := diff.deleted + {parts[1]})
    else if StartsWith(status, "R") && |parts| >= 3 then
      diff.(deleted := diff.deleted + {parts[1]}, added := diff.added + {parts[2]})
    else diff
  }

  function ReadLines(diff: Diff, lines: seq<string>): Diff
    decreases lines
  {
    if lines == [] then diff else ReadLines(ReadLine(diff, lines[0]), lines[1..])
  }

  function ReadReport(text: string): Diff {
    ReadLines(Diff({}, {}, {}), SplitLines(text))
  }

  /** Whether the branch's own report is used: when git gives one and it is not blank. */
  predicate UsesFirst(first: Option<string>) {
    first.Some? && Strip(first.value) != ""
  }

  /** The outputs of the two git runs, None for a failed one; the second is the fallback. */
  method GitDiffNames(first: Option<string>, second: Option<string>) returns (diff: Option<Diff>)
    ensures diff == DiffOf(first, second)
  {
    var proc := first;
    if proc.None? || Strip(proc.value) == "" {
      proc := second;
    }
    if proc.None? {
      return None;
    }
    var lines := SplitLines(proc.value);
    var added: set<string>, modified: set<string>, deleted: set<string> := {}, {}, {};
    for i := 0 to |lines|
      invariant ReadReport(proc.value) == ReadLines(Diff(added, modified, deleted), lines[i..])
    {
      var line := lines[i];
      assert lines[i..][1..] == lines[i + 1..];
      if Strip(line) == "" {
        continue;
      }
      var parts := Split(line, '\t');
      var status := parts[0];
      if StartsWith(status, "A") && |parts| >= 2 {
        added := added + {parts[1]};
      } else if StartsWith(status, "M") && |parts| >= 2 {
        modified := modified + {parts[1]};
      } else if StartsWith(status, "D") && |parts| >= 2 {
        deleted := deleted + {parts[1]};
      } else if StartsWith(status, "R") && |parts| >= 3 {
        deleted := deleted + {parts[1]};
        added := added + {parts[2]};
      }
    }
    diff := Some(Diff(added, modified, deleted));
  }

  function DiffOf(first: Option<string>, second: Option<string>): Option<Diff> {
    var proc := if UsesFirst(first) then first else second;
    if proc.None? then None else Some(ReadReport(proc.value))
  }

  // ---------------------------------------------------------------- paths in order

  predicate PathLe(a: string, b: string) {
    a == "" || (b != "" && (a[0] < b[0] || (a[0] == b[0] && PathLe(a[1..], b[1..]))))
  }

  lemma {:induction false} PathLeTotal(a: string, b: string)
    ensures PathLe(a, b) || PathLe(b, a)
    ensures PathLe(a, b) && PathLe(b, a) ==> a == b
  {
    if a != "" && b != "" {
      PathLeTotal(a[1..], b[1..]);
      assert a == [a[0]] + a[1..] && b == [b[0]] + b[1..];
    }
  }

  lemma {:induction false} PathLeTransitive(a: string, b: string, c: string)
    requires PathLe(a, b) && PathLe(b, c)
    ensures PathLe(a, c)
  {
    if a != "" && a[0] == b[0] == c[0] {
      PathLeTransitive(a[1..], b[1..], c[1..]);
    }
  }

  predicate IsFirst(paths: set<string>, p: string) {
    p in paths && forall q | q in paths :: PathLe(p, q)
  }

  lemma {:induction false} FirstExists(paths: set<string>) returns (p: string)
    requires paths != {}
    ensures IsFirst(paths, p)
  {
    var q :| q in paths;
    PathLeTotal(q, q);
    if paths == {q} {
      p := q;
    } else {
      assert paths - {q} != {};
      p := FirstExists(paths - {q});
      PathLeTotal(p, q);
      if PathLe(q, p) {
        forall x | x in paths ensures PathLe(q, x) {
          if x != q {
            PathLeTransitive(q, p, x);
          }
        }
        p := q;
      }
    }
  }

  function Sorted(paths: set<string>): seq<string> {
    if paths == {} then [] else
      var p := First(paths);
      [p] + Sorted(paths - {p})
  }

  function First(paths: set<string>): (p: string)
    requires paths != {}
    ensures IsFirst(paths, p)
  {
    assert exists p :: IsFirst(paths, p) by {
      var p := FirstExists(paths);
    }
    assert forall p, q :: IsFirst(paths, p) && IsFirst(paths, q) ==> p == q by {
      forall p, q | IsFirst(paths, p) && IsFirst(paths, q) ensures p == q {
        PathLeTotal(p, q);
      }
    }
    var p :| p in paths && IsFirst(paths, p);
    p
  }

  /** Every path once, in order. */
  lemma {:induction false} SortedInOrder(paths: set<string>)
    ensures forall p :: p in Sorted(paths) <==> p in paths
    ensures forall i, j :: 0 <= i < j < |Sorted(paths)| ==>
      PathLe(Sorted(paths)[i], Sorted(paths)[j]) && Sorted(paths)[i] != Sorted(paths)[j]
  {
    if paths != {} {
      var p := First(paths);
      var rest := Sorted(paths - {p});
      SortedInOrder(paths - {p});
      assert Sorted(paths) == [p] + rest;
      forall j | 0 <= j < |rest| ensures PathLe(p, rest[j]) && p != rest[j] {
        assert rest[j] in rest;
      }
    }
  }

  // ---------------------------------------------------------------- the errors

  datatype Complaint = DeletesBoxai | ChangesExisting | BadName | ReservedPrefix | NotUpstream

  datatype Error = Error(path: string, complaint: Complaint)

  function LastPart(parts: seq<string>): string {
    if parts == [] then ""
    else if parts[|parts| - 1] != "" && parts[|parts| - 1] != "." then parts[|parts| - 1]
    else LastPart(parts[..|parts| - 1])
  }

  /** The last component of a path. */
  function Name(path: string): string {
    LastPart(Split(path, '/'))
  }

  /** The name of a path is what follows its last slash. */
  lemma NameOfPath(dir: string, name: string)
    requires '/' !in name && name != "" && name != "."
    ensures Name(dir + ['/'] + name) == name && Name(name) == name
  {
    SplitLast(dir, '/', name);
    SplitWhole(name, '/');
  }

  /** A BoxAI migration with a valid name. */
  predicate ValidBoxai(u: Unicode, path: string) {
    MentionsBoxai(u, Name(path)) && Accepts(u, Name(path))
  }

  /** What a new migration may be called: a valid BoxAI name, or one without BoxAI and without a numeric
      prefix. */
  predicate ValidNew(u: Unicode, path: string) {
    if MentionsBoxai(u, Name(path)) then Accepts(u, Name(path)) else Prefix(u, Name(path)).None?
  }

  function ChangeErrors(u: Unicode, deleted: set<string>, path: string): seq<Error> {
    if ValidBoxai(u, path) then if path in deleted then [Error(path, DeletesBoxai)] else []
    else [Error(path, ChangesExisting)]
  }

  function AddErrors(u: Unicode, path: string): seq<Error> {
    if MentionsBoxai(u, Name(path)) then if Accepts(u, Name(path)) then [] else [Error(path, BadName)]
    else
      var m := Prefix(u, Name(path));
      (if m.Some? && m.value >= 900 then [Error(path, ReservedPrefix)] else [])
      + (if m.Some? && m.value < 900 then [Error(path, NotUpstream)] else [])
  }

  function Flatten(errorsOf: string -> seq<Error>, paths: seq<string>): seq<Error> {
    if paths == [] then [] else Flatten(errorsOf, paths[..|paths| - 1]) + errorsOf(paths[|paths| - 1])
  }

  function OnChange(u: Unicode, deleted: set<string>): string -> seq<Error> {
    path => ChangeErrors(u, deleted, path)
  }

  function OnAdd(u: Unicode): string -> seq<Error> {
    path => AddErrors(u, path)
  }

  lemma FlattenNext(errorsOf: string -> seq<Error>, paths: seq<string>, i: nat)
    requires i < |paths|
    ensures Flatten(errorsOf, paths[..i + 1]) == Flatten(errorsOf, paths[..i]) + errorsOf(paths[i])
  {
    assert paths[..i + 1][..i] == paths[..i];
  }

  function Errors(u: Unicode, diff: Diff): seq<Error> {
    Flatten(OnChange(u, diff.deleted), Sorted(diff.modified + diff.deleted))
    + Flatten(OnAdd(u), Sorted(diff.added))
  }

  /** The first loop: what the branch changes or deletes. */
  method CheckChanged(u: Unicode, deleted: set<string>, paths: seq<string>) returns (errors: seq<Error>)
    ensures errors == Flatten(OnChange(u, deleted), paths)
  {
    errors := [];
    for i := 0 to |paths|
      invariant errors == Flatten(OnChange(u, deleted), paths[..i])
    {
      var path := paths[i];
      FlattenNext(OnChange(u, deleted), paths, i);
      var name := Name(path);
      if MentionsBoxai(u, name) && Accepts(u, name) {
        if path in deleted {
          errors := errors + [Error(path, DeletesBoxai)];
        }
        continue;
      }
      errors := errors + [Error(path, ChangesExisting)];
    }
    assert paths[..|paths|] == paths;
  }

  /** The second loop: what the branch adds. */
  method CheckAdded(u: Unicode, paths: seq<string>) returns (errors: seq<Error>)
    ensures errors == Flatten(OnAdd(u), paths)
  {
    errors := [];
    for i := 0 to |paths|
      invariant errors == Flatten(OnAdd(u), paths[..i])
    {
      var path := paths[i];
      FlattenNext(OnAdd(u), paths, i);
      var name := Name(path);
      if MentionsBoxai(u, name) {
        if !Accepts(u, name) {
          errors := errors + [Error(path, BadName)];
        }
        continue;
      }
      var m := Prefix(u, name);
      if m.Some? && m.value >= 900 {
        errors := errors + [Error(path, ReservedPrefix)];
      }
      if m.Some? && m.value < 900 {
        errors := errors + [Error(path, NotUpstream)];
      }
    }
    assert paths[..|paths|] == paths;
  }

  method CheckAgainstBase(u: Unicode, diff: Diff) returns (errors: seq<Error>)
    ensures errors == Errors(u, diff)
  {
    var changes := CheckChanged(u, diff.deleted, Sorted(diff.modified + diff.deleted));
    var additions := CheckAdded(u, Sorted(diff.added));
    errors := changes + additions;
  }

  /** What the names in the directory must satisfy. */
  ghost predicate NamesValid(u: Unicode, names: seq<string>) {
    forall i :: 0 <= i < |names| && MentionsBoxai(u, names[i]) ==> Accepts(u, names[i])
  }

  function BadNames(u: Unicode, names: seq<string>): seq<Error> {
    if names == [] then [] else
      var front, last := BadNames(u, names[..|names| - 1]), names[|names| - 1];
      if MentionsBoxai(u, last) && !Accepts(u, last) then front + [Error(last, BadName)] else front
  }

  lemma {:induction false} BadNamesFound(u: Unicode, names: seq<string>)
    ensures BadNames(u, names) == [] <==> NamesValid(u, names)
  {
    if names != [] {
      BadNamesFound(u, names[..|names| - 1]);
    }
  }

  lemma {:induction false} BadNamesMembers(u: Unicode, names: seq<string>, e: Error)
    ensures e in BadNames(u, names) <==>
      e.complaint == BadName && e.path in names && MentionsBoxai(u, e.path) && !Accepts(u, e.path)
  {
    if names != [] {
      var front, last := names[..|names| - 1], names[|names| - 1];
      assert names == front + [last];
      BadNamesMembers(u, front, e);
    }
  }

  /** The files whose names mention BoxAI without being valid. */
  method CheckBoxaiNames(u: Unicode, names: seq<string>) returns (errors: seq<Error>)
    ensures errors == BadNames(u, names)
    ensures errors == [] <==> NamesValid(u, names)
  {
    errors := [];
    for i := 0 to |names|
      invariant errors == BadNames(u, names[..i])
    {
      var name := names[i];
      assert names[..i + 1][..i] == names[..i];
      if MentionsBoxai(u, name) {
        if !Accepts(u, name) {
          errors := errors + [Error(name, BadName)];
        }
      }
    }
    assert names[..|names|] == names;
    BadNamesFound(u, names);
  }

  // ---------------------------------------------------------------- what the errors say

  function Count(errors: seq<Error>, path: string): nat {
    if errors == [] then 0 else Count(errors[..|errors| - 1], path) + if errors[|errors| - 1].path == path then 1 else 0
  }

  lemma {:induction false} CountAppend(errors: seq<Error>, more: seq<Error>, path: string)
    ensures Count(errors + more, path) == Count(errors, path) + Count(more, path)
  {
    if more == [] {
      assert errors + more == errors;
    } else {
      assert (errors + more)[..|errors + more| - 1] == errors + more[..|more| - 1];
      CountAppend(errors, more[..|more| - 1], path);
    }
  }

  lemma {:induction false} CountZero(errors: seq<Error>)
    ensures errors == [] <==> forall path :: Count(errors, path) == 0
  {
    if errors != [] {
      assert Count(errors, errors[|errors| - 1].path) > 0;
    }
  }

  ghost predicate OwnErrors(errorsOf: string -> seq<Error>) {
    forall p :: |errorsOf(p)| <= 1 && (errorsOf(p) != [] ==> errorsOf(p)[0].path == p)
  }

  lemma {:induction false} FlattenFirst(errorsOf: string -> seq<Error>, p: string, rest: seq<string>)
    ensures Flatten(errorsOf, [p] + rest) == errorsOf(p) + Flatten(errorsOf, rest)
  {
    if rest == [] {
      assert ([p] + rest)[..0] == [];
    } else {
      var front := rest[..|rest| - 1];
      FlattenFirst(errorsOf, p, front);
      assert ([p] + rest)[..|[p] + rest| - 1] == [p] + front;
      assert errorsOf(p) + (Flatten(errorsOf, front) + errorsOf(rest[|rest| - 1]))
          == (errorsOf(p) + Flatten(errorsOf, front)) + errorsOf(rest[|rest| - 1]);
    }
  }

  lemma {:induction false} CountSorted(errorsOf: string -> seq<Error>, paths: set<string>, path: string)
    requires OwnErrors(errorsOf)
    ensures Count(Flatten(errorsOf, Sorted(paths)), path) == if path in paths then |errorsOf(path)| else 0
  {
    if paths != {} {
      var p := First(paths);
      var rest := Sorted(paths - {p});
      CountSorted(errorsOf, paths - {p}, path);
      FlattenFirst(errorsOf, p, rest);
      CountAppend(errorsOf(p), Flatten(errorsOf, rest), path);
      assert errorsOf(p) != [] ==> errorsOf(p)[..0] == [];
    }
  }

  lemma {:induction false} FlattenMembers(errorsOf: string -> seq<Error>, paths: seq<string>, e: Error)
    ensures e in Flatten(errorsOf, paths) <==> exists p :: p in paths && e in errorsOf(p)
  {
    if paths != [] {
      var front, last := paths[..|paths| - 1], paths[|paths| - 1];
      assert paths == front + [last];
      FlattenMembers(errorsOf, front, e);
    }
  }

  /** When an error is called for. */
  predicate CalledFor(u: Unicode, diff: Diff, e: Error) {
    match e.complaint
    case DeletesBoxai => e.path in diff.deleted && ValidBoxai(u, e.path)
    case ChangesExisting => e.path in diff.modified + diff.deleted && !ValidBoxai(u, e.path)
    case BadName => e.path in diff.added && MentionsBoxai(u, Name(e.path)) && !Accepts(u, Name(e.path))
    case ReservedPrefix =>
      e.path in diff.added && !MentionsBoxai(u, Name(e.path)) && Prefix(u, Name(e.path)).Some? && Prefix(u, Name(e.path)).value >= 900
    case NotUpstream =>
      e.path in diff.added && !MentionsBoxai(u, Name(e.path)) && Prefix(u, Name(e.path)).Some? && Prefix(u, Name(e.path)).value < 900
  }

  /** The errors are those that are called for. */
  lemma ErrorsAreCalledFor(u: Unicode, diff: Diff, e: Error)
    ensures e in Errors(u, diff) <==> CalledFor(u, diff, e)
  {
    var changed, changes, adds := diff.modified + diff.deleted, OnChange(u, diff.deleted), OnAdd(u);
    FlattenMembers(changes, Sorted(changed), e);
    FlattenMembers(adds, Sorted(diff.added), e);
    SortedInOrder(changed);
    SortedInOrder(diff.added);
    ChangeCalledFor(u, diff, e);
    AddCalledFor(u, diff, e);
  }

  lemma ChangeCalledFor(u: Unicode, diff: Diff, e: Error)
    ensures (exists p :: p in diff.modified + diff.deleted && e in OnChange(u, diff.deleted)(p)) <==>
      (e.complaint.DeletesBoxai? || e.complaint.ChangesExisting?) && CalledFor(u, diff, e)
  {
    if (e.complaint.DeletesBoxai? || e.complaint.ChangesExisting?) && CalledFor(u, diff, e) {
      assert e.path in diff.modified + diff.deleted && e == Error(e.path, e.complaint);
      assert e in OnChange(u, diff.deleted)(e.path);
    }
  }

  lemma AddCalledFor(u: Unicode, diff: Diff, e: Error)
    ensures (exists p :: p in diff.added && e in OnAdd(u)(p)) <==>
      !e.complaint.DeletesBoxai? && !e.complaint.ChangesExisting? && CalledFor(u, diff, e)
  {
    if !e.complaint.DeletesBoxai? && !e.complaint.ChangesExisting? && CalledFor(u, diff, e) {
      assert e == Error(e.path, e.complaint);
      assert e in OnAdd(u)(e.path);
    }
  }

  predicate BadChange(u: Unicode, diff: Diff, path: string) {
    path in diff.deleted || (path in diff.modified && !ValidBoxai(u, path))
  }

  predicate BadAddition(u: Unicode, diff: Diff, path: string) {
    path in diff.added && !ValidNew(u, path)
  }

  lemma OwnChangeErrors(u: Unicode, deleted: set<string>)
    ensures OwnErrors(OnChange(u, deleted))
  {
  }

  lemma OwnAddErrors(u: Unicode)
    ensures OwnErrors(OnAdd(u))
  {
  }

  lemma ChangeCount(u: Unicode, diff: Diff, path: string)
    requires path in diff.modified + diff.deleted
    ensures |OnChange(u, diff.deleted)(path)| == if BadChange(u, diff, path) then 1 else 0
  {
  }

  lemma AddCount(u: Unicode, path: string)
    ensures |OnAdd(u)(path)| == if ValidNew(u, path) then 0 else 1
  {
  }

  /** Each offence is reported exactly once: a deletion or a change of what is not a valid BoxAI
      migration, and an addition under an invalid name. */
  lemma ErrorsCounted(u: Unicode, diff: Diff, path: string)
    ensures Count(Errors(u, diff), path) ==
      (if BadChange(u, diff, path) then 1 else 0) + (if BadAddition(u, diff, path) then 1 else 0)
  {
    var changed, changes, adds := diff.modified + diff.deleted, OnChange(u, diff.deleted), OnAdd(u);
    OwnChangeErrors(u, diff.deleted);
    OwnAddErrors(u);
    CountSorted(changes, changed, path);
    CountSorted(adds, diff.added, path);
    if path in changed {
      ChangeCount(u, diff, path);
    }
    AddCount(u, path);
    CountAppend(Flatten(changes, Sorted(changed)), Flatten(adds, Sorted(diff.added)), path);
  }

  /** A branch is accepted. */
  ghost predicate Allowed(u: Unicode, diff: Diff) {
    forall path :: !BadChange(u, diff, path) && !BadAddition(u, diff, path)
  }

  lemma AcceptedIffAllowed(u: Unicode, diff: Diff)
    ensures Errors(u, diff) == [] <==> Allowed(u, diff)
  {
    CountZero(Errors(u, diff));
    forall path ensures Count(Errors(u, diff), path) == 0 <==> !BadChange(u, diff, path) && !BadAddition(u, diff, path) {
      ErrorsCounted(u, diff, path);
    }
  }

  /** An added migration with a numeric prefix that does not mention BoxAI gives exactly one error. */
  lemma NumericPrefixIsOneError(u: Unicode, diff: Diff, path: string)
    requires path in diff.added && path !in diff.modified + diff.deleted
    requires !MentionsBoxai(u, Name(path)) && Prefix(u, Name(path)).Some?
    ensures Count(Errors(u, diff), path) == 1
  {
    ErrorsCounted(u, diff, path);
  }

  /** The outputs of git when a base is set. */
  datatype Runs = Runs(first: Option<string>, second: Option<string>)

  /** The exit code of the lint, None when git fails: 0 exactly when the names in the directory are valid
      and, if there is a base, the branch is allowed. */
  method Lint(u: Unicode, names: seq<string>, base: Option<Runs>) returns (code: Option<int>)
    ensures code.None? <==> base.Some? && DiffOf(base.value.first, base.value.second).None?
    ensures code.Some? ==> code.value == 0 || code.value == 1
    ensures code == Some(0) <==>
      && NamesValid(u, names)
      && (base.Some? ==>
            var diff := DiffOf(base.value.first, base.value.second);
            diff.Some? && Allowed(u, diff.value))
  {
    var errors := CheckBoxaiNames(u, names);
    if base.Some? {
      var diff := GitDiffNames(base.value.first, base.value.second);
      if diff.None? {
        return None;
      }
      var more := CheckAgainstBase(u, diff.value);
      AcceptedIffAllowed(u, diff.value);
      errors := errors + more;
    }
    code := Some(if errors == [] then 0 else 1);
  }
}
