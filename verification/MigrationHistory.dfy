/** The history of the migrations: what a sequence of merges whose branches all pass the lint may do. */
module MigrationHistory {
  import opened Wrappers
  import opened Text
  import opened MigrationNames
  import opened MigrationLint

  // ---------------------------------------------------------------- git's report of a branch

  datatype Kind = Regular | Symlink

  datatype File = File(kind: Kind, content: string)

  /** The migrations of a commit. */
  type Tree = map<string, File>

  datatype Change =
    | Added(path: string) | Modified(path: string) | Deleted(path: string)
    | Renamed(score: string, from: string, to: string) | Retyped(path: string)

  ghost predicate Adds(changes: seq<Change>, path: string) {
    Added(path) in changes || exists c :: c in changes && c.Renamed? && c.to == path
  }

  ghost predicate Deletes(changes: seq<Change>, path: string) {
    Deleted(path) in changes || exists c :: c in changes && c.Renamed? && c.from == path
  }

  /** The report of the changes from one tree to another: however renames are paired, it mentions
      exactly the paths that differ. */
  ghost predicate Describes(changes: seq<Change>, before: Tree, after: Tree) {
    forall p ::
      && (Adds(changes, p) <==> p !in before && p in after)
      && (Deletes(changes, p) <==> p in before && p !in after)
      && (Modified(p) in changes <==> p in before && p in after && before[p] != after[p] && before[p].kind == after[p].kind)
      && (Retyped(p) in changes <==> p in before && p in after && before[p].kind != after[p].kind)
  }

  /** A change as git prints it: a status letter and the paths, separated by tabs. */
  function Fields(c: Change): seq<string> {
    match c
    case Added(path) => ["A", path]
    case Modified(path) => ["M", path]
    case Deleted(path) => ["D", path]
    case Renamed(score, from, to) => ["R" + score, from, to]
    case Retyped(path) => ["T", path]
  }

  function Tabbed(fields: seq<string>): string
    requires fields != []
  {
    if |fields| == 1 then fields[0] else fields[0] + ['\t'] + Tabbed(fields[1..])
  }

  function PrintChange(c: Change): string {
    Tabbed(Fields(c))
  }

  function Report(changes: seq<Change>): string {
    if changes == [] then "" else PrintChange(changes[0]) + ['\n'] + Report(changes[1..])
  }

  /** Text git prints as it is, every other path being quoted and escaped. */
  predicate Plain(s: string) {
    forall i :: 0 <= i < |s| ==> ' ' <= s[i] <= '~' && s[i] != '"' && s[i] != '\\'
  }

  predicate PlainChange(c: Change) {
    match c
    case Renamed(score, from, to) => Plain(score) && Plain(from) && Plain(to)
    case _ => Plain(c.path)
  }

  predicate PlainChanges(changes: seq<Change>) {
    forall i :: 0 <= i < |changes| ==> PlainChange(changes[i])
  }

  // ---------------------------------------------------------------- reading it back

  function Note(diff: Diff, c: Change): Diff {
    match c
    case Added(path) => diff.(added := diff.added + {path})
    case Modified(path) => diff.(modified := diff.modified + {path})
    case Deleted(path) => diff.(deleted := diff.deleted + {path})
    case Renamed(_, from, to) => diff.(deleted := diff.deleted + {from}, added := diff.added + {to})
    case Retyped(_) => diff
  }

  function NoteAll(changes: seq<Change>): Diff {
    if changes == [] then Diff({}, {}, {}) else Note(NoteAll(changes[..|changes| - 1]), changes[|changes| - 1])
  }

  lemma {:induction false} StripRightKeeps(s: string)
    requires s != "" && !IsSpace(s[0])
    ensures StripRight(s) != ""
  {
    if IsSpace(s[|s| - 1]) {
      StripRightKeeps(s[..|s| - 1]);
    }
  }

  lemma NotBlank(s: string)
    requires s != "" && !IsSpace(s[0])
    ensures Strip(s) != ""
  {
    StripRightKeeps(s);
  }

  predicate PlainFields(fields: seq<string>) {
    forall i :: 0 <= i < |fields| ==> Plain(fields[i])
  }

  lemma {:induction false} SplitTabbed(fields: seq<string>)
    requires fields != [] && PlainFields(fields)
    ensures Split(Tabbed(fields), '\t') == fields
  {
    if |fields| == 1 {
      SplitWhole(fields[0], '\t');
    } else {
      SplitTabbed(fields[1..]);
      SplitFirst(fields[0], '\t', Tabbed(fields[1..]));
    }
  }

  lemma {:induction false} TabbedIsOneLine(fields: seq<string>)
    requires fields != [] && PlainFields(fields)
    ensures forall i :: 0 <= i < |Tabbed(fields)| ==> !IsBreak(Tabbed(fields)[i])
  {
    if |fields| > 1 {
      TabbedIsOneLine(fields[1..]);
    }
  }

  lemma PrintedNotBlank(c: Change, rest: string)
    ensures Strip(PrintChange(c) + rest) != ""
  {
    var line := PrintChange(c);
    assert line != "" && line[0] == Fields(c)[0][0];
    assert (line + rest)[0] == line[0];
    NotBlank(line + rest);
  }

  lemma PlainFieldsOf(c: Change)
    requires PlainChange(c)
    ensures PlainFields(Fields(c))
  {
  }

  lemma StartsWithLetter(status: string, letter: char)
    requires status != ""
    ensures StartsWith(status, [letter]) <==> status[0] == letter
  {
    assert status[..1] == [status[0]];
  }

  lemma ReadFields(diff: Diff, c: Change)
    ensures ReadParts(diff, Fields(c)) == Note(diff, c)
  {
    var status := Fields(c)[0];
    StartsWithLetter(status, 'A');
    StartsWithLetter(status, 'M');
    StartsWithLetter(status, 'D');
    StartsWithLetter(status, 'R');
  }

  lemma ReadChange(diff: Diff, c: Change)
    requires PlainChange(c)
    ensures ReadLine(diff, PrintChange(c)) == Note(diff, c)
  {
    PlainFieldsOf(c);
    SplitTabbed(Fields(c));
    PrintedNotBlank(c, "");
    assert PrintChange(c) + "" == PrintChange(c);
    ReadFields(diff, c);
  }

  lemma {:induction false} LineLengthPlain(line: string, rest: string)
    requires forall i :: 0 <= i < |line| ==> !IsBreak(line[i])
    ensures LineLength(line + ['\n'] + rest) == |line|
  {
    if line == "" {
      assert line + ['\n'] + rest == ['\n'] + rest;
    } else {
      assert (line + ['\n'] + rest)[1..] == line[1..] + ['\n'] + rest;
      LineLengthPlain(line[1..], rest);
    }
  }

  lemma SplitLinesPlain(line: string, rest: string)
    requires forall i :: 0 <= i < |line| ==> !IsBreak(line[i])
    ensures SplitLines(line + ['\n'] + rest) == [line] + SplitLines(rest)
  {
    var text := line + ['\n'] + rest;
    LineLengthPlain(line, rest);
    assert text[..|line|] == line && text[|line| + 1..] == rest && text[|line|] == '\n';
  }

  lemma ReadOne(diff: Diff, c: Change, rest: string)
    requires PlainChange(c)
    ensures ReadLines(diff, SplitLines(PrintChange(c) + ['\n'] + rest)) == ReadLines(Note(diff, c), SplitLines(rest))
  {
    PlainFieldsOf(c);
    TabbedIsOneLine(Fields(c));
    SplitLinesPlain(PrintChange(c), rest);
    ReadChange(diff, c);
  }

  lemma NoteNext(done: seq<Change>, c: Change)
    ensures NoteAll(done + [c]) == Note(NoteAll(done), c)
  {
    assert (done + [c])[..|done|] == done;
  }

  lemma Regroup(done: seq<Change>, todo: seq<Change>)
    requires todo != []
    ensures (done + [todo[0]]) + todo[1..] == done + todo
  {
  }

  lemma NothingRead(diff: Diff)
    ensures ReadLines(diff, SplitLines("")) == diff
  {
  }

  lemma {:induction false} ReadLinesNote(done: seq<Change>, todo: seq<Change>)
    requires PlainChanges(todo)
    ensures ReadLines(NoteAll(done), SplitLines(Report(todo))) == NoteAll(done + todo)
    decreases |todo|
  {
    if todo == [] {
      assert done + todo == done;
      NothingRead(NoteAll(done));
    } else {
      var next := done + [todo[0]];
      ReadOne(NoteAll(done), todo[0], Report(todo[1..]));
      NoteNext(done, todo[0]);
      ReadLinesNote(next, todo[1..]);
      Regroup(done, todo);
    }
  }

  lemma {:induction false} NoteAllMembers(changes: seq<Change>, path: string)
    ensures path in NoteAll(changes).added <==> Adds(changes, path)
    ensures path in NoteAll(changes).deleted <==> Deletes(changes, path)
    ensures path in NoteAll(changes).modified <==> Modified(path) in changes
  {
    if changes != [] {
      var front, last := changes[..|changes| - 1], changes[|changes| - 1];
      assert changes == front + [last];
      NoteAllMembers(front, path);
      assert Adds(changes, path) <==> Adds(front, path) || last == Added(path) || (last.Renamed? && last.to == path);
      assert Deletes(changes, path) <==> Deletes(front, path) || last == Deleted(path) || (last.Renamed? && last.from == path);
    }
  }

  /** Reading a printed report gives exactly the paths added, modified and deleted, a rename counting as
      both; a change of type is not seen. */
  lemma ReportReadBack(changes: seq<Change>, path: string)
    requires PlainChanges(changes)
    ensures path in ReadReport(Report(changes)).added <==> Adds(changes, path)
    ensures path in ReadReport(Report(changes)).deleted <==> Deletes(changes, path)
    ensures path in ReadReport(Report(changes)).modified <==> Modified(path) in changes
  {
    ReadLinesNote([], changes);
    assert [] + changes == changes;
    NoteAllMembers(changes, path);
  }

  /** The branch's own report decides if it says anything; the fallback decides if not; and without either
      there is no answer. */
  lemma ReportChosen(changes: seq<Change>, fallback: seq<Change>, second: Option<string>)
    requires changes != []
    ensures DiffOf(Some(Report(changes)), second) == Some(ReadReport(Report(changes)))
    ensures DiffOf(Some(Report([])), Some(Report(fallback))) == Some(ReadReport(Report(fallback)))
    ensures DiffOf(None, Some(Report(fallback))) == Some(ReadReport(Report(fallback)))
    ensures DiffOf(Some(Report([])), None) == DiffOf(None, None) == None
  {
    ReportNotBlank(changes);
  }

  // ---------------------------------------------------------------- one merge

  function At(tree: Tree, path: string): Option<File> {
    if path in tree then Some(tree[path]) else None
  }

  /** A merge of a branch: the commit it started from, the tip it is merged into, its head, and the
      result. */
  datatype Merge = Merge(base: Tree, main: Tree, head: Tree, after: Tree)

  /** A merge without conflicts: each side's changes are taken. */
  ghost predicate Clean(m: Merge) {
    forall p ::
      && (At(m.head, p) == At(m.base, p) || At(m.main, p) == At(m.base, p) || At(m.head, p) == At(m.main, p))
      && At(m.after, p) == if At(m.head, p) == At(m.base, p) then At(m.main, p) else At(m.head, p)
  }

  /** An output of git, None when the run failed, is a report of what changed from one tree to another. */
  ghost predicate Prints(output: Option<string>, before: Tree, after: Tree) {
    output.Some? ==> exists changes :: Printed(output.value, changes, before, after)
  }

  ghost predicate Printed(output: string, changes: seq<Change>, before: Tree, after: Tree) {
    PlainChanges(changes) && Describes(changes, before, after) && output == Report(changes)
  }

  /** A clean merge whose branch passes the lint: git reports the branch against its base, or, as a
      fallback, against the tip. */
  ghost predicate Passes(u: Unicode, m: Merge, first: Option<string>, second: Option<string>) {
    && Clean(m)
    && Prints(first, m.base, m.head) && Prints(second, m.main, m.head)
    && DiffOf(first, second).Some?
    && Errors(u, DiffOf(first, second).value) == []
  }

  ghost predicate Accepted(u: Unicode, m: Merge) {
    exists first, second :: Passes(u, m, first, second)
  }

  /** A path is neither deleted, nor changed unless a valid BoxAI migration or by a change of type, nor
      added under an invalid name. */
  ghost predicate Safe(u: Unicode, before: Tree, after: Tree, path: string) {
    && (path in before ==> path in after)
    && (path in before && before[path] != after[path] ==> ValidBoxai(u, path) || before[path].kind != after[path].kind)
    && (path in after && path !in before ==> ValidNew(u, path))
  }

  /** What an accepted report says of the trees it compares. */
  lemma AcceptedReport(u: Unicode, output: string, before: Tree, after: Tree, path: string)
    requires Prints(Some(output), before, after) && Errors(u, ReadReport(output)) == []
    ensures Safe(u, before, after, path)
  {
    var changes :| Printed(output, changes, before, after);
    var diff := ReadReport(output);
    ReportReadBack(changes, path);
    AcceptedIffAllowed(u, diff);
    assert !BadChange(u, diff, path) && !BadAddition(u, diff, path);
  }

  lemma ReportNotBlank(changes: seq<Change>)
    requires changes != []
    ensures Strip(Report(changes)) != ""
  {
    var rest := ['\n'] + Report(changes[1..]);
    PrintedNotBlank(changes[0], rest);
    assert Report(changes) == PrintChange(changes[0]) + rest;
  }

  /** The branch replaces a file by one of another type, and the tip does not have it yet. */
  ghost predicate Retypes(m: Merge, path: string) {
    && path in m.base && path in m.head && m.base[path].kind != m.head[path].kind
    && At(m.main, path) != At(m.head, path)
  }

  /** In a clean merge, a report against the base or against the tip bounds what happens to the tip. */
  lemma SafeToMerge(u: Unicode, m: Merge, before: Tree, path: string)
    requires Clean(m) && (before == m.base || before == m.main) && Safe(u, before, m.head, path)
    ensures path in m.main ==> path in m.after
    ensures path in m.main && m.after[path] != m.main[path] ==> ValidBoxai(u, path) || Retypes(m, path)
    ensures path in m.after && path !in m.main ==> ValidNew(u, path)
  {
    var base, main, head, after := At(m.base, path), At(m.main, path), At(m.head, path), At(m.after, path);
    assert after == (if head == base then main else head) && (head == base || main == base || head == main);
  }

  /** An accepted merge deletes nothing, changes only valid BoxAI migrations, except by a change of type,
      and adds only what may be added. */
  lemma MergeSafe(u: Unicode, m: Merge, path: string)
    requires Accepted(u, m)
    ensures path in m.main ==> path in m.after
    ensures path in m.main && m.after[path] != m.main[path] ==> ValidBoxai(u, path) || Retypes(m, path)
    ensures path in m.after && path !in m.main ==> ValidNew(u, path)
  {
    var first, second :| Passes(u, m, first, second);
    if UsesFirst(first) {
      AcceptedReport(u, first.value, m.base, m.head, path);
      SafeToMerge(u, m, m.base, path);
    } else {
      AcceptedReport(u, second.value, m.main, m.head, path);
      SafeToMerge(u, m, m.main, path);
    }
  }

  /** Migrations other than valid BoxAI ones stay as they are. */
  ghost predicate Keeps(u: Unicode, before: Tree, after: Tree) {
    forall p :: p in before && !ValidBoxai(u, p) ==> p in after && after[p] == before[p]
  }

  ghost predicate NoRetypes(u: Unicode, m: Merge) {
    forall p :: Retypes(m, p) ==> ValidBoxai(u, p)
  }

  /** An accepted merge keeps the content of every other migration exactly when it changes the type of
      none: a change of type is not seen by the lint. */
  lemma KeepsIffNoRetypes(u: Unicode, m: Merge)
    requires Accepted(u, m)
    ensures Keeps(u, m.main, m.after) <==> NoRetypes(u, m)
  {
    if Keeps(u, m.main, m.after) {
      forall p | Retypes(m, p) ensures ValidBoxai(u, p) {
        var first, second :| Passes(u, m, first, second);
        assert At(m.after, p) == At(m.head, p) && At(m.main, p) == At(m.base, p);
      }
    }
    if NoRetypes(u, m) {
      forall p | p in m.main && !ValidBoxai(u, p) ensures p in m.after && m.after[p] == m.main[p] {
        MergeSafe(u, m, p);
      }
    }
  }

  // ---------------------------------------------------------------- any number of merges

  /** Each merge is made into the result of the one before. */
  ghost predicate History(u: Unicode, merges: seq<Merge>) {
    && (forall i :: 0 <= i < |merges| ==> Accepted(u, merges[i]))
    && (forall i :: 0 < i < |merges| ==> merges[i].main == merges[i - 1].after)
  }

  /** The tip after k merges. */
  function Tip(merges: seq<Merge>, k: nat): Tree
    requires k <= |merges| && merges != []
  {
    if k == 0 then merges[0].main else merges[k - 1].after
  }

  /** Over any sequence of accepted merges, a migration once present stays present, and one that appears
      is a valid BoxAI migration or has neither BoxAI nor a numeric prefix in its name. */
  lemma {:induction false} HistorySafe(u: Unicode, merges: seq<Merge>, i: nat, j: nat, path: string)
    requires History(u, merges) && i <= j <= |merges| && merges != []
    ensures path in Tip(merges, i) ==> path in Tip(merges, j)
    ensures path in Tip(merges, j) && path !in Tip(merges, i) ==> ValidNew(u, path)
    decreases j
  {
    if i < j {
      HistorySafe(u, merges, i, j - 1, path);
      MergeSafe(u, merges[j - 1], path);
      assert merges[j - 1].main == Tip(merges, j - 1);
    }
  }

  /** Over any sequence of accepted merges, every migration that is not a valid BoxAI one keeps its
      content from when it appears, exactly when no merge changes the type of one. */
  lemma HistoryKeepsIff(u: Unicode, merges: seq<Merge>)
    requires History(u, merges) && merges != []
    ensures (forall i, j :: 0 <= i <= j <= |merges| ==> Keeps(u, Tip(merges, i), Tip(merges, j)))
       <==> (forall k :: 0 <= k < |merges| ==> NoRetypes(u, merges[k]))
  {
    if forall i, j :: 0 <= i <= j <= |merges| ==> Keeps(u, Tip(merges, i), Tip(merges, j)) {
      forall k | 0 <= k < |merges| ensures NoRetypes(u, merges[k]) {
        assert Keeps(u, Tip(merges, k), Tip(merges, k + 1));
        KeepsIffNoRetypes(u, merges[k]);
      }
    }
    if forall k :: 0 <= k < |merges| ==> NoRetypes(u, merges[k]) {
      forall i, j | 0 <= i <= j <= |merges| ensures Keeps(u, Tip(merges, i), Tip(merges, j)) {
        KeptOver(u, merges, i, j);
      }
    }
  }

  lemma {:induction false} KeptOver(u: Unicode, merges: seq<Merge>, i: nat, j: nat)
    requires History(u, merges) && merges != [] && i <= j <= |merges|
    requires forall k :: 0 <= k < |merges| ==> NoRetypes(u, merges[k])
    ensures Keeps(u, Tip(merges, i), Tip(merges, j))
    decreases j
  {
    if i < j {
      KeptOver(u, merges, i, j - 1);
      KeepsIffNoRetypes(u, merges[j - 1]);
      assert merges[j - 1].main == Tip(merges, j - 1);
    }
  }

  lemma RetypeReport(path: string, before: Tree, after: Tree) returns (output: string)
    requires Plain(path) && Describes([Retyped(path)], before, after)
    ensures Prints(Some(output), before, after) && Strip(output) != ""
    ensures ReadReport(output) == Diff({}, {}, {})
  {
    var changes := [Retyped(path)];
    output := Report(changes);
    assert Printed(output, changes, before, after);
    ReportNotBlank(changes);
    forall p ensures p !in ReadReport(output).added && p !in ReadReport(output).modified && p !in ReadReport(output).deleted {
      ReportReadBack(changes, p);
    }
  }

  lemma RetypeDescribed(path: string, before: Tree, after: Tree)
    requires before.Keys == after.Keys == {path} && before[path].kind != after[path].kind
    ensures Describes([Retyped(path)], before, after)
  {
    var changes := [Retyped(path)];
    assert forall p :: !Adds(changes, p) && !Deletes(changes, p) && Modified(p) !in changes;
    assert forall p :: Retyped(p) in changes <==> p == path;
  }

  /** A merge that replaces an upstream migration by a symbolic link is accepted. */
  lemma RetypeIsAccepted(u: Unicode, path: string, content: string, link: string)
    requires Plain(path)
    ensures var before, after := map[path := File(Regular, content)], map[path := File(Symlink, link)];
      Accepted(u, Merge(before, before, after, after))
  {
    var before, after := map[path := File(Regular, content)], map[path := File(Symlink, link)];
    RetypeDescribed(path, before, after);
    var output := RetypeReport(path, before, after);
    AcceptedIffAllowed(u, ReadReport(output));
    assert Passes(u, Merge(before, before, after, after), Some(output), Some(output));
  }
}
