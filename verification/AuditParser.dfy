/** The line-oriented parser of the audit exception list, and a printer it undoes. */
module AuditParser {
  import opened Wrappers
  import opened Text

  /** An exception: its keys and values. */
  type Record = map<string, string>

  /** The finished exceptions and the one being read, if any. */
  datatype State = State(exceptions: seq<Record>, current: Option<Record>)

  /** `split(":", 1)`, stripping both sides and one pair of quotes; None when there is no colon. */
  function SplitKv(line: string): Option<(string, string)> {
    var i := IndexOf(line, ':');
    if i == |line| then None else
      Some((Strip(line[..i]), Unquote(Strip(line[i + 1..]))))
  }

  function Unquote(value: string): string {
    if (StartsWith(value, "\"") && EndsWith(value, "\"")) || (StartsWith(value, "'") && EndsWith(value, "'"))
    then if |value| == 1 then "" else value[1..|value| - 1]
    else value
  }

  /** Only a non-empty exception is kept. */
  function Flush(st: State): seq<Record> {
    if st.current.Some? && st.current.value != map[] then st.exceptions + [st.current.value] else st.exceptions
  }

  /** One line; None when an item line holds no colon, which raises. */
  function Step(st: State, raw: string): Option<State> {
    var line := Strip(raw);
    if line == "" || StartsWith(line, "#") then Some(st)
    else if StartsWith(line, "version:") || StartsWith(line, "exceptions:") then Some(st)
    else if StartsWith(line, "- ") then
      var item := Strip(line[2..]);
      if item == "" then Some(State(Flush(st), Some(map[])))
      else match SplitKv(item)
        case None => None
        case Some((key, value)) => Some(State(Flush(st), Some(map[key := value])))
    else if st.current.Some? && ':' in line then
      match SplitKv(line)
      case None => None
      case Some((key, value)) => Some(st.(current := Some(st.current.value[key := value])))
    else Some(st)
  }

  function Run(st: State, lines: seq<string>): Option<State>
    decreases lines
  {
    if lines == [] then Some(st)
    else match Step(st, lines[0])
      case None => None
      case Some(next) => Run(next, lines[1..])
  }

  function Parse(lines: seq<string>): Option<seq<Record>> {
    match Run(State([], None), lines)
    case None => None
    case Some(st) => Some(Flush(st))
  }

  /** The position of the first line break. */
  function LineEnd(text: string): (i: nat)
    ensures i <= |text| && OneLine(text[..i]) && (i < |text| ==> text[i] == '\n' || text[i] == '\r')
  {
    if text == [] || text[0] == '\n' || text[0] == '\r' then 0 else
      assert text == [text[0]] + text[1..];
      1 + LineEnd(text[1..])
  }

  /** Iterating over a text file: every kind of line break ends a line and is read as a newline. */
  function Lines(text: string): seq<string>
    decreases |text|
  {
    if text == "" then [] else
      var i := LineEnd(text);
      if i == |text| then [text]
      else if text[i] == '\r' && i + 1 < |text| && text[i + 1] == '\n' then [text[..i] + "\n"] + Lines(text[i + 2..])
      else [text[..i] + "\n"] + Lines(text[i + 1..])
  }

  method ParseExceptions(lines: seq<string>) returns (parsed: Option<seq<Record>>)
    ensures parsed == Parse(lines)
  {
    var st := State([], None);
    for i := 0 to |lines|
      invariant Run(State([], None), lines) == Run(st, lines[i..])
    {
      var next := Step(st, lines[i]);
      if next.None? {
        return None;
      }
      st := next.value;
    }
    parsed := Some(Flush(st));
  }

  // ---------------------------------------------------------------- printing

  /** How a value is written. */
  datatype Style = InDouble | InSingle | Bare

  function Styled(style: Style, value: string): string {
    match style
    case InDouble => "\"" + value + "\""
    case InSingle => "'" + value + "'"
    case Bare => value
  }

  /** An entry as it is written: its key and value, how the value is quoted, and the blanks around. */
  datatype Written = Written(key: string, value: string, style: Style, pre: string, mid: string, post: string)

  function EntryLine(item: bool, e: Written): string {
    e.pre + ((if item then "- " else "") + e.key + [':'] + e.mid + Styled(e.style, e.value)) + e.post
  }

  function EntryLines(entries: seq<Written>): seq<string> {
    if entries == [] then [] else [EntryLine(false, entries[0])] + EntryLines(entries[1..])
  }

  function RecordLines(entries: seq<Written>): seq<string> {
    if entries == [] then [] else [EntryLine(true, entries[0])] + EntryLines(entries[1..])
  }

  function Print(records: seq<seq<Written>>): seq<string> {
    if records == [] then [] else RecordLines(records[0]) + Print(records[1..])
  }

  /** What the entries mean, later ones winning. */
  function Merge(record: Record, entries: seq<Written>): Record
    decreases entries
  {
    if entries == [] then record else Merge(record[entries[0].key := entries[0].value], entries[1..])
  }

  function Meanings(records: seq<seq<Written>>): seq<Record> {
    seq(|records|, i requires 0 <= i < |records| => Merge(map[], records[i]))
  }

  predicate OneLine(s: string) {
    '\n' !in s && '\r' !in s
  }

  function Join(lines: seq<string>): string {
    if lines == [] then "" else lines[0] + Join(lines[1..])
  }

  predicate IsLine(line: string) {
    line != "" && line[|line| - 1] == '\n' && OneLine(line[..|line| - 1])
  }

  predicate PrintableKey(key: string) {
    Stripped(key) && ':' !in key && OneLine(key)
  }

  /** A key that may follow the first: not taken for a header, a comment or a new item. */
  predicate FollowingKey(key: string) {
    && PrintableKey(key) && key != "version" && key != "exceptions"
    && !StartsWith(key, "#") && !StartsWith(key, "- ")
  }

  /** A value that the parser would take for a quoted one. */
  predicate LooksQuoted(value: string) {
    value != "" && value[0] == value[|value| - 1] && (value[0] == '"' || value[0] == '\'')
  }

  /** Quoted values may hold anything; a bare one has no blank margins and does not look quoted. */
  predicate Printable(e: Written) {
    && PrintableKey(e.key) && Blank(e.pre) && Blank(e.mid) && Blank(e.post)
    && (e.style.Bare? ==> Stripped(e.value) && !LooksQuoted(e.value))
  }

  /** An entry that may follow the first. */
  predicate Follows(e: Written) {
    Printable(e) && FollowingKey(e.key)
  }

  predicate AllFollow(entries: seq<Written>) {
    forall i :: 0 <= i < |entries| ==> Follows(entries[i])
  }

  predicate PrintableRecord(entries: seq<Written>) {
    entries != [] && Printable(entries[0]) && AllFollow(entries[1..])
  }

  predicate AllPrintable(records: seq<seq<Written>>) {
    forall i :: 0 <= i < |records| ==> PrintableRecord(records[i])
  }

  lemma StripStripped(s: string)
    requires Stripped(s)
    ensures Strip(s) == s
  {
    if s != [] {
      StripMargins("", s, "");
      assert "" + s + "" == s;
    }
  }

  /** A colon-free word before a colon is recognised exactly when it is that word. */
  lemma HeaderMatch(key: string, rest: string, word: string)
    requires ':' !in key && ':' !in word
    ensures StartsWith(key + [':'] + rest, word + [':']) <==> key == word
  {
    var line, head := key + [':'] + rest, word + [':'];
    if StartsWith(line, head) {
      assert line == word + [':'] + line[|head|..];
      IndexOfAfter(word, ':', line[|head|..]);
      IndexOfAfter(key, ':', rest);
      assert key == line[..|key|] == word;
    }
  }

  lemma OtherStart(s: string, prefix: string)
    requires s != "" && prefix != "" && s[0] != prefix[0]
    ensures !StartsWith(s, prefix)
  {
    if |prefix| <= |s| {
      assert s[..|prefix|][0] == s[0];
    }
  }

  lemma UnquoteStyled(style: Style, value: string)
    requires style.Bare? ==> !LooksQuoted(value)
    ensures Unquote(Styled(style, value)) == value
  {
    var styled := Styled(style, value);
    if style.Bare? {
      if value != "" {
        assert value[..1] == [value[0]] && value[|value| - 1..] == [value[|value| - 1]];
      }
    } else {
      assert styled[..1] == [styled[0]] && styled[|styled| - 1..] == [styled[|styled| - 1]];
      assert styled[1..|styled| - 1] == value;
    }
  }

  /** The part of an entry's line that is not blank margin. */
  function Core(e: Written): string {
    e.key + [':'] + if Styled(e.style, e.value) == "" then "" else e.mid + Styled(e.style, e.value)
  }

  lemma CoreStripped(e: Written)
    requires Printable(e)
    ensures Core(e) != "" && Stripped(Core(e))
  {
    var core, styled := Core(e), Styled(e.style, e.value);
    assert core[0] == if e.key == "" then ':' else e.key[0];
    assert core[|core| - 1] == if styled == "" then ':' else styled[|styled| - 1];
  }

  lemma LineStripped(item: bool, e: Written)
    requires Printable(e)
    ensures Strip(EntryLine(item, e)) == (if item then "- " else "") + Core(e)
  {
    var dash := if item then "- " else "";
    var styled, core := Styled(e.style, e.value), dash + Core(e);
    CoreStripped(e);
    assert core[0] == if item then '-' else Core(e)[0];
    assert core[|core| - 1] == Core(e)[|Core(e)| - 1];
    if styled == "" {
      assert EntryLine(item, e) == e.pre + core + (e.mid + e.post);
      StripMargins(e.pre, core, e.mid + e.post);
    } else {
      assert EntryLine(item, e) == e.pre + core + e.post;
      StripMargins(e.pre, core, e.post);
    }
  }

  /** Splitting gives the key and the value back, whatever colons, quotes and blanks the value holds. */
  lemma SplitItem(e: Written)
    requires Printable(e)
    ensures SplitKv(Core(e)) == Some((e.key, e.value))
  {
    var styled := Styled(e.style, e.value);
    var rest := if styled == "" then "" else e.mid + styled;
    assert Core(e) == e.key + [':'] + rest;
    IndexOfAfter(e.key, ':', rest);
    assert Core(e)[..|e.key|] == e.key && Core(e)[|e.key| + 1..] == rest;
    if styled != "" {
      StripMargins(e.mid, styled, "");
      assert e.mid + styled + "" == e.mid + styled;
    }
    StripStripped(e.key);
    UnquoteStyled(e.style, e.value);
  }

  lemma FollowingLine(e: Written)
    requires Printable(e) && FollowingKey(e.key)
    ensures var line := Core(e);
      && !StartsWith(line, "#") && !StartsWith(line, "version:") && !StartsWith(line, "exceptions:")
      && !StartsWith(line, "- ") && ':' in line
  {
    var line, rest := Core(e), if Styled(e.style, e.value) == "" then "" else e.mid + Styled(e.style, e.value);
    assert line == e.key + [':'] + rest;
    HeaderMatch(e.key, rest, "version");
    HeaderMatch(e.key, rest, "exceptions");
    assert "version" + [':'] == "version:" && "exceptions" + [':'] == "exceptions:";
    assert line[|e.key|] == ':';
    if |e.key| >= 1 { assert line[..1] == e.key[..1]; } else { assert line[..1] == ":"; }
    if |e.key| >= 2 {
      assert line[..2] == e.key[..2];
    } else if |e.key| == 1 {
      assert line[..2] == e.key + ":";
    } else {
      assert line[0] == ':';
    }
  }

  lemma StepFollowing(st: State, e: Written)
    requires Printable(e) && FollowingKey(e.key) && st.current.Some?
    ensures Step(st, EntryLine(false, e)) == Some(st.(current := Some(st.current.value[e.key := e.value])))
  {
    LineStripped(false, e);
    assert "" + Core(e) == Core(e);
    CoreStripped(e);
    FollowingLine(e);
    SplitItem(e);
  }

  lemma StepItem(st: State, e: Written)
    requires Printable(e)
    ensures Step(st, EntryLine(true, e)) == Some(State(Flush(st), Some(map[e.key := e.value])))
  {
    var line := "- " + Core(e);
    LineStripped(true, e);
    CoreStripped(e);
    assert line[..2] == "- " && line[2..] == Core(e) && line[..1] == "-";
    OtherStart(line, "version:");
    OtherStart(line, "exceptions:");
    StripStripped(Core(e));
    SplitItem(e);
  }

  lemma RunFirst(st: State, line: string, next: State, lines: seq<string>)
    requires Step(st, line) == Some(next)
    ensures Run(st, [line] + lines) == Run(next, lines)
  {
    assert ([line] + lines)[1..] == lines;
  }

  /** Adding entries to the exception being read. */
  function Adding(st: State, entries: seq<Written>): State
    requires st.current.Some?
  {
    st.(current := Some(Merge(st.current.value, entries)))
  }

  lemma {:induction false} RunEntries(st: State, entries: seq<Written>, lines: seq<string>)
    requires st.current.Some? && AllFollow(entries)
    ensures Run(st, EntryLines(entries) + lines) == Run(Adding(st, entries), lines)
    decreases |entries|
  {
    if entries == [] {
      assert EntryLines(entries) + lines == lines;
    } else {
      var next := Adding(st, [entries[0]]);
      assert Follows(entries[0]);
      RunEntry(st, entries[0], EntryLines(entries[1..]) + lines);
      EntryLinesFirst(entries, lines);
      AddingFirst(st, entries);
      RunEntries(next, entries[1..], lines);
    }
  }

  lemma RunEntry(st: State, e: Written, lines: seq<string>)
    requires st.current.Some? && Follows(e)
    ensures Run(st, [EntryLine(false, e)] + lines) == Run(Adding(st, [e]), lines)
  {
    StepFollowing(st, e);
    AddingOne(st, e);
    RunFirst(st, EntryLine(false, e), Adding(st, [e]), lines);
  }

  lemma AddingOne(st: State, e: Written)
    requires st.current.Some?
    ensures Adding(st, [e]) == st.(current := Some(st.current.value[e.key := e.value]))
  {
    assert [e][1..] == [];
    assert Merge(st.current.value, [e]) == Merge(st.current.value[e.key := e.value], []);
  }

  lemma AddingFirst(st: State, entries: seq<Written>)
    requires st.current.Some? && entries != []
    ensures Adding(Adding(st, [entries[0]]), entries[1..]) == Adding(st, entries)
  {
    AddingOne(st, entries[0]);
  }

  lemma EntryLinesFirst(entries: seq<Written>, lines: seq<string>)
    requires entries != []
    ensures EntryLines(entries) + lines == [EntryLine(false, entries[0])] + (EntryLines(entries[1..]) + lines)
  {
  }

  /** The state after a record, the one before it being finished. */
  function Begun(st: State, entries: seq<Written>): State {
    State(Flush(st), Some(Merge(map[], entries)))
  }

  lemma RunRecord(st: State, entries: seq<Written>, lines: seq<string>)
    requires PrintableRecord(entries)
    ensures Run(st, RecordLines(entries) + lines) == Run(Begun(st, entries), lines)
  {
    var e, rest := entries[0], EntryLines(entries[1..]) + lines;
    var next := State(Flush(st), Some(map[e.key := e.value]));
    StepItem(st, e);
    RunFirst(st, EntryLine(true, e), next, rest);
    assert RecordLines(entries) + lines == [EntryLine(true, e)] + rest;
    RunEntries(next, entries[1..], lines);
    MergeFirst(entries);
  }

  lemma MergeFirst(entries: seq<Written>)
    requires entries != []
    ensures Merge(map[], entries) == Merge(map[entries[0].key := entries[0].value], entries[1..])
  {
    assert map[][entries[0].key := entries[0].value] == map[entries[0].key := entries[0].value];
  }

  lemma {:induction false} MergeKeeps(record: Record, entries: seq<Written>)
    ensures record.Keys <= Merge(record, entries).Keys
    decreases entries
  {
    if entries != [] {
      MergeKeeps(record[entries[0].key := entries[0].value], entries[1..]);
    }
  }

  lemma MergeNotEmpty(entries: seq<Written>)
    requires entries != []
    ensures Merge(map[], entries) != map[]
  {
    MergeKeeps(map[][entries[0].key := entries[0].value], entries[1..]);
    assert entries[0].key in Merge(map[], entries);
  }

  function AfterRecords(st: State, records: seq<seq<Written>>): State
    decreases |records|
  {
    if records == [] then st else AfterRecords(Begun(st, records[0]), records[1..])
  }

  lemma {:induction false} RunPrint(st: State, records: seq<seq<Written>>)
    requires AllPrintable(records)
    ensures Run(st, Print(records)) == Some(AfterRecords(st, records))
    decreases |records|
  {
    if records != [] {
      var rest := Print(records[1..]);
      assert PrintableRecord(records[0]);
      RunRecord(st, records[0], rest);
      RunPrint(Begun(st, records[0]), records[1..]);
    }
  }

  lemma {:induction false} FlushRecords(st: State, records: seq<seq<Written>>)
    requires AllPrintable(records)
    ensures Flush(AfterRecords(st, records)) == Flush(st) + Meanings(records)
    decreases |records|
  {
    if records != [] {
      assert PrintableRecord(records[0]);
      MergeNotEmpty(records[0]);
      FlushRecords(Begun(st, records[0]), records[1..]);
      MeaningsFirst(records);
    }
  }

  lemma MeaningsFirst(records: seq<seq<Written>>)
    requires records != []
    ensures Meanings(records) == [Merge(map[], records[0])] + Meanings(records[1..])
  {
  }

  // ---------------------------------------------------------------- what a file may hold besides

  /** A line the parser passes over: blank, a comment, a header, or neither an item nor an entry. */
  predicate PassedOver(raw: string) {
    var line := Strip(raw);
    || line == "" || line[0] == '#' || StartsWith(line, "version:") || StartsWith(line, "exceptions:")
    || (!StartsWith(line, "- ") && ':' !in line)
  }

  lemma StepPassesOver(st: State, raw: string)
    requires PassedOver(raw)
    ensures Step(st, raw) == Some(st)
  {
    var line := Strip(raw);
    if line != "" {
      assert line[..1] == [line[0]];
      if line[0] != '-' {
        OtherStart(line, "- ");
      }
    }
  }

  /** The lines that count. */
  function Content(lines: seq<string>): seq<string> {
    if lines == [] then [] else (if PassedOver(lines[0]) then [] else [lines[0]]) + Content(lines[1..])
  }

  lemma {:induction false} RunContent(st: State, lines: seq<string>)
    ensures Run(st, Content(lines)) == Run(st, lines)
    decreases lines
  {
    if lines != [] {
      var rest := Content(lines[1..]);
      if PassedOver(lines[0]) {
        StepPassesOver(st, lines[0]);
        assert Content(lines) == rest;
        RunContent(st, lines[1..]);
      } else {
        assert Content(lines)[1..] == rest;
        if Step(st, lines[0]).Some? {
          RunContent(Step(st, lines[0]).value, lines[1..]);
        }
      }
    }
  }

  /** Before the first item every line is passed over. */
  lemma {:induction false} RunPreamble(preamble: seq<string>, lines: seq<string>)
    requires forall i :: 0 <= i < |preamble| ==> !StartsWith(Strip(preamble[i]), "- ")
    ensures Run(State([], None), preamble + lines) == Run(State([], None), lines)
  {
    if preamble == [] {
      assert preamble + lines == lines;
    } else {
      assert (preamble + lines)[1..] == preamble[1..] + lines;
      RunPreamble(preamble[1..], lines);
    }
  }

  /** A line that raises: an item whose text is not empty and holds no colon. */
  predicate Raises(raw: string) {
    var line := Strip(raw);
    StartsWith(line, "- ") && Strip(line[2..]) != "" && ':' !in line[2..]
  }

  lemma StripKeepsColon(s: string)
    ensures ':' in Strip(s) <==> ':' in s
  {
    StripLeftKeepsColon(s);
    StripRightKeepsColon(StripLeft(s));
  }

  lemma {:induction false} StripLeftKeepsColon(s: string)
    ensures ':' in StripLeft(s) <==> ':' in s
  {
    if s != "" && IsSpace(s[0]) {
      StripLeftKeepsColon(s[1..]);
      assert s == [s[0]] + s[1..];
    }
  }

  lemma {:induction false} StripRightKeepsColon(s: string)
    ensures ':' in StripRight(s) <==> ':' in s
  {
    if s != "" && IsSpace(s[|s| - 1]) {
      StripRightKeepsColon(s[..|s| - 1]);
      assert s == s[..|s| - 1] + [s[|s| - 1]];
    }
  }

  lemma StepRaises(st: State, raw: string)
    ensures Step(st, raw).None? <==> Raises(raw)
  {
    var line := Strip(raw);
    if StartsWith(line, "- ") {
      assert line[0] == line[..2][0] && line[..1] == [line[0]];
      OtherStart(line, "version:");
      OtherStart(line, "exceptions:");
      StripKeepsColon(line[2..]);
    }
  }

  lemma {:induction false} RunRaises(st: State, lines: seq<string>)
    ensures Run(st, lines).None? <==> exists i :: 0 <= i < |lines| && Raises(lines[i])
    decreases lines
  {
    if lines != [] {
      StepRaises(st, lines[0]);
      if Step(st, lines[0]).Some? {
        RunRaises(Step(st, lines[0]).value, lines[1..]);
        if i :| 0 <= i < |lines| && Raises(lines[i]) {
          assert lines[1..][i - 1] == lines[i];
        }
      }
    }
  }

  /** Parsing raises exactly when some line does. */
  lemma ParseRaisesIff(lines: seq<string>)
    ensures Parse(lines).None? <==> exists i :: 0 <= i < |lines| && Raises(lines[i])
  {
    RunRaises(State([], None), lines);
  }

  // ---------------------------------------------------------------- the text of a file

  /** Every kind of line break ends a line and is read as a newline. */
  lemma LinesAfter(body: string, end: string, rest: string)
    requires OneLine(body)
    requires end == "\n" || end == "\r\n" || (end == "\r" && (rest == "" || rest[0] != '\n'))
    ensures Lines(body + end + rest) == [body + "\n"] + Lines(rest)
  {
    var text := body + end + rest;
    LineEndBefore(body, end + rest);
    assert body + (end + rest) == text;
    assert text[..|body|] == body && text[|body| + |end|..] == rest && text[|body|] == end[0];
  }

  lemma {:induction false} LineEndBefore(body: string, rest: string)
    requires OneLine(body) && rest != "" && (rest[0] == '\n' || rest[0] == '\r')
    ensures LineEnd(body + rest) == |body|
  {
    if body == [] {
      assert body + rest == rest;
    } else {
      assert body[0] in body;
      assert (body + rest)[1..] == body[1..] + rest;
      LineEndBefore(body[1..], rest);
    }
  }

  /** Reading a file of whole lines gives those lines. */
  lemma {:induction false} LinesOfJoin(lines: seq<string>)
    requires forall l :: l in lines ==> IsLine(l)
    ensures Lines(Join(lines)) == lines
  {
    if lines != [] {
      var line, text := lines[0], Join(lines);
      assert line in lines;
      var body := line[..|line| - 1];
      assert line == body + "\n" && text == body + "\n" + Join(lines[1..]);
      LinesAfter(body, "\n", Join(lines[1..]));
      LinesOfJoin(lines[1..]);
    }
  }

  /** Printing a list of exceptions and parsing it gives the same list, whatever the values hold, however
      each line is indented and each value quoted, with any lines before the first item that are not items,
      and any blank lines, comments, headers and stray lines in between. */
  lemma PrintParse(text: string, preamble: seq<string>, lines: seq<string>, records: seq<seq<Written>>)
    requires Lines(text) == preamble + lines && Content(lines) == Print(records)
    requires forall i :: 0 <= i < |preamble| ==> !StartsWith(Strip(preamble[i]), "- ")
    requires AllPrintable(records)
    ensures Parse(Lines(text)) == Some(Meanings(records))
  {
    RunPreamble(preamble, lines);
    RunContent(State([], None), lines);
    RunPrint(State([], None), records);
    FlushRecords(State([], None), records);
    assert [] + Meanings(records) == Meanings(records);
  }

  /** A file written line by line reads as those lines. */
  lemma WrittenParse(preamble: seq<string>, lines: seq<string>, records: seq<seq<Written>>)
    requires forall l :: l in preamble + lines ==> IsLine(l)
    requires Content(lines) == Print(records)
    requires forall i :: 0 <= i < |preamble| ==> !StartsWith(Strip(preamble[i]), "- ")
    requires AllPrintable(records)
    ensures Parse(Lines(Join(preamble + lines))) == Some(Meanings(records))
  {
    LinesOfJoin(preamble + lines);
    PrintParse(Join(preamble + lines), preamble, lines, records);
  }
}
