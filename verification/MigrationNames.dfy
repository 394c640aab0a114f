/** The names of migrations: the pattern BoxAI migrations must match, what it accepts, and numeric
    prefixes. */
module MigrationNames {
  import opened Wrappers

  /** What the Unicode tables say: the value of a decimal digit, and lower-casing. */
  datatype Unicode = Unicode(digit: char -> Option<nat>, lower: char -> string)

  function AsciiLower(c: char): char {
    if 'A' <= c <= 'Z' then (c as int + 32) as char else c
  }

  /** The ASCII part of the tables, and that digits are decimal. */
  ghost predicate Standard(u: Unicode) {
    && (forall c :: u.digit(c).Some? ==> u.digit(c).value < 10)
    && (forall c :: '0' <= c <= '9' ==> u.digit(c) == Some(c as int - '0' as int))
    && u.digit('_').None?
    && (forall c: char :: c as int < 128 ==> u.lower(c) == [AsciiLower(c)])
  }

  // ---------------------------------------------------------------- regular expressions

  datatype Regex = Empty | One(chars: iset<char>) | Cat(left: Regex, right: Regex) | Opt(body: Regex) | Star(body: Regex)

  ghost predicate Matches(r: Regex, s: string)
    decreases |s|, r
  {
    match r
    case Empty => s == ""
    case One(chars) => |s| == 1 && s[0] in chars
    case Cat(left, right) => exists i :: 0 <= i <= |s| && Matches(left, s[..i]) && Matches(right, s[i..])
    case Opt(body) => s == "" || Matches(body, s)
    case Star(body) => s == "" || exists i :: 0 < i <= |s| && Matches(body, s[..i]) && Matches(r, s[i..])
  }

  function Word(w: string): Regex {
    if w == "" then Empty else Cat(One(iset{w[0]}), Word(w[1..]))
  }

  function Plus(r: Regex): Regex {
    Cat(r, Star(r))
  }

  predicate IsSlug(c: char) {
    'a' <= c <= 'z' || '0' <= c <= '9' || c == '_'
  }

  ghost function Slug(): Regex {
    One(iset c: char | IsSlug(c))
  }

  ghost function Digit(u: Unicode): Regex {
    One(iset c: char | u.digit(c).Some?)
  }

  /** The end of a pattern, `$`: the end of the text, or a newline before it. */
  function End(): Regex {
    Opt(One(iset{'\n'}))
  }

  ghost function Head(u: Unicode): Regex {
    Cat(One(iset{'9'}), Cat(Digit(u), Cat(Digit(u), Word("_boxai_"))))
  }

  function Group(notx: bool): Option<string> {
    if notx then Some("_notx") else None
  }

  /** The pattern of BoxAI migrations; `notx` says whether it has the optional `_notx` group. */
  ghost function BoxaiName(u: Unicode, notx: bool): Regex {
    Cat(Head(u), Cat(Plus(Slug()), After(Group(notx), ".sql")))
  }

  // ---------------------------------------------------------------- what the pattern accepts

  /** The name without its last newline. */
  function Chomp(s: string): string {
    if s != "" && s[|s| - 1] == '\n' then s[..|s| - 1] else s
  }

  predicate AllSlug(s: string) {
    forall i :: 0 <= i < |s| ==> IsSlug(s[i])
  }

  predicate IsHead(u: Unicode, s: string) {
    |s| == 10 && s[0] == '9' && u.digit(s[1]).Some? && u.digit(s[2]).Some? && s[3..] == "_boxai_"
  }

  /** `9xx_boxai_<slug>.sql`, possibly followed by a newline. */
  predicate Accepts(u: Unicode, name: string) {
    var s := Chomp(name);
    && |s| > 14 && IsHead(u, s[..10]) && AllSlug(s[10..|s| - 4]) && s[|s| - 4..] == ".sql"
  }

  lemma CatOne(chars: iset<char>, r: Regex, s: string)
    ensures Matches(Cat(One(chars), r), s) <==> s != "" && s[0] in chars && Matches(r, s[1..])
  {
    if s != "" && s[0] in chars && Matches(r, s[1..]) {
      assert Matches(One(chars), s[..1]);
    }
  }

  lemma {:induction false} WordMatches(w: string, s: string)
    ensures Matches(Word(w), s) <==> s == w
  {
    if w != "" {
      CatOne(iset{w[0]}, Word(w[1..]), s);
      if s != "" {
        WordMatches(w[1..], s[1..]);
        assert s == [s[0]] + s[1..] && w == [w[0]] + w[1..];
      }
    }
  }

  lemma {:induction false} SlugsMatch(s: string)
    ensures Matches(Star(Slug()), s) <==> AllSlug(s)
  {
    if s != "" {
      SlugsMatch(s[1..]);
      assert AllSlug(s) <==> IsSlug(s[0]) && AllSlug(s[1..]);
      assert Matches(Slug(), s[..1]) <==> IsSlug(s[0]);
      if i :| 0 < i <= |s| && Matches(Slug(), s[..i]) && Matches(Star(Slug()), s[i..]) {
        assert i == 1;
      }
    }
  }

  lemma PlusMatches(s: string)
    ensures Matches(Plus(Slug()), s) <==> s != "" && AllSlug(s)
  {
    CatOne(Slug().chars, Star(Slug()), s);
    if s != "" {
      SlugsMatch(s[1..]);
      assert AllSlug(s) <==> IsSlug(s[0]) && AllSlug(s[1..]);
    }
  }

  lemma HeadMatches(u: Unicode, s: string)
    ensures Matches(Head(u), s) <==> IsHead(u, s)
  {
    var word := Word("_boxai_");
    CatOne(iset{'9'}, Cat(Digit(u), Cat(Digit(u), word)), s);
    if s != "" {
      CatOne(Digit(u).chars, Cat(Digit(u), word), s[1..]);
      if |s| > 1 {
        assert s[1..][1..] == s[2..];
        CatOne(Digit(u).chars, word, s[2..]);
        if |s| > 2 {
          assert s[2..][1..] == s[3..];
          WordMatches("_boxai_", s[3..]);
        }
      }
    }
  }

  lemma CatAt(left: Regex, right: Regex, s: string, i: nat)
    requires i <= |s| && Matches(left, s[..i]) && Matches(right, s[i..])
    ensures Matches(Cat(left, right), s)
  {
  }

  lemma CatSplit(left: Regex, right: Regex, s: string) returns (i: nat)
    requires Matches(Cat(left, right), s)
    ensures i <= |s| && Matches(left, s[..i]) && Matches(right, s[i..])
  {
    i :| 0 <= i <= |s| && Matches(left, s[..i]) && Matches(right, s[i..]);
  }

  function Tail(suffix: string): Regex {
    Cat(Word(suffix), End())
  }

  predicate IsTail(suffix: string, s: string) {
    s == suffix || s == suffix + "\n"
  }

  lemma EndMatches(s: string)
    ensures Matches(End(), s) <==> s == "" || s == "\n"
  {
  }

  lemma TailMatches(suffix: string, s: string)
    ensures Matches(Tail(suffix), s) <==> IsTail(suffix, s)
  {
    if Matches(Tail(suffix), s) {
      var i := CatSplit(Word(suffix), End(), s);
      WordMatches(suffix, s[..i]);
      EndMatches(s[i..]);
      assert s == s[..i] + s[i..];
    }
    if IsTail(suffix, s) {
      var i := |suffix|;
      WordMatches(suffix, s[..i]);
      EndMatches(s[i..]);
      CatAt(Word(suffix), End(), s, i);
    }
  }

  /** What follows the slug: the suffix, after the optional group if there is one. */
  function After(group: Option<string>, suffix: string): Regex {
    if group.Some? then Cat(Opt(Word(group.value)), Tail(suffix)) else Tail(suffix)
  }

  predicate RestAt(suffix: string, s: string, i: int) {
    0 < i <= |s| && AllSlug(s[..i]) && IsTail(suffix, s[i..])
  }

  lemma RestAtMatches(group: Option<string>, suffix: string, s: string, i: nat)
    requires RestAt(suffix, s, i)
    ensures Matches(Cat(Plus(Slug()), After(group, suffix)), s)
  {
    var rest := s[i..];
    PlusMatches(s[..i]);
    TailMatches(suffix, rest);
    if group.Some? {
      assert rest[0..] == rest && Matches(Opt(Word(group.value)), rest[..0]);
      CatAt(Opt(Word(group.value)), Tail(suffix), rest, 0);
    }
    CatAt(Plus(Slug()), After(group, suffix), s, i);
  }

  /** The optional group is all of what precedes the suffix, or nothing. */
  lemma GroupSplit(group: string, suffix: string, rest: string) returns (j: nat)
    requires Matches(Cat(Opt(Word(group)), Tail(suffix)), rest)
    ensures j <= |rest| && (rest[..j] == "" || rest[..j] == group) && Matches(Tail(suffix), rest[j..])
  {
    var body := Word(group);
    j := CatSplit(Opt(body), Tail(suffix), rest);
    assert Matches(Opt(body), rest[..j]) <==> rest[..j] == "" || Matches(body, rest[..j]);
    WordMatches(group, rest[..j]);
  }

  /** The optional group adds nothing, its characters being those of a slug. */
  lemma MatchesRestAt(group: Option<string>, suffix: string, s: string) returns (i: nat)
    requires group.Some? ==> AllSlug(group.value)
    requires Matches(Cat(Plus(Slug()), After(group, suffix)), s)
    ensures RestAt(suffix, s, i)
  {
    i := CatSplit(Plus(Slug()), After(group, suffix), s);
    PlusMatches(s[..i]);
    if group.Some? {
      var rest := s[i..];
      var j := GroupSplit(group.value, suffix, rest);
      assert s[..i + j] == s[..i] + rest[..j] && s[i + j..] == rest[j..];
      i := i + j;
    }
    TailMatches(suffix, s[i..]);
  }

  ghost predicate IsRest(suffix: string, s: string) {
    exists i: nat :: RestAt(suffix, s, i)
  }

  lemma RestAccepts(s: string)
    ensures IsRest(".sql", s) <==> var t := Chomp(s); |t| > 4 && AllSlug(t[..|t| - 4]) && t[|t| - 4..] == ".sql"
  {
    var t := Chomp(s);
    if i: nat :| RestAt(".sql", s, i) {
      assert s == s[..i] + s[i..];
      assert |t| == i + 4 && t[..i] == s[..i] && t[i..] == ".sql";
    }
    if |t| > 4 && AllSlug(t[..|t| - 4]) && t[|t| - 4..] == ".sql" {
      var i := |t| - 4;
      assert t == t[..i] + ".sql" && s[..i] == t[..i];
      assert s == t || s == t + "\n";
      assert RestAt(".sql", s, i);
    }
  }

  lemma BodyMatches(u: Unicode, rest: Regex, name: string)
    ensures Matches(Cat(Head(u), rest), name) <==> |name| >= 10 && IsHead(u, name[..10]) && Matches(rest, name[10..])
  {
    if Matches(Cat(Head(u), rest), name) {
      var i := CatSplit(Head(u), rest, name);
      HeadMatches(u, name[..i]);
    }
    if |name| >= 10 && IsHead(u, name[..10]) && Matches(rest, name[10..]) {
      HeadMatches(u, name[..10]);
      CatAt(Head(u), rest, name, 10);
    }
  }

  lemma RestMatches(notx: bool, s: string)
    ensures Matches(Cat(Plus(Slug()), After(Group(notx), ".sql")), s) <==> IsRest(".sql", s)
  {
    if Matches(Cat(Plus(Slug()), After(Group(notx), ".sql")), s) {
      var i := MatchesRestAt(Group(notx), ".sql", s);
    }
    if i: nat :| RestAt(".sql", s, i) {
      RestAtMatches(Group(notx), ".sql", s, i);
    }
  }

  /** The pattern accepts exactly the names of the form `9xx_boxai_<slug>.sql`, with or without the
      `_notx` group: the group is redundant. */
  lemma NotxIsRedundant(u: Unicode, notx: bool, name: string)
    ensures Matches(BoxaiName(u, notx), name) <==> Accepts(u, name)
  {
    var rest := Cat(Plus(Slug()), After(Group(notx), ".sql"));
    assert BoxaiName(u, notx) == Cat(Head(u), rest);
    BodyMatches(u, rest, name);
    if |name| >= 10 {
      RestMatches(notx, name[10..]);
      RestAccepts(name[10..]);
      ChompTail(name);
      SlicedTwice(Chomp(name));
    }
  }

  lemma SlicedTwice(s: string)
    ensures |s| > 14 ==> s[10..|s| - 4] == s[10..][..|s| - 14] && s[|s| - 4..] == s[10..][|s| - 14..]
  {
  }

  lemma ChompTail(name: string)
    requires |name| >= 10
    ensures |name| > 10 ==> Chomp(name)[..10] == name[..10] && Chomp(name)[10..] == Chomp(name[10..])
    ensures |Chomp(name)| > 10 ==> |name| > 10
  {
  }

  // ---------------------------------------------------------------- numeric prefixes

  /** How many digits a name begins with. */
  function PrefixLength(u: Unicode, s: string): nat {
    if s != "" && u.digit(s[0]).Some? then 1 + PrefixLength(u, s[1..]) else 0
  }

  function Digits(u: Unicode, s: string): seq<nat> {
    if s != "" && u.digit(s[0]).Some? then [u.digit(s[0]).value] + Digits(u, s[1..]) else []
  }

  function Decimal(digits: seq<nat>): nat {
    if digits == [] then 0 else 10 * Decimal(digits[..|digits| - 1]) + digits[|digits| - 1]
  }

  /** The numeric prefix of a name, if it has one. */
  function Prefix(u: Unicode, s: string): Option<nat> {
    if Digits(u, s) == [] then None else Some(Decimal(Digits(u, s)))
  }

  function Lower(u: Unicode, s: string): string {
    if s == "" then "" else u.lower(s[0]) + Lower(u, s[1..])
  }

  predicate Contains(s: string, w: string) {
    exists i | 0 <= i <= |s| :: Occurs(s, w, i)
  }

  predicate Occurs(s: string, w: string, i: int) {
    0 <= i && i + |w| <= |s| && s[i..i + |w|] == w
  }

  /** A name that mentions BoxAI, in any case. */
  predicate MentionsBoxai(u: Unicode, name: string) {
    Contains(Lower(u, name), "boxai")
  }

  /** An accepted name has a numeric prefix from 900 to 999. */
  lemma AcceptedPrefix(u: Unicode, name: string)
    requires Standard(u) && Accepts(u, name)
    ensures Prefix(u, name).Some? && 900 <= Prefix(u, name).value <= 999
  {
    var head := Chomp(name)[..10];
    assert head[3] == head[3..][0];
    assert forall i :: 0 <= i < 10 ==> name[i] == head[i];
    var a, b := u.digit(name[1]).value, u.digit(name[2]).value;
    assert Digits(u, name[3..]) == [];
    assert name[2..][1..] == name[3..];
    assert Digits(u, name[2..]) == [b];
    assert name[1..][1..] == name[2..];
    assert Digits(u, name[1..]) == [a] + [b];
    assert Digits(u, name) == [9] + ([a] + [b]);
    assert ([9] + ([a] + [b]))[..2] == [9] + [a] && ([9] + [a])[..1] == [9];
    assert Decimal([9]) == 9 by {
      assert [9][..0] == [];
    }
    assert Decimal([9] + [a]) == 90 + a;
  }

  lemma {:induction false} LowerAppend(u: Unicode, s: string, t: string)
    ensures Lower(u, s + t) == Lower(u, s) + Lower(u, t)
  {
    if s == "" {
      assert s + t == t;
    } else {
      assert (s + t)[1..] == s[1..] + t;
      LowerAppend(u, s[1..], t);
    }
  }

  lemma {:induction false} LowerLetters(u: Unicode, s: string)
    requires Standard(u) && forall i :: 0 <= i < |s| ==> 'a' <= s[i] <= 'z'
    ensures Lower(u, s) == s
  {
    if s != "" {
      LowerLetters(u, s[1..]);
    }
  }

  lemma AcceptedWord(u: Unicode, name: string)
    requires Accepts(u, name)
    ensures |name| >= 9 && name[4..9] == "boxai"
  {
    var word := Chomp(name)[..10][3..];
    assert word == "_boxai_";
    assert name[..10] == Chomp(name)[..10];
    assert forall i :: 0 <= i < 7 ==> name[3 + i] == word[i];
    assert name[4] == 'b' && name[5] == 'o' && name[6] == 'x' && name[7] == 'a' && name[8] == 'i' by {
      assert word[1] == 'b' && word[2] == 'o' && word[3] == 'x' && word[4] == 'a' && word[5] == 'i';
    }
  }

  /** An accepted name mentions BoxAI. */
  lemma AcceptedMentions(u: Unicode, name: string)
    requires Standard(u) && Accepts(u, name)
    ensures MentionsBoxai(u, name)
  {
    AcceptedWord(u, name);
    var pre, word, post := name[..4], name[4..9], name[9..];
    assert name == pre + (word + post);
    LowerAppend(u, pre, word + post);
    LowerAppend(u, word, post);
    LowerLetters(u, word);
    OccursAfter(Lower(u, pre), word, Lower(u, post));
  }

  lemma OccursAfter(pre: string, w: string, post: string)
    ensures Contains(pre + (w + post), w)
  {
    assert Occurs(pre + (w + post), w, |pre|);
  }

  // ---------------------------------------------------------------- the same, spelled out

  const SLUG: string := "abcdefghijklmnopqrstuvwxyz0123456789_"

  predicate Spells(u: Unicode, name: string, a: char, b: char, slug: string, end: string) {
    && name == "9" + [a] + [b] + "_boxai_" + slug + ".sql" + end
    && u.digit(a).Some? && u.digit(b).Some? && slug != "" && (forall c :: c in slug ==> c in SLUG)
    && (end == "" || end == "\n")
  }

  lemma SlugChars(slug: string, c: char)
    requires slug == SLUG
    ensures IsSlug(c) <==> c in slug
  {
    assert |slug| == 37;
    assert forall i :: 0 <= i < 26 ==> slug[i] as int == 'a' as int + i;
    assert forall i :: 26 <= i < 36 ==> slug[i] as int == '0' as int + i - 26;
    assert slug[36] == '_';
    if 'a' <= c <= 'z' {
      assert slug[c as int - 'a' as int] == c;
    } else if '0' <= c <= '9' {
      assert slug[c as int - '0' as int + 26] == c;
    }
  }

  /** An accepted name is a nine, two digits, the word, a slug of small letters, digits and underscores, and
      the suffix, perhaps before a newline; and every such name is accepted. */
  lemma AcceptsIffSpelled(u: Unicode, name: string)
    ensures Accepts(u, name) <==> exists a, b, slug, end :: Spells(u, name, a, b, slug, end)
  {
    forall c ensures IsSlug(c) <==> c in SLUG {
      SlugChars(SLUG, c);
    }
    if Accepts(u, name) {
      SpelledOut(u, name);
    }
    if a, b, slug, end :| Spells(u, name, a, b, slug, end) {
      SpelledIsAccepted(u, name, a, b, slug, end);
    }
  }

  lemma SpelledOut(u: Unicode, name: string)
    requires Accepts(u, name) && forall c :: IsSlug(c) <==> c in SLUG
    ensures exists a, b, slug, end :: Spells(u, name, a, b, slug, end)
  {
    var s := Chomp(name);
    var head, slug, end := s[..10], s[10..|s| - 4], name[|s|..];
    assert s == head + slug + ".sql" && name == s + end;
    assert head == [head[0]] + [head[1]] + [head[2]] + head[3..];
    assert forall c :: c in slug ==> IsSlug(c);
    assert Spells(u, name, head[1], head[2], slug, end);
  }

  lemma SpelledIsAccepted(u: Unicode, name: string, a: char, b: char, slug: string, end: string)
    requires Spells(u, name, a, b, slug, end) && forall c :: IsSlug(c) <==> c in SLUG
    ensures Accepts(u, name)
  {
    var head := "9" + [a] + [b] + "_boxai_";
    var s := head + slug + ".sql";
    assert name == s + end;
    assert s[|s| - 1] == 'l';
    assert Chomp(name) == s;
    assert s[..10] == head && head[3..] == "_boxai_" && s[10..|s| - 4] == slug && s[|s| - 4..] == ".sql";
    assert forall i :: 0 <= i < |slug| ==> slug[i] in slug;
  }

  /** A word is contained exactly when the text can be cut around it. */
  lemma ContainsIff(s: string, w: string)
    ensures Contains(s, w) <==> exists pre, post :: s == pre + w + post
  {
    if i :| 0 <= i <= |s| && Occurs(s, w, i) {
      assert s == s[..i] + w + s[i + |w|..];
    }
    if pre, post :| s == pre + w + post {
      assert Occurs(s, w, |pre|);
    }
  }

  predicate Ascii(s: string) {
    forall i :: 0 <= i < |s| ==> s[i] as int < 128
  }

  lemma {:induction false} LowerAscii(u: Unicode, s: string)
    requires Standard(u) && Ascii(s)
    ensures |Lower(u, s)| == |s| && forall i :: 0 <= i < |s| ==> Lower(u, s)[i] == AsciiLower(s[i])
  {
    if s != "" {
      LowerAscii(u, s[1..]);
    }
  }

  predicate BoxaiAt(name: string, i: int) {
    0 <= i && i + 5 <= |name|
    && AsciiLower(name[i]) == 'b' && AsciiLower(name[i + 1]) == 'o' && AsciiLower(name[i + 2]) == 'x'
    && AsciiLower(name[i + 3]) == 'a' && AsciiLower(name[i + 4]) == 'i'
  }

  /** An ASCII name mentions BoxAI exactly when the five letters follow one another, each in either case. */
  lemma MentionsIff(u: Unicode, name: string)
    requires Standard(u) && Ascii(name)
    ensures MentionsBoxai(u, name) <==> exists i :: BoxaiAt(name, i)
  {
    var lower, word := Lower(u, name), "boxai";
    LowerAscii(u, name);
    if i :| 0 <= i <= |lower| && Occurs(lower, word, i) {
      var found := lower[i..i + 5];
      assert found[0] == lower[i] && found[1] == lower[i + 1] && found[2] == lower[i + 2];
      assert found[3] == lower[i + 3] && found[4] == lower[i + 4];
      assert BoxaiAt(name, i);
    }
    if i :| BoxaiAt(name, i) {
      assert lower[i..i + 5] == word;
      assert Occurs(lower, word, i);
    }
  }

  predicate StartsWithDigit(u: Unicode, s: string) {
    s != "" && u.digit(s[0]).Some?
  }

  predicate AllDigits(u: Unicode, s: string) {
    forall i :: 0 <= i < |s| ==> u.digit(s[i]).Some?
  }

  lemma {:induction false} DigitsAppend(u: Unicode, ds: string, rest: string)
    requires AllDigits(u, ds)
    ensures Digits(u, ds + rest) == Digits(u, ds) + Digits(u, rest) && |Digits(u, ds)| == |ds|
  {
    if ds == "" {
      assert ds + rest == rest;
    } else {
      assert (ds + rest)[1..] == ds[1..] + rest;
      DigitsAppend(u, ds[1..], rest);
    }
  }

  /** A name has a numeric prefix exactly when it begins with a digit; a single digit is its own value, and
      each further digit adds itself to ten times what came before. */
  lemma PrefixIs(u: Unicode, ds: string, c: char, rest: string)
    requires AllDigits(u, ds) && u.digit(c).Some? && !StartsWithDigit(u, rest)
    ensures Prefix(u, rest) == None
    ensures Prefix(u, [c] + rest) == Some(u.digit(c).value)
    ensures ds != "" ==>
      Prefix(u, ds + rest).Some? && Prefix(u, ds + [c] + rest) == Some(10 * Prefix(u, ds + rest).value + u.digit(c).value)
  {
    var d := u.digit(c).value;
    assert AllDigits(u, [c]);
    assert [c][1..] == "";
    assert Digits(u, "") == [] && Digits(u, [c]) == [d];
    DigitsAppend(u, [c], rest);
    DigitsAppend(u, ds, rest);
    DigitsAppend(u, ds, [c] + rest);
    assert ds + [c] + rest == ds + ([c] + rest);
    assert Digits(u, rest) == [];
    var front := Digits(u, ds);
    DecimalAppend([], d);
    DecimalAppend(front, d);
    assert [] + [d] == [d] + [] == [d] && front + [] == front;
    assert Digits(u, [c] + rest) == [d] && Digits(u, ds + rest) == front;
    assert Digits(u, ds + [c] + rest) == front + [d];
  }

  lemma DecimalAppend(digits: seq<nat>, d: nat)
    ensures Decimal(digits + [d]) == 10 * Decimal(digits) + d
  {
    assert (digits + [d])[..|digits|] == digits;
  }
}
