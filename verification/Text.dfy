/** The string operations the CI tools use. */
module Text {

  /** The characters `str.strip` removes. */
  predicate IsSpace(c: char) {
    var n := c as int;
    || 0x09 <= n <= 0x0D || 0x1C <= n <= 0x20 || n == 0x85 || n == 0xA0 || n == 0x1680
    || 0x2000 <= n <= 0x200A || n == 0x2028 || n == 0x2029 || n == 0x202F || n == 0x205F || n == 0x3000
  }

  function StripLeft(s: string): string {
    if s != [] && IsSpace(s[0]) then StripLeft(s[1..]) else s
  }

  function StripRight(s: string): string {
    if s != [] && IsSpace(s[|s| - 1]) then StripRight(s[..|s| - 1]) else s
  }

  function Strip(s: string): string {
    StripRight(StripLeft(s))
  }

  predicate Blank(s: string) {
    forall c :: c in s ==> IsSpace(c)
  }

  /** Nothing to strip. */
  predicate Stripped(s: string) {
    s == [] || (!IsSpace(s[0]) && !IsSpace(s[|s| - 1]))
  }

  lemma {:induction false} StripLeftBlank(pre: string, s: string)
    requires Blank(pre) && s != [] && !IsSpace(s[0])
    ensures StripLeft(pre + s) == s
  {
    if pre == [] {
      assert pre + s == s;
    } else {
      assert pre[0] in pre;
      assert (pre + s)[1..] == pre[1..] + s;
      StripLeftBlank(pre[1..], s);
    }
  }

  lemma {:induction false} StripRightBlank(s: string, post: string)
    requires Blank(post) && s != [] && !IsSpace(s[|s| - 1])
    ensures StripRight(s + post) == s
  {
    if post == [] {
      assert s + post == s;
    } else {
      var n := |post| - 1;
      assert post[n] in post;
      assert (s + post)[..|s + post| - 1] == s + post[..n];
      StripRightBlank(s, post[..n]);
    }
  }

  /** Stripping removes exactly the blank margins. */
  lemma StripMargins(pre: string, s: string, post: string)
    requires Blank(pre) && Blank(post) && s != [] && Stripped(s)
    ensures Strip(pre + s + post) == s
  {
    assert pre + s + post == pre + (s + post);
    StripLeftBlank(pre, s + post);
    StripRightBlank(s, post);
  }

  predicate StartsWith(s: string, prefix: string) {
    |prefix| <= |s| && s[..|prefix|] == prefix
  }

  predicate EndsWith(s: string, suffix: string) {
    |suffix| <= |s| && s[|s| - |suffix|..] == suffix
  }

  /** The position of the first occurrence of c, or the length of s. */
  function IndexOf(s: string, c: char): (i: nat)
    ensures i <= |s| && (i < |s| ==> s[i] == c) && c !in s[..i]
    ensures i == |s| <==> c !in s
  {
    if s == [] || s[0] == c then 0 else
      assert s == [s[0]] + s[1..];
      1 + IndexOf(s[1..], c)
  }

  lemma {:induction false} IndexOfAfter(key: string, c: char, rest: string)
    requires c !in key
    ensures IndexOf(key + [c] + rest, c) == |key|
  {
    if key == [] {
      assert key + [c] + rest == [c] + rest;
    } else {
      assert key[0] in key;
      assert (key + [c] + rest)[1..] == key[1..] + [c] + rest;
      IndexOfAfter(key[1..], c, rest);
    }
  }

  /** Splitting at every occurrence of c. */
  function Split(s: string, c: char): seq<string>
    decreases |s|
  {
    var i := IndexOf(s, c);
    if i == |s| then [s] else [s[..i]] + Split(s[i + 1..], c)
  }

  lemma SplitFirst(field: string, c: char, rest: string)
    requires c !in field
    ensures Split(field + [c] + rest, c) == [field] + Split(rest, c)
  {
    IndexOfAfter(field, c, rest);
    assert (field + [c] + rest)[..|field|] == field;
    assert (field + [c] + rest)[|field| + 1..] == rest;
  }

  lemma SplitWhole(field: string, c: char)
    requires c !in field
    ensures Split(field, c) == [field]
  {
  }

  /** What follows the last occurrence of c is the last part. */
  lemma {:induction false} SplitLast(s: string, c: char, last: string)
    requires c !in last
    ensures var parts := Split(s + [c] + last, c); parts != [] && parts[|parts| - 1] == last
    decreases |s|
  {
    var i := IndexOf(s, c);
    if i == |s| {
      SplitFirst(s, c, last);
      SplitWhole(last, c);
    } else {
      var rest := s[i + 1..] + [c] + last;
      assert s + [c] + last == s[..i] + [c] + rest;
      SplitFirst(s[..i], c, rest);
      SplitLast(s[i + 1..], c, last);
    }
  }
}
