/** The Python string operations the core relies on, for ASCII text:
    `str.lower`, `str.strip`, the substring test `sub in s`, `startswith`,
    `endswith`, the slice `s[:n]`, `str.splitlines` (on '\n') and
    `os.path.basename` (on '/'). */
module Text {

  function LowerChar(c: char): char
  {
    if 'A' <= c <= 'Z' then (c as int + 32) as char else c
  }

  /** `s.lower()` */
  function Lower(s: string): string
  {
    seq(|s|, i requires 0 <= i < |s| => LowerChar(s[i]))
  }

  predicate IsUpper(c: char)
  {
    'A' <= c <= 'Z'
  }

  /** Lowering twice is lowering once, and a lowered string has no upper-case letter. */
  lemma LowerIdempotent(s: string)
    ensures Lower(Lower(s)) == Lower(s)
    ensures forall i :: 0 <= i < |Lower(s)| ==> !IsUpper(Lower(s)[i])
  {
  }

  predicate OccursAt(s: string, sub: string, i: nat)
  {
    i + |sub| <= |s| && s[i..i + |sub|] == sub
  }

  /** `sub in s` */
  predicate Contains(s: string, sub: string)
  {
    exists i: nat :: i <= |s| && OccursAt(s, sub, i)
  }

  /** A string with an upper-case letter never occurs in a lowered one. */
  lemma UpperNeverInLower(s: string, sub: string, k: nat)
    requires k < |sub| && IsUpper(sub[k])
    ensures !Contains(Lower(s), sub)
  {
  }

  lemma LowerAppend(a: string, b: string)
    ensures Lower(a + b) == Lower(a) + Lower(b)
  {
  }

  /** A string occurs where it was put. */
  lemma OccursBetween(x: string, sub: string, y: string)
    ensures OccursAt(x + sub + y, sub, |x|) && Contains(x + sub + y, sub)
  {
    var s := x + sub + y;
    assert s[|x|..|x| + |sub|] == sub;
    assert |x| <= |s| && OccursAt(s, sub, |x|);
  }

  predicate StartsWith(s: string, prefix: string)
  {
    |prefix| <= |s| && s[..|prefix|] == prefix
  }

  predicate EndsWith(s: string, suffix: string)
  {
    |suffix| <= |s| && s[|s| - |suffix|..] == suffix
  }

  /** `s[:n]` */
  function Take(s: string, n: nat): (r: string)
    ensures |r| <= n && r <= s
    ensures |s| <= n ==> r == s
  {
    if |s| <= n then s else s[..n]
  }

  /** The characters `str.isspace` accepts below 128. */
  predicate IsSpace(c: char)
  {
    c == ' ' || '\t' <= c <= '\r' || '\U{1C}' <= c <= '\U{1F}'
  }

  function TrimStart(s: string): string
  {
    if s != [] && IsSpace(s[0]) then TrimStart(s[1..]) else s
  }

  function TrimEnd(s: string): string
  {
    if s != [] && IsSpace(s[|s| - 1]) then TrimEnd(s[..|s| - 1]) else s
  }

  /** `s.strip()` */
  function Strip(s: string): string
  {
    TrimEnd(TrimStart(s))
  }

  /** Position of the first `c` in `s`, or `|s|` when there is none. */
  function IndexOf(s: string, c: char): (i: nat)
    ensures i <= |s|
    ensures i < |s| ==> s[i] == c
    ensures forall j :: 0 <= j < i ==> s[j] != c
  {
    if s == [] then 0
    else if s[0] == c then 0
    else 1 + IndexOf(s[1..], c)
  }

  /** `s.splitlines()` with '\n' as the only line break: the pieces between
      line breaks, with no empty last piece after a final break. */
  function SplitLines(s: string): seq<string>
    decreases |s|
  {
    if s == [] then []
    else
      var i := IndexOf(s, '\n');
      if i == |s| then [s] else [s[..i]] + SplitLines(s[i + 1..])
  }

  /** Lines are what lies between the breaks. */
  lemma SplitLinesCons(line: string, rest: string)
    requires '\n' !in line
    ensures SplitLines(line + "\n" + rest) == [line] + SplitLines(rest)
  {
    var s := line + "\n" + rest;
    assert s[|line|] == '\n';
    assert s[..|line|] == line;
    assert s[|line| + 1..] == rest;
  }

  lemma SplitLinesLast(line: string)
    requires '\n' !in line && line != []
    ensures SplitLines(line) == [line]
  {
  }

  /** `os.path.basename(path)`: what follows the last '/'. */
  function Basename(path: string): (r: string)
  {
    if path == [] || path[|path| - 1] == '/' then []
    else Basename(path[..|path| - 1]) + [path[|path| - 1]]
  }

  /** The base name of `dir/name` is `name`, whatever the directory. */
  lemma {:induction false} BasenameOfJoin(dir: string, name: string)
    requires '/' !in name
    ensures Basename(dir + "/" + name) == name
    ensures Basename(name) == name
    decreases |name|
  {
    if name != [] {
      var init := name[..|name| - 1];
      assert '/' !in init by {
        assert forall c :: c in init ==> c in name;
      }
      BasenameOfJoin(dir, init);
      assert (dir + "/" + name)[..|dir + "/" + name| - 1] == dir + "/" + init;
      assert name[..|name| - 1] == init;
    } else {
      assert (dir + "/" + name)[|dir + "/" + name| - 1] == '/';
    }
  }
}
