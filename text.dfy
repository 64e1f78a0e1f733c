/**
 * The byte-string operations of Go's `strings` and `path/filepath` packages that the
 * template engine relies on, over `string` (one `char` per byte).
 */
module Text {

  /** strings.HasPrefix */
  predicate HasPrefix(s: string, p: string) {
    |p| <= |s| && s[..|p|] == p
  }

  /** strings.HasSuffix */
  predicate HasSuffix(s: string, p: string) {
    |p| <= |s| && s[|s| - |p|..] == p
  }

  /** strings.Contains, as a left-to-right search. */
  predicate Contains(s: string, sub: string)
    decreases |s|
  {
    HasPrefix(s, sub) || (|s| > 0 && Contains(s[1..], sub))
  }

  /** `sub` occurs in `s` starting at index i. */
  predicate OccursAt(s: string, sub: string, i: int) {
    0 <= i && i + |sub| <= |s| && s[i..i + |sub|] == sub
  }

  /** Contains means an occurrence at some index. */
  lemma {:induction false} ContainsIff(s: string, sub: string)
    ensures Contains(s, sub) <==> exists i :: OccursAt(s, sub, i)
    decreases |s|
  {
    if |sub| == 0 {
      assert s[..0] == sub;
      assert OccursAt(s, sub, 0);
    } else if HasPrefix(s, sub) {
      assert OccursAt(s, sub, 0);
    } else if |s| > 0 {
      ContainsIff(s[1..], sub);
      if Contains(s[1..], sub) {
        var j :| OccursAt(s[1..], sub, j);
        assert s[1..][j..j + |sub|] == s[j + 1..j + 1 + |sub|];
        assert OccursAt(s, sub, j + 1);
      }
      if i :| OccursAt(s, sub, i) {
        assert i != 0;
        assert s[1..][i - 1..i - 1 + |sub|] == s[i..i + |sub|];
        assert OccursAt(s[1..], sub, i - 1);
      }
    }
  }

  /**
   * strings.ReplaceAll: every leftmost, non-overlapping occurrence of `find` is replaced by
   * `repl`, scanning left to right. An empty `find` matches before every byte and at the end.
   */
  function ReplaceAll(s: string, find: string, repl: string): string
    decreases |s|
  {
    if |find| == 0 then
      (if |s| == 0 then repl else repl + [s[0]] + ReplaceAll(s[1..], find, repl))
    else if |s| == 0 then []
    else if HasPrefix(s, find) then repl + ReplaceAll(s[|find|..], find, repl)
    else [s[0]] + ReplaceAll(s[1..], find, repl)
  }

  /** A replacement leaves a string without occurrences unchanged. */
  lemma {:induction false} ReplaceAllAbsent(s: string, find: string, repl: string)
    requires |find| > 0 && !Contains(s, find)
    ensures ReplaceAll(s, find, repl) == s
    decreases |s|
  {
    if |s| > 0 {
      ReplaceAllAbsent(s[1..], find, repl);
      assert [s[0]] + s[1..] == s;
    }
  }

  /** No occurrence of `find` starts at an index below `n`. */
  predicate NoMatchBefore(s: string, n: int, find: string) {
    forall q :: 0 <= q < n && q <= |s| ==> !HasPrefix(s[q..], find)
  }

  /** Where no occurrence starts, the scan copies one byte and moves on. */
  lemma ReplaceAllStep(s: string, find: string, repl: string)
    requires |find| > 0 && |s| > 0 && !HasPrefix(s, find)
    ensures ReplaceAll(s, find, repl) == [s[0]] + ReplaceAll(s[1..], find, repl)
  {
  }

  lemma NoMatchShift(s: string, n: nat, find: string)
    requires 0 < n <= |s| && NoMatchBefore(s, n, find)
    ensures NoMatchBefore(s[1..], n - 1, find) && !HasPrefix(s, find)
  {
    assert s[0..] == s;
    forall q | 0 <= q < n - 1 && q <= |s[1..]|
      ensures !HasPrefix(s[1..][q..], find)
    {
      assert s[1..][q..] == s[q + 1..];
    }
  }

  /** A byte copied in front of a copied slice and a tail: the prefix of `s` up to `n`, then the tail. */
  lemma SpliceHead(s: string, n: nat, whole: string, afterHead: string, tail: string)
    requires 0 < n <= |s|
    requires whole == [s[0]] + afterHead && afterHead == s[1..][..n - 1] + tail
    ensures whole == s[..n] + tail
  {
    assert [s[0]] + s[1..][..n - 1] == s[..n];
    assert [s[0]] + (s[1..][..n - 1] + tail) == ([s[0]] + s[1..][..n - 1]) + tail;
  }

  /** One step of ReplaceAllCopies: a copied first byte in front of what the rest of `s` copies. */
  lemma CopiesHead(s: string, n: nat, find: string, repl: string)
    requires |find| > 0 && 0 < n <= |s| && !HasPrefix(s, find)
    requires ReplaceAll(s[1..], find, repl) == s[1..][..n - 1] + ReplaceAll(s[1..][n - 1..], find, repl)
    ensures ReplaceAll(s, find, repl) == s[..n] + ReplaceAll(s[n..], find, repl)
  {
    ReplaceAllStep(s, find, repl);
    assert s[1..][n - 1..] == s[n..];
    SpliceHead(s, n, ReplaceAll(s, find, repl), ReplaceAll(s[1..], find, repl), ReplaceAll(s[n..], find, repl));
  }

  /** The scan copies a prefix of `s` in which no occurrence of `find` starts. */
  lemma {:induction false} ReplaceAllCopies(s: string, n: nat, find: string, repl: string)
    requires |find| > 0 && n <= |s| && NoMatchBefore(s, n, find)
    ensures ReplaceAll(s, find, repl) == s[..n] + ReplaceAll(s[n..], find, repl)
    decreases n
  {
    if n == 0 {
      assert s[..0] + s[0..] == s;
    } else {
      NoMatchShift(s, n, find);
      ReplaceAllCopies(s[1..], n - 1, find, repl);
      CopiesHead(s, n, find, repl);
    }
  }

  /**
   * When no occurrence of `find` starts inside `a` (so none straddles the boundary either),
   * the replacement passes `a` through untouched and continues on `x`.
   */
  lemma ReplaceAllSkip(a: string, x: string, find: string, repl: string)
    requires |find| > 0 && NoMatchBefore(a + x, |a|, find)
    ensures ReplaceAll(a + x, find, repl) == a + ReplaceAll(x, find, repl)
  {
    ReplaceAllCopies(a + x, |a|, find, repl);
    assert (a + x)[..|a|] == a && (a + x)[|a|..] == x;
  }

  /** The common case of ReplaceAllSkip: `a` does not contain the first byte of `find`. */
  lemma ReplaceAllSkipChar(a: string, x: string, find: string, repl: string)
    requires |find| > 0 && find[0] !in a
    ensures ReplaceAll(a + x, find, repl) == a + ReplaceAll(x, find, repl)
  {
    forall q | 0 <= q < |a| ensures !HasPrefix((a + x)[q..], find) {
      assert (a + x)[q..][0] == a[q];
    }
    ReplaceAllSkip(a, x, find, repl);
  }

  /** An occurrence at the front is replaced and the scan resumes after it. */
  lemma ReplaceAllFront(x: string, find: string, repl: string)
    requires |find| > 0
    ensures ReplaceAll(find + x, find, repl) == repl + ReplaceAll(x, find, repl)
  {
    assert HasPrefix(find + x, find);
    assert (find + x)[|find|..] == x;
  }

  /** strings.ToUpper restricted to ASCII. */
  function UpperChar(c: char): char {
    if 'a' <= c <= 'z' then (c as int - 32) as char else c
  }

  /** strings.ToLower restricted to ASCII. */
  function LowerChar(c: char): char {
    if 'A' <= c <= 'Z' then (c as int + 32) as char else c
  }

  function ToUpper(s: string): (r: string)
    ensures |r| == |s| && forall i :: 0 <= i < |s| ==> r[i] == UpperChar(s[i])
  {
    seq(|s|, i requires 0 <= i < |s| => UpperChar(s[i]))
  }

  function ToLower(s: string): (r: string)
    ensures |r| == |s| && forall i :: 0 <= i < |s| ==> r[i] == LowerChar(s[i])
  {
    seq(|s|, i requires 0 <= i < |s| => LowerChar(s[i]))
  }

  /** unicode.IsSpace restricted to its ASCII members. */
  predicate IsSpace(c: char) {
    c == ' ' || c == '\t' || c == '\n' || c == '\r' || c == 11 as char || c == 12 as char
  }

  function TrimLeft(s: string): (r: string)
    ensures |r| <= |s| && r == s[|s| - |r|..]
    ensures |r| > 0 ==> !IsSpace(r[0])
    ensures forall i :: 0 <= i < |s| - |r| ==> IsSpace(s[i])
    decreases |s|
  {
    if |s| > 0 && IsSpace(s[0]) then TrimLeft(s[1..]) else s
  }

  function TrimRight(s: string): (r: string)
    ensures |r| <= |s| && r == s[..|r|]
    ensures |r| > 0 ==> !IsSpace(r[|r| - 1])
    ensures forall i :: |r| <= i < |s| ==> IsSpace(s[i])
    decreases |s|
  {
    if |s| > 0 && IsSpace(s[|s| - 1]) then TrimRight(s[..|s| - 1]) else s
  }

  /** strings.TrimSpace: the slice of `s` left once the spaces at both ends are cut off. */
  function TrimSpace(s: string): (r: string)
    ensures |r| <= |s|
    ensures |r| > 0 ==> !IsSpace(r[0]) && !IsSpace(r[|r| - 1])
    ensures exists a, b ::
              && 0 <= a <= b <= |s| && r == s[a..b]
              && (forall i :: 0 <= i < a ==> IsSpace(s[i]))
              && (forall i :: b <= i < |s| ==> IsSpace(s[i]))
  {
    var l := TrimLeft(s);
    var a := |s| - |l|;
    var r := TrimRight(l);
    assert r == s[a..a + |r|];
    assert forall i :: a + |r| <= i < |s| ==> IsSpace(s[i]) by {
      forall i | a + |r| <= i < |s|
        ensures IsSpace(s[i])
      {
        assert s[i] == l[i - a];
      }
    }
    r
  }

  /** Trimming only removes characters: whatever TrimSpace returns was in its input. */
  lemma TrimSpaceKeeps(s: string, c: char)
    ensures c in TrimSpace(s) ==> c in s
  {
    var l := TrimLeft(s);
    var r := TrimRight(l);
    if c in r {
      var j :| 0 <= j < |r| && r[j] == c;
      assert l[j] == c;
      assert s[|s| - |l| + j] == c;
    }
  }

  /** Index of the first occurrence of `c`, or |s| when there is none. */
  function IndexOf(s: string, c: char): (i: nat)
    ensures i <= |s| && c !in s[..i]
    ensures i < |s| ==> s[i] == c
    ensures i == |s| <==> c !in s
    decreases |s|
  {
    if |s| == 0 then 0 else if s[0] == c then 0 else 1 + IndexOf(s[1..], c)
  }

  /** Index just past the last '/' of `s`, or 0 when it has none. */
  function AfterLastSlash(s: string): (i: nat)
    ensures i <= |s| && '/' !in s[i..]
    ensures i > 0 ==> s[i - 1] == '/'
    decreases |s|
  {
    if |s| == 0 then 0 else if s[|s| - 1] == '/' then |s| else AfterLastSlash(s[..|s| - 1])
  }

  function DropTrailingSlashes(s: string): (r: string)
    ensures |r| <= |s| && r == s[..|r|] && (|r| > 0 ==> r[|r| - 1] != '/')
    ensures forall j :: |r| <= j < |s| ==> s[j] == '/'
    decreases |s|
  {
    if |s| > 0 && s[|s| - 1] == '/' then DropTrailingSlashes(s[..|s| - 1]) else s
  }

  /**
   * filepath.Base with '/' as the separator: the last element after trailing slashes are
   * removed; "." for the empty path and "/" for a path of slashes only.
   */
  function Base(path: string): (b: string)
    ensures |b| > 0
    ensures |path| > 0 && '/' !in path ==> b == path
  {
    if |path| == 0 then "."
    else
      var p := DropTrailingSlashes(path);
      var e := p[AfterLastSlash(p)..];
      if |e| == 0 then "/" else e
  }

  /** The index just past the last '/' of `dir + "/" + name`, for a name without '/'. */
  lemma {:induction false} AfterLastSlashJoin(dir: string, name: string)
    requires '/' !in name
    ensures AfterLastSlash(dir + "/" + name) == |dir| + 1
    decreases |name|
  {
    var s := dir + "/" + name;
    if |name| == 0 {
      assert s[|s| - 1] == '/';
    } else {
      var name' := name[..|name| - 1];
      assert s[..|s| - 1] == dir + "/" + name';
      assert name[|name| - 1] in name;
      AfterLastSlashJoin(dir, name');
    }
  }

  /** The base of a path joined from a directory and a plain file name is that name. */
  lemma BaseJoin(dir: string, name: string)
    requires '/' !in name && name != ""
    ensures Base(dir + "/" + name) == name
  {
    var s := dir + "/" + name;
    assert s[|s| - 1] == name[|name| - 1] && name[|name| - 1] in name;
    assert DropTrailingSlashes(s) == s;
    AfterLastSlashJoin(dir, name);
    assert s[|dir| + 1..] == name;
  }

  /** A path ends with the last character of its base, or with a slash. */
  lemma BaseLastChar(path: string)
    requires |path| > 0 && Base(path) != "/"
    ensures path[|path| - 1] == '/' || path[|path| - 1] == Base(path)[|Base(path)| - 1]
  {
    var p := DropTrailingSlashes(path);
    if |p| < |path| {
      assert path[|path| - 1] == '/';
    } else {
      assert p == path;
    }
  }
}
