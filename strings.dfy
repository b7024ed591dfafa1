/** Error codes shared by the engine (vc::Error) and the option type used for nullable results. */
module VenomError {
  datatype Error =
    | Success
    | Failure
    | InvalidArgument
    | OutOfMemory
    | DeviceLost
    | InitializationFailed
    | InvalidUse
    | FeatureNotSupported
    | Unknown

  datatype Option<T> = None | Some(value: T)
}

/** Character-sequence searches used by std::string and Ruby String methods. */
module Strings {
  import opened VenomError

  predicate IsPrefix(p: string, s: string) { |p| <= |s| && s[..|p|] == p }

  predicate IsSuffix(p: string, s: string) { |p| <= |s| && s[|s| - |p|..] == p }

  /** `sub` occurs in `s` starting at index `i`. */
  predicate OccursAt(sub: string, s: string, i: int) {
    0 <= i && i + |sub| <= |s| && s[i..i + |sub|] == sub
  }

  /** The first occurrence of `sub` at or after `from` (std::string::find). */
  function FindFrom(s: string, sub: string, from: nat): (r: Option<nat>)
    decreases |s| - from
    ensures r.Some? ==> from <= r.value && r.value + |sub| <= |s|
  {
    if from + |sub| > |s| then None
    else if s[from..from + |sub|] == sub then Some(from)
    else FindFrom(s, sub, from + 1)
  }

  /** FindFrom finds the first occurrence, and finds nothing only when there is none. */
  lemma {:induction false} FindFromCorrect(s: string, sub: string, from: nat)
    decreases |s| - from
    ensures var r := FindFrom(s, sub, from);
      && (r.Some? ==> from <= r.value && OccursAt(sub, s, r.value))
      && (r.Some? ==> forall j :: from <= j < r.value ==> !OccursAt(sub, s, j))
      && (r.None? ==> forall j :: from <= j ==> !OccursAt(sub, s, j))
  {
    if from + |sub| <= |s| && s[from..from + |sub|] != sub {
      FindFromCorrect(s, sub, from + 1);
    }
  }

  function Find(s: string, sub: string): Option<nat> { FindFrom(s, sub, 0) }

  /** Substring test (std::string::find != npos, Ruby include? and a literal regexp match). */
  predicate Contains(s: string, sub: string) { Find(s, sub).Some? }

  lemma ContainsAt(s: string, sub: string, i: int)
    requires OccursAt(sub, s, i)
    ensures Contains(s, sub)
  {
    FindFromCorrect(s, sub, 0);
  }

  lemma FindPrefix(s: string, p: string)
    requires IsPrefix(p, s)
    ensures Find(s, p) == Some(0)
  {
    assert OccursAt(p, s, 0);
    FindFromCorrect(s, p, 0);
  }

  /** A string containing `t` contains every prefix of `t`. */
  lemma ContainsPrefixOf(s: string, t: string, n: nat)
    requires Contains(s, t) && n <= |t|
    ensures Contains(s, t[..n])
  {
    FindFromCorrect(s, t, 0);
    var i := Find(s, t).value;
    assert s[i..i + n] == t[..n];
    ContainsAt(s, t[..n], i);
  }

  /** What occurs in either part of a concatenation occurs in the whole. */
  lemma ContainsInConcat(a: string, b: string, t: string)
    requires Contains(a, t) || Contains(b, t)
    ensures Contains(a + b, t)
  {
    if Contains(a, t) {
      FindFromCorrect(a, t, 0);
      var i := Find(a, t).value;
      assert (a + b)[i..i + |t|] == a[i..i + |t|];
      ContainsAt(a + b, t, i);
    } else {
      FindFromCorrect(b, t, 0);
      var i := Find(b, t).value;
      assert (a + b)[|a| + i..|a| + i + |t|] == b[i..i + |t|];
      ContainsAt(a + b, t, |a| + i);
    }
  }

  /** Index of the last occurrence of `c` (std::string::find_last_of with one character). */
  function LastIndexOf(s: string, c: char): (r: Option<nat>)
    ensures r.Some? ==> r.value < |s|
  {
    if |s| == 0 then None
    else if s[|s| - 1] == c then Some(|s| - 1)
    else LastIndexOf(s[..|s| - 1], c)
  }

  lemma {:induction false} LastIndexOfCorrect(s: string, c: char)
    ensures var r := LastIndexOf(s, c);
      && (r.Some? ==> r.value < |s| && s[r.value] == c)
      && (r.Some? ==> forall j :: r.value < j < |s| ==> s[j] != c)
      && (r.None? ==> forall j :: 0 <= j < |s| ==> s[j] != c)
  {
    if |s| > 0 && s[|s| - 1] != c {
      LastIndexOfCorrect(s[..|s| - 1], c);
    }
  }

  /** The last `c` is the one followed by no other. */
  lemma LastIndexOfBefore(a: string, c: char, b: string)
    requires c !in b
    ensures LastIndexOf(a + [c] + b, c) == Some(|a|)
  {
    var s := a + [c] + b;
    LastIndexOfCorrect(s, c);
    assert s[|a|] == c;
    forall j | |a| < j < |s|
      ensures s[j] != c
    {
      assert s[j] == b[j - |a| - 1];
    }
  }

  /** Number of occurrences of `c` in `s` (Ruby String#count with one character). */
  function CountChar(s: string, c: char): nat {
    if |s| == 0 then 0 else (if s[0] == c then 1 else 0) + CountChar(s[1..], c)
  }

  lemma {:induction false} CountCharAppend(a: string, b: string, c: char)
    ensures CountChar(a + b, c) == CountChar(a, c) + CountChar(b, c)
  {
    if |a| > 0 {
      assert (a + b)[1..] == a[1..] + b;
      CountCharAppend(a[1..], b, c);
    } else {
      assert a + b == b;
    }
  }

  lemma {:induction false} CountCharAbsent(s: string, c: char)
    requires c !in s
    ensures CountChar(s, c) == 0
  {
    if |s| > 0 {
      CountCharAbsent(s[1..], c);
    }
  }
}

/**
 * The Ruby String and File behaviour the shader build scripts rely on:
 * `split` with one separator character (trailing empty fields dropped),
 * array indexing with negative indices and nil, `sub` and `File.basename`.
 */
module RubyText {
  import opened VenomError
  import opened Strings

  /** All fields of `s` between occurrences of `c`, empty ones included; never empty. */
  function SplitAll(s: string, c: char): (r: seq<string>)
    ensures |r| >= 1
  {
    if |s| == 0 then [""] else Cons(s[0], SplitAll(s[1..], c), c)
  }

  /** Puts one more character in front of the fields of the rest of a string. */
  function Cons(ch: char, rest: seq<string>, c: char): (r: seq<string>)
    requires |rest| >= 1
    ensures |r| >= 1
  {
    if ch == c then [""] + rest else [[ch] + rest[0]] + rest[1..]
  }

  /** Ruby's split drops trailing empty fields. */
  function DropTrailingEmpty(fields: seq<string>): (r: seq<string>)
    ensures |r| <= |fields| && r == fields[..|r|]
  {
    if |fields| > 0 && fields[|fields| - 1] == "" then DropTrailingEmpty(fields[..|fields| - 1]) else fields
  }

  /** String#split(c) for a one-character separator. */
  function Split(s: string, c: char): seq<string> { DropTrailingEmpty(SplitAll(s, c)) }

  /** `a[i]` for an array of strings: negative indices count from the end; out of range is nil. */
  function At(a: seq<string>, i: int): Option<string> {
    if 0 <= i < |a| then Some(a[i])
    else if -|a| <= i < 0 then Some(a[|a| + i])
    else None
  }

  /** String interpolation of a possibly-nil string ("#{nil}" is empty), also `a[i] || ''`. */
  function Interpolate(o: Option<string>): string { if o.Some? then o.value else "" }

  /** String#sub(pattern, '') with a literal pattern: removes the first occurrence only. */
  function RemoveFirst(s: string, pattern: string): (r: string)
    ensures Find(s, pattern).None? ==> r == s
  {
    match Find(s, pattern)
    case None => s
    case Some(i) => s[..i] + s[i + |pattern|..]
  }

  /** File.basename for a path that does not end in '/': the text after the last '/'. */
  function Basename(path: string): string {
    match LastIndexOf(path, '/')
    case None => path
    case Some(i) => path[i + 1..]
  }

  lemma {:induction false} SplitAllNoSeparator(s: string, c: char)
    requires c !in s
    ensures SplitAll(s, c) == [s]
  {
    if |s| > 0 {
      SplitAllNoSeparator(s[1..], c);
      assert [s[0]] + s[1..] == s;
    }
  }

  /** Splitting at one separator splits the two sides independently. */
  lemma {:induction false} SplitAllJoin(a: string, b: string, c: char)
    ensures SplitAll(a + [c] + b, c) == SplitAll(a, c) + SplitAll(b, c)
  {
    var s := a + [c] + b;
    if |a| == 0 {
      assert s == [c] + b;
      assert s[1..] == b;
    } else {
      assert s[0] == a[0] && s[1..] == a[1..] + [c] + b;
      SplitAllJoin(a[1..], b, c);
      ConsAppend(a[0], SplitAll(a[1..], c), SplitAll(b, c), c);
    }
  }

  /** Putting a character in front only touches the first fields. */
  lemma ConsAppend(ch: char, left: seq<string>, right: seq<string>, c: char)
    requires |left| >= 1
    ensures Cons(ch, left + right, c) == Cons(ch, left, c) + right
  {
    if ch != c {
      assert (left + right)[0] == left[0];
      assert (left + right)[1..] == left[1..] + right;
    }
  }

  /** A non-empty field survives Ruby's trailing-empty removal together with everything before it. */
  lemma {:induction false} DropTrailingKeeps(fields: seq<string>, k: nat)
    requires k < |fields| && fields[k] != ""
    ensures k < |DropTrailingEmpty(fields)|
    ensures DropTrailingEmpty(fields)[..k + 1] == fields[..k + 1]
  {
    if fields[|fields| - 1] == "" {
      DropTrailingKeeps(fields[..|fields| - 1], k);
      assert fields[..|fields| - 1][..k + 1] == fields[..k + 1];
    }
  }

  lemma BasenameAfterSlash(dir: string, name: string)
    requires '/' !in name
    ensures Basename(dir + "/" + name) == name
  {
    var p := dir + "/" + name;
    assert p[|dir|] == '/';
    var r := LastIndexOf(p, '/');
    LastIndexOfCorrect(p, '/');
    assert r.Some? && r.value == |dir| by {
      assert forall j :: |dir| < j < |p| ==> p[j] == name[j - |dir| - 1];
    }
    assert p[|dir| + 1..] == name;
  }

  lemma RemoveFirstPrefix(s: string, p: string)
    requires IsPrefix(p, s)
    ensures RemoveFirst(s, p) == s[|p|..]
  {
    FindPrefix(s, p);
  }
}
