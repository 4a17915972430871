/** String helpers: the Foundation string operations the build script relies on. */
module Strings {

  /** Swift's `hasPrefix`. */
  predicate HasPrefix(s: string, prefix: string) {
    |prefix| <= |s| && s[..|prefix|] == prefix
  }

  /** Swift's `hasSuffix`. */
  predicate HasSuffix(s: string, suffix: string) {
    |suffix| <= |s| && s[|s| - |suffix|..] == suffix
  }

  /** A string that differs from `prefix` at some position within both does not start with it. */
  lemma NotPrefixAt(s: string, prefix: string, i: nat)
    requires i < |s| && i < |prefix| && s[i] != prefix[i]
    ensures !HasPrefix(s, prefix)
  {
  }

  /** A string is a prefix of itself followed by anything. */
  lemma PrefixOfAppend(x: string, y: string)
    ensures HasPrefix(x + y, x)
  {
    assert (x + y)[..|x|] == x;
  }

  /** `sub` occurs somewhere inside `s`. */
  predicate Contains(s: string, sub: string) {
    exists i :: 0 <= i <= |s| && HasPrefix(s[i..], sub)
  }

  /** The strings of `parts` joined with no separator, in order. */
  function Concat(parts: seq<string>): string {
    if parts == [] then "" else Concat(parts[..|parts| - 1]) + parts[|parts| - 1]
  }

  lemma ConcatSingleton(x: string)
    ensures Concat([x]) == x
  {
    assert [x][..0] == [];
  }

  /** Appending a part only when `c` holds appends its text only then. */
  lemma ConcatOptional(parts: seq<string>, c: bool, x: string)
    ensures Concat(parts + (if c then [x] else [])) == Concat(parts) + (if c then x else "")
  {
    if c {
      ConcatSnoc(parts, x);
    } else {
      assert parts + [] == parts;
    }
  }

  /** Appending one part appends its text. */
  lemma ConcatSnoc(parts: seq<string>, x: string)
    ensures Concat(parts + [x]) == Concat(parts) + x
  {
    assert (parts + [x])[..|parts|] == parts;
  }

  lemma {:induction false} ConcatAppend(a: seq<string>, b: seq<string>)
    ensures Concat(a + b) == Concat(a) + Concat(b)
    decreases |b|
  {
    if b == [] {
      assert a + b == a;
    } else {
      var b' := b[..|b| - 1];
      assert (a + b)[..|a + b| - 1] == a + b';
      assert (a + b)[|a + b| - 1] == b[|b| - 1];
      ConcatAppend(a, b');
      Associative(Concat(a), Concat(b'), b[|b| - 1]);
    }
  }

  /** A part of the concatenation occurs inside it. */
  lemma {:induction false} ConcatContainsPart(parts: seq<string>, k: nat)
    requires k < |parts|
    ensures Contains(Concat(parts), parts[k])
  {
    var a, b := parts[..k], parts[k + 1..];
    assert parts == a + [parts[k]] + b;
    ConcatAppend(a + [parts[k]], b);
    ConcatAppend(a, [parts[k]]);
    assert Concat([parts[k]]) == parts[k] by {
      assert [parts[k]][..0] == [];
    }
    var s := Concat(parts);
    var i := |Concat(a)|;
    assert s == Concat(a) + parts[k] + Concat(b);
    assert s[i..][..|parts[k]|] == parts[k];
    assert HasPrefix(s[i..], parts[k]);
  }

  /** The lines of `s` joined with a newline between consecutive lines. */
  function Unlines(lines: seq<string>): string {
    if lines == [] then ""
    else if |lines| == 1 then lines[0]
    else lines[0] + "\n" + Unlines(lines[1..])
  }

  /** Every line followed by a newline, in order. */
  function Terminated(lines: seq<string>): string {
    if lines == [] then "" else lines[0] + "\n" + Terminated(lines[1..])
  }

  lemma {:induction false} TerminatedSnoc(lines: seq<string>, x: string)
    ensures Terminated(lines + [x]) == Terminated(lines) + x + "\n"
  {
    if lines != [] {
      assert (lines + [x])[1..] == lines[1..] + [x];
      TerminatedSnoc(lines[1..], x);
    } else {
      assert [x][1..] == [];
    }
  }

  /** Newline-terminated lines followed by more lines are all of them joined by newlines. */
  lemma {:induction false} TerminatedUnlines(lines: seq<string>, tail: seq<string>)
    requires |tail| > 0
    ensures Terminated(lines) + Unlines(tail) == Unlines(lines + tail)
  {
    if lines == [] {
      assert lines + tail == tail;
    } else {
      TerminatedUnlines(lines[1..], tail);
      assert (lines + tail)[1..] == lines[1..] + tail;
    }
  }

  /** A line in front of more lines is joined to them by a newline. */
  lemma UnlinesCons(x: string, rest: seq<string>)
    requires |rest| > 0
    ensures Unlines([x] + rest) == x + "\n" + Unlines(rest)
  {
    assert ([x] + rest)[1..] == rest;
  }

  /** Two lines, newline-terminated lines, and two more lines: all of them joined by newlines. */
  lemma FramedUnlines(first: string, second: string, body: seq<string>, last: string, closing: string)
    ensures first + "\n" + second + "\n" + Terminated(body) + last + "\n" + closing
         == Unlines([first, second] + body + [last, closing])
  {
    var tail := [last, closing];
    UnlinesCons(last, [closing]);
    assert [last] + [closing] == tail;
    TerminatedUnlines(body, tail);
    var rest := body + tail;
    UnlinesCons(second, rest);
    UnlinesCons(first, [second] + rest);
    assert [first, second] + body + tail == [first] + ([second] + rest);
    var t := Terminated(body);
    var u := last + "\n" + closing;
    Associative(first + "\n" + second + "\n", t, u);
    Associative(first + "\n", second + "\n", t + u);
    Associative(first, "\n", second + "\n" + (t + u));
    Associative(second, "\n", t + u);
    Associative(first + "\n" + second + "\n" + t, last + "\n", closing);
    Associative(first + "\n" + second + "\n" + t, last, "\n");
    Associative(t, last + "\n", closing);
    Associative(t, last, "\n");
  }

  /** Concatenation is associative. */
  lemma Associative<T>(a: seq<T>, b: seq<T>, c: seq<T>)
    ensures a + b + c == a + (b + c)
  {
  }

  /** Index of the first newline in `s`, or `|s|` when there is none. */
  function FirstNewline(s: string): (i: nat)
    ensures i <= |s|
    ensures i < |s| ==> s[i] == '\n'
    ensures forall j :: 0 <= j < i ==> s[j] != '\n'
  {
    if s == [] || s[0] == '\n' then 0 else 1 + FirstNewline(s[1..])
  }

  /** `s` cut at every newline (no newline yields one line). */
  function Lines(s: string): seq<string>
    decreases |s|
  {
    var i := FirstNewline(s);
    if i == |s| then [s] else [s[..i]] + Lines(s[i + 1..])
  }

  predicate NoNewline(s: string) {
    '\n' !in s
  }

  /** Reading back the lines of a text built by `Unlines` gives the lines it was built from. */
  lemma {:induction false} LinesUnlines(lines: seq<string>)
    requires |lines| > 0
    requires forall k :: 0 <= k < |lines| ==> NoNewline(lines[k])
    ensures Lines(Unlines(lines)) == lines
  {
    var x := lines[0];
    assert forall j :: 0 <= j < |x| ==> x[j] != '\n' by {
      assert NoNewline(lines[0]);
    }
    if |lines| == 1 {
      FirstNewlineNone(x);
    } else {
      var rest := Unlines(lines[1..]);
      var s := x + "\n" + rest;
      FirstNewlineAt(x, rest);
      assert s[..|x|] == x;
      assert s[|x| + 1..] == rest;
      LinesUnlines(lines[1..]);
      assert lines == [x] + lines[1..];
    }
  }

  lemma FirstNewlineNone(s: string)
    requires forall j :: 0 <= j < |s| ==> s[j] != '\n'
    ensures FirstNewline(s) == |s|
  {
  }

  lemma FirstNewlineAt(x: string, rest: string)
    requires forall j :: 0 <= j < |x| ==> x[j] != '\n'
    ensures FirstNewline(x + "\n" + rest) == |x|
  {
    var s := x + "\n" + rest;
    assert s[|x|] == '\n';
    assert forall j :: 0 <= j < |x| ==> s[j] == x[j];
  }
}
