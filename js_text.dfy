/**
 * The text handling of the `runJs` action: the worker's reply lines are joined
 * with `Array.prototype.join('\n')`, and the result is tested with
 * `output.match(/^Error.*$/)`. The regular expression is modelled by a small
 * backtracking matcher over the four constructs it uses (`^`, a literal
 * character, `.*`, `$`) with ECMAScript's meaning when neither the `m` nor the
 * `s` flag is set: `^` and `$` only match at the ends of the whole input and
 * `.` matches any character except a line terminator.
 */
module JsText {

  /** `Array.prototype.join('\n')` on an array of strings. */
  function Join(lines: seq<string>): string {
    if |lines| == 0 then ""
    else if |lines| == 1 then lines[0]
    else lines[0] + "\n" + Join(lines[1..])
  }

  /** Index of the first `c` in `s`. */
  function IndexOf(s: string, c: char): (k: nat)
    requires c in s
    ensures k < |s| && s[k] == c && c !in s[..k]
  {
    if s[0] == c then 0
    else
      assert c in s[1..] by { var i :| 0 <= i < |s| && s[i] == c; assert s[1..][i - 1] == c; }
      var k := 1 + IndexOf(s[1..], c);
      assert s[..k] == [s[0]] + s[1..][..k - 1];
      k
  }

  /** `String.prototype.split('\n')`: the inverse of `Join` used to state what `Join` keeps. */
  function Split(s: string): (lines: seq<string>)
    ensures |lines| >= 1
    decreases |s|
  {
    if '\n' !in s then [s]
    else
      var k := IndexOf(s, '\n');
      [s[..k]] + Split(s[k + 1..])
  }

  predicate NoNewline(lines: seq<string>) {
    forall i :: 0 <= i < |lines| ==> '\n' !in lines[i]
  }

  /** Joining and splitting again gives the lines back when no line holds a newline itself. */
  lemma {:induction false} SplitJoin(lines: seq<string>)
    requires |lines| >= 1 && NoNewline(lines)
    ensures Split(Join(lines)) == lines
  {
    if |lines| > 1 {
      var head, tail := lines[0], lines[1..];
      var s := Join(lines);
      assert s == head + "\n" + Join(tail);
      assert s[|head|] == '\n';
      var k := IndexOf(s, '\n');
      assert s[..k] == head;
      assert s[k + 1..] == Join(tail);
      assert NoNewline(tail) by {
        forall i | 0 <= i < |tail| ensures '\n' !in tail[i] { assert tail[i] == lines[i + 1]; }
      }
      SplitJoin(tail);
    }
  }

  /** Splitting and joining again gives back any text. */
  lemma {:induction false} JoinSplit(s: string)
    ensures Join(Split(s)) == s
    decreases |s|
  {
    if '\n' in s {
      var k := IndexOf(s, '\n');
      var rest := Split(s[k + 1..]);
      JoinSplit(s[k + 1..]);
      assert Split(s) == [s[..k]] + rest;
      assert ([s[..k]] + rest)[1..] == rest;
      assert s == s[..k] + "\n" + s[k + 1..];
    }
  }

  /** ECMAScript's line terminators: LF, CR, LINE SEPARATOR, PARAGRAPH SEPARATOR. */
  predicate IsLineTerminator(c: char) {
    c == '\n' || c == '\r' || c == '\U{2028}' || c == '\U{2029}'
  }

  /** The pieces a pattern without alternation or groups is made of. */
  datatype Atom = Caret | Lit(c: char) | AnyStar | Dollar

  /** Whether `p` matches `s` starting exactly at position `i` (the rest of the input may remain only if `p` does not end in `$`). */
  function MatchHere(p: seq<Atom>, s: string, i: nat): bool
    requires i <= |s|
    decreases |p|, |s| - i, 1
  {
    if p == [] then true
    else match p[0]
      case Caret => i == 0 && MatchHere(p[1..], s, i)
      case Lit(c) => i < |s| && s[i] == c && MatchHere(p[1..], s, i + 1)
      case Dollar => i == |s| && MatchHere(p[1..], s, i)
      case AnyStar => MatchStar(p[1..], s, i)
  }

  /** `.*` followed by `rest`: try the shortest run first and extend it one non-terminator at a time. */
  function MatchStar(rest: seq<Atom>, s: string, i: nat): bool
    requires i <= |s|
    decreases |rest| + 1, |s| - i, 0
  {
    MatchHere(rest, s, i) || (i < |s| && !IsLineTerminator(s[i]) && MatchStar(rest, s, i + 1))
  }

  /** `String.prototype.match` without the `g` flag succeeds when a match starts at some index from `start` to the end. */
  function Search(p: seq<Atom>, s: string, start: nat): bool
    requires start <= |s|
    decreases |s| - start
  {
    MatchHere(p, s, start) || (start < |s| && Search(p, s, start + 1))
  }

  /** One `Lit` atom per character of `lits`. */
  function Literals(lits: string): (p: seq<Atom>)
    ensures |p| == |lits| && forall j :: 0 <= j < |p| ==> p[j] == Lit(lits[j])
  {
    if lits == "" then [] else [Lit(lits[0])] + Literals(lits[1..])
  }

  /** `/^Error.*$/` */
  const ErrorPattern: seq<Atom> := [Caret] + Literals("Error") + [AnyStar, Dollar]

  /** `output.match(/^Error.*$/)` is truthy. */
  predicate MatchesErrorPattern(output: string) {
    Search(ErrorPattern, output, 0)
  }

  /** What the pattern means: the text starts with "Error" and has no line terminator anywhere after it. */
  predicate IsErrorLine(s: string) {
    |s| >= 5 && s[..5] == "Error" && forall j :: 5 <= j < |s| ==> !IsLineTerminator(s[j])
  }

  lemma {:induction false} StarThenEnd(s: string, i: nat)
    requires i <= |s|
    ensures MatchStar([Dollar], s, i) <==> forall j :: i <= j < |s| ==> !IsLineTerminator(s[j])
    decreases |s| - i
  {
    assert MatchHere([Dollar], s, i) <==> i == |s| by { assert [Dollar][1..] == []; }
    if i < |s| {
      StarThenEnd(s, i + 1);
    }
  }

  lemma {:induction false} CaretOnlyAtStart(p: seq<Atom>, s: string, k: nat)
    requires |p| > 0 && p[0] == Caret && 0 < k <= |s|
    ensures !Search(p, s, k)
    decreases |s| - k
  {
    if k < |s| {
      CaretOnlyAtStart(p, s, k + 1);
    }
  }

  /** A run of literal atoms matches exactly the same run of characters. */
  lemma {:induction false} LiteralsMatch(lits: string, rest: seq<Atom>, s: string, i: nat)
    requires i <= |s|
    ensures MatchHere(Literals(lits) + rest, s, i)
        <==> i + |lits| <= |s| && s[i..i + |lits|] == lits && MatchHere(rest, s, i + |lits|)
  {
    if lits != "" {
      var p := Literals(lits) + rest;
      assert p[0] == Lit(lits[0]);
      assert p[1..] == Literals(lits[1..]) + rest;
      if i < |s| && s[i] == lits[0] {
        LiteralsMatch(lits[1..], rest, s, i + 1);
        if i + |lits| <= |s| {
          assert s[i..i + |lits|] == [s[i]] + s[i + 1..i + 1 + |lits[1..]|];
          assert lits == [lits[0]] + lits[1..];
        }
      } else if i + |lits| <= |s| {
        assert s[i..i + |lits|][0] == s[i];
      }
    } else {
      assert Literals(lits) + rest == rest;
    }
  }

  /** The regular expression test of `runJs` succeeds exactly on an error line. */
  lemma ErrorPatternMeaning(output: string)
    ensures MatchesErrorPattern(output) <==> IsErrorLine(output)
  {
    var p := ErrorPattern;
    if 0 < |output| {
      CaretOnlyAtStart(p, output, 1);
    }
    assert MatchesErrorPattern(output) == MatchHere(p, output, 0);
    assert p[1..] == Literals("Error") + [AnyStar, Dollar];
    assert MatchHere(p, output, 0) == MatchHere(p[1..], output, 0);
    LiteralsMatch("Error", [AnyStar, Dollar], output, 0);
    if |output| >= 5 {
      assert MatchHere([AnyStar, Dollar], output, 5) == MatchStar([Dollar], output, 5) by {
        assert [AnyStar, Dollar][1..] == [Dollar];
      }
      StarThenEnd(output, 5);
    }
  }

  /**
   * Classifying the joined reply: it is an error exactly when the worker sent
   * one line and that line is an error line; a reply of two or more lines is
   * never one, because the joining newline is a line terminator.
   */
  lemma {:induction false} JoinedErrorLine(lines: seq<string>)
    ensures IsErrorLine(Join(lines)) <==> |lines| == 1 && IsErrorLine(lines[0])
  {
    if |lines| > 1 {
      var s := Join(lines);
      var head := lines[0];
      assert s == head + "\n" + Join(lines[1..]);
      assert s[|head|] == '\n';
      if |head| < 5 {
        assert |s| >= 5 ==> s[..5][|head|] == '\n';
      }
    }
  }
}
