/**
 * The JavaScript string built-ins the core relies on: `split("\n")`,
 * `startsWith`, concatenation of many pieces, and joining lines back.
 */
module Text {

  /** `s.startsWith(prefix)`. */
  predicate StartsWith(s: string, prefix: string)
  {
    |prefix| <= |s| && s[..|prefix|] == prefix
  }

  /** All pieces glued together in order: `pieces.join("")`. */
  function Concat(pieces: seq<string>): string
  {
    if pieces == [] then "" else Concat(pieces[..|pieces| - 1]) + pieces[|pieces| - 1]
  }

  /** True when no line contains a line feed. */
  predicate NoNewlines(lines: seq<string>)
  {
    forall k :: 0 <= k < |lines| ==> '\n' !in lines[k]
  }

  /** Every line followed by its own line feed. */
  function Terminated(lines: seq<string>): string
  {
    if lines == [] then "" else lines[0] + "\n" + Terminated(lines[1..])
  }

  /** `text.split("\n")`: the pieces between line feeds; never empty, and no piece holds a line feed. */
  function Split(text: string): (pieces: seq<string>)
    ensures |pieces| >= 1
    ensures NoNewlines(pieces)
    decreases |text|
  {
    if text == [] then [""]
    else
      var rest := Split(text[1..]);
      if text[0] == '\n' then [""] + rest
      else [[text[0]] + rest[0]] + rest[1..]
  }

  /** The complete lines of `text`: every piece of the split except the last. */
  function CompleteLines(text: string): (lines: seq<string>)
    ensures NoNewlines(lines)
  {
    var pieces := Split(text);
    pieces[..|pieces| - 1]
  }

  /** The text after the last line feed: what `lines.pop()` leaves in the buffer. */
  function Leftover(text: string): (rest: string)
    ensures '\n' !in rest
  {
    var pieces := Split(text);
    pieces[|pieces| - 1]
  }

  lemma ConcatSnoc(pieces: seq<string>, p: string)
    ensures Concat(pieces + [p]) == Concat(pieces) + p
  {
    assert (pieces + [p])[..|pieces|] == pieces;
  }

  lemma {:induction false} TerminatedAppend(a: seq<string>, b: seq<string>)
    ensures Terminated(a + b) == Terminated(a) + Terminated(b)
    decreases |a|
  {
    if a == [] {
      assert a + b == b;
    } else {
      assert (a + b)[1..] == a[1..] + b;
      TerminatedAppend(a[1..], b);
    }
  }

  /** A line without a line feed, then a line feed, splits off as exactly one piece. */
  lemma {:induction false} SplitAfterLine(line: string, rest: string)
    requires '\n' !in line
    ensures Split(line + "\n" + rest) == [line] + Split(rest)
    decreases |line|
  {
    var text := line + "\n" + rest;
    if line == [] {
      assert text == "\n" + rest;
      assert text[1..] == rest;
    } else {
      assert text[0] == line[0];
      assert text[1..] == line[1..] + "\n" + rest;
      SplitAfterLine(line[1..], rest);
      assert [line[0]] + line[1..] == line;
    }
  }

  /** Splitting recovers terminated lines one by one, whatever follows them. */
  lemma {:induction false} SplitAfterLines(lines: seq<string>, rest: string)
    requires NoNewlines(lines)
    ensures Split(Terminated(lines) + rest) == lines + Split(rest)
    decreases |lines|
  {
    if lines == [] {
      assert Terminated(lines) + rest == rest;
    } else {
      var tail := Terminated(lines[1..]) + rest;
      assert Terminated(lines) + rest == lines[0] + "\n" + tail;
      assert '\n' !in lines[0];
      assert NoNewlines(lines[1..]) by {
        forall k | 0 <= k < |lines[1..]| ensures '\n' !in lines[1..][k] {
          assert lines[1..][k] == lines[k + 1];
        }
      }
      SplitAfterLine(lines[0], tail);
      SplitAfterLines(lines[1..], rest);
      assert lines == [lines[0]] + lines[1..];
    }
  }

  /** A piece without line feeds is split into itself alone. */
  lemma {:induction false} SplitNoNewline(s: string)
    requires '\n' !in s
    ensures Split(s) == [s]
    decreases |s|
  {
    if s != [] {
      assert s[1..] == s[|s| - |s[1..]|..];
      assert '\n' !in s[1..] by {
        forall k | 0 <= k < |s[1..]| ensures s[1..][k] != '\n' {
          assert s[1..][k] == s[k + 1];
        }
      }
      SplitNoNewline(s[1..]);
      assert [s[0]] + s[1..] == s;
    }
  }

  /**
   * The line-buffer invariant: the complete lines, each with its line feed,
   * followed by the leftover, give back the whole text.
   */
  lemma {:induction false} SplitJoin(text: string)
    ensures Terminated(CompleteLines(text)) + Leftover(text) == text
    decreases |text|
  {
    if text != [] {
      SplitJoin(text[1..]);
      if text[0] == '\n' {
        JoinAfterNewline(text);
      } else {
        JoinAfterCharacter(text);
      }
    }
  }

  /** The inductive step of `SplitJoin` when the text starts with a line feed. */
  lemma JoinAfterNewline(text: string)
    requires text != [] && text[0] == '\n'
    requires Terminated(CompleteLines(text[1..])) + Leftover(text[1..]) == text[1..]
    ensures Terminated(CompleteLines(text)) + Leftover(text) == text
  {
    var lines := CompleteLines(text[1..]);
    var rest := Leftover(text[1..]);
    var pieces := Split(text[1..]);
    assert Split(text) == [""] + pieces;
    assert CompleteLines(text) == [""] + lines;
    assert Leftover(text) == rest;
    assert ([""] + lines)[1..] == lines;
    assert Terminated([""] + lines) == "\n" + Terminated(lines);
    calc {
      Terminated(CompleteLines(text)) + Leftover(text);
      ("\n" + Terminated(lines)) + rest;
      "\n" + (Terminated(lines) + rest);
      [text[0]] + text[1..];
      text;
    }
  }

  /** The inductive step of `SplitJoin` when the text starts with another character. */
  lemma JoinAfterCharacter(text: string)
    requires text != [] && text[0] != '\n'
    requires Terminated(CompleteLines(text[1..])) + Leftover(text[1..]) == text[1..]
    ensures Terminated(CompleteLines(text)) + Leftover(text) == text
  {
    var rest := Split(text[1..]);
    var pieces := Split(text);
    assert pieces == [[text[0]] + rest[0]] + rest[1..];
    assert [text[0]] + text[1..] == text;
    if |rest| == 1 {
      assert pieces[..|pieces| - 1] == [];
      assert Terminated(rest[..0]) == "";
    } else {
      assert pieces[..|pieces| - 1] == [[text[0]] + rest[0]] + rest[1..|rest| - 1];
      assert rest[..|rest| - 1] == [rest[0]] + rest[1..|rest| - 1];
      assert Terminated(pieces[..|pieces| - 1])
          == [text[0]] + rest[0] + "\n" + Terminated(rest[1..|rest| - 1]);
      assert Terminated(rest[..|rest| - 1]) == rest[0] + "\n" + Terminated(rest[1..|rest| - 1]);
    }
  }

  /** Lines without line feeds, joined and followed by a leftover, have exactly those complete lines. */
  lemma LinesOfJoin(lines: seq<string>, rest: string)
    requires NoNewlines(lines)
    requires '\n' !in rest
    ensures CompleteLines(Terminated(lines) + rest) == lines
    ensures Leftover(Terminated(lines) + rest) == rest
  {
    SplitAfterLines(lines, rest);
    SplitNoNewline(rest);
  }
}
