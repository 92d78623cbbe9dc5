/**
 * Splitting text into lines on '\n', as Python's str.split('\n') does: every
 * line break separates two lines, so empty lines are kept and the result is
 * never empty.
 */
module TextLines {

  /** The number of line breaks in a text. */
  function CountNewlines(s: string): nat
    decreases |s|
  {
    if s == [] then 0 else CountNewlines(s[..|s| - 1]) + (if s[|s| - 1] == '\n' then 1 else 0)
  }

  /** The total number of characters of a list of lines. */
  function TotalLength(lines: seq<string>): nat
    decreases |lines|
  {
    if lines == [] then 0 else TotalLength(lines[..|lines| - 1]) + |lines[|lines| - 1]|
  }

  /** text.split('\n'): the pieces between the line breaks; there is always at least one. */
  function Split(s: string): (lines: seq<string>)
    ensures |lines| >= 1
    decreases |s|
  {
    if s == [] then [[]]
    else
      var init := Split(s[..|s| - 1]);
      var c := s[|s| - 1];
      if c == '\n' then init + [[]]
      else init[..|init| - 1] + [init[|init| - 1] + [c]]
  }

  /** '\n'.join(lines): the lines with one line break between each two. */
  function Join(lines: seq<string>): string
    requires |lines| >= 1
    decreases |lines|
  {
    if |lines| == 1 then lines[0] else Join(lines[..|lines| - 1]) + ['\n'] + lines[|lines| - 1]
  }

  /** Appending one character: a line break starts a new empty line, anything else extends the last line. */
  lemma SplitSnoc(s: string, c: char)
    ensures Split(s + [c]) == if c == '\n' then Split(s) + [[]]
      else Split(s)[..|Split(s)| - 1] + [Split(s)[|Split(s)| - 1] + [c]]
  {
    assert (s + [c])[..|s|] == s;
  }

  /** Splitting a non-empty tail into its front and its last character. */
  lemma SnocAfter(w: string, u: string)
    requires u != []
    ensures (w + u[..|u| - 1]) + [u[|u| - 1]] == w + u
    ensures u[..|u| - 1] + [u[|u| - 1]] == u
  {
  }

  /** No line holds a line break. */
  lemma {:induction false} SplitNoBreaks(s: string)
    ensures forall i :: 0 <= i < |Split(s)| ==> '\n' !in Split(s)[i]
    decreases |s|
  {
    if s != [] {
      var init := Split(s[..|s| - 1]);
      SplitNoBreaks(s[..|s| - 1]);
      var c := s[|s| - 1];
      if c != '\n' {
        var last := init[|init| - 1] + [c];
        assert '\n' !in last by {
          forall k | 0 <= k < |last| ensures last[k] != '\n' {
            if k < |last| - 1 { assert last[k] == init[|init| - 1][k]; }
          }
        }
      }
    }
  }

  /** There is one line more than there are line breaks. */
  lemma {:induction false} SplitCount(s: string)
    ensures |Split(s)| == CountNewlines(s) + 1
    decreases |s|
  {
    if s != [] {
      SplitCount(s[..|s| - 1]);
    }
  }

  /** The lines hold every character of the text except the line breaks. */
  lemma {:induction false} SplitLength(s: string)
    ensures TotalLength(Split(s)) + CountNewlines(s) == |s|
    decreases |s|
  {
    if s != [] {
      var init := Split(s[..|s| - 1]);
      SplitLength(s[..|s| - 1]);
      var c := s[|s| - 1];
      if c != '\n' {
        var front := init[..|init| - 1];
        var lines := Split(s);
        assert lines[..|lines| - 1] == front;
        assert init[..|init| - 1] == front;
      } else {
        var lines := Split(s);
        assert lines[..|lines| - 1] == init;
      }
    }
  }

  /** Appending a character to the last line appends it to the joined text. */
  lemma JoinExtendLast(lines: seq<string>, c: char)
    requires |lines| >= 1
    ensures Join(lines[..|lines| - 1] + [lines[|lines| - 1] + [c]]) == Join(lines) + [c]
  {
    var longer := lines[..|lines| - 1] + [lines[|lines| - 1] + [c]];
    if |lines| > 1 {
      assert longer[..|longer| - 1] == lines[..|lines| - 1];
    }
  }

  /** Joining the lines of a text gives the text back. */
  lemma {:induction false} JoinSplit(s: string)
    ensures Join(Split(s)) == s
    decreases |s|
  {
    if s != [] {
      var p := s[..|s| - 1];
      var c := s[|s| - 1];
      var init := Split(p);
      JoinSplit(p);
      assert s == p + [c];
      if c == '\n' {
        var lines := init + [[]];
        assert lines[..|lines| - 1] == init;
      } else {
        JoinExtendLast(init, c);
      }
    }
  }

  /** A text without line breaks is one line. */
  lemma {:induction false} SplitSingle(u: string)
    requires '\n' !in u
    ensures Split(u) == [u]
    decreases |u|
  {
    if u != [] {
      var p := u[..|u| - 1];
      assert '\n' !in p by {
        forall k | 0 <= k < |p| ensures p[k] != '\n' { assert p[k] == u[k]; }
      }
      SplitSingle(p);
      assert p + [u[|u| - 1]] == u;
    }
  }

  /** A line break followed by a piece without line breaks starts one last line. */
  lemma {:induction false} SplitAfterBreak(t: string, u: string)
    requires '\n' !in u
    ensures Split(t + ['\n'] + u) == Split(t) + [u]
    decreases |u|
  {
    if u == [] {
      SplitSnoc(t, '\n');
      assert t + ['\n'] + u == t + ['\n'];
    } else {
      var p := u[..|u| - 1];
      var c := u[|u| - 1];
      assert '\n' !in p by {
        forall k | 0 <= k < |p| ensures p[k] != '\n' { assert p[k] == u[k]; }
      }
      SplitAfterBreak(t, p);
      SnocAfter(t + ['\n'], u);
      SplitSnoc(t + ['\n'] + p, c);
      var init := Split(t) + [p];
      assert init[..|init| - 1] == Split(t);
    }
  }

  /** Splitting joined lines gives the lines back, when no line holds a line break. */
  lemma {:induction false} SplitJoin(lines: seq<string>)
    requires |lines| >= 1
    requires forall i :: 0 <= i < |lines| ==> '\n' !in lines[i]
    ensures Split(Join(lines)) == lines
    decreases |lines|
  {
    if |lines| == 1 {
      SplitSingle(lines[0]);
    } else {
      var front := lines[..|lines| - 1];
      SplitJoin(front);
      SplitAfterBreak(Join(front), lines[|lines| - 1]);
      assert front + [lines[|lines| - 1]] == lines;
    }
  }

  /** Empty lines are kept: the empty text is one empty line, and adjacent breaks enclose an empty line. */
  lemma SplitKeepsEmptyLines()
    ensures Split("") == [""]
    ensures Split("\n") == ["", ""]
    ensures Split("a\n\nb") == ["a", "", "b"]
  {
    SplitJoin(["", ""]);
    assert Join(["", ""]) == "\n";
    var lines := ["a", "", "b"];
    SplitJoin(lines);
    assert lines[..2][..1] == ["a"];
    assert Join(lines) == "a\n\nb";
  }
}
