/** Line splitting as `data.split(/\r\n|\n/)` does it (words.js line 72):
    the text is scanned left to right, and at each position `\r\n` is tried
    before `\n`. A `\r` not followed by `\n` is ordinary text. */
module Lines {

  function SplitLines(s: string): (lines: seq<string>)
    ensures |lines| >= 1
    ensures forall i :: 0 <= i < |lines| ==> '\n' !in lines[i]
    ensures |lines| == 1 ==> lines[0] == s
  {
    if |s| == 0 then [""]
    else if s[0] == '\n' then [""] + SplitLines(s[1..])
    else if |s| >= 2 && s[0] == '\r' && s[1] == '\n' then [""] + SplitLines(s[2..])
    else
      var rest := SplitLines(s[1..]);
      [[s[0]] + rest[0]] + rest[1..]
  }

  /** `lines.join(sep)`. */
  function Join(lines: seq<string>, sep: string): string
    requires |lines| >= 1
  {
    if |lines| == 1 then lines[0] else lines[0] + sep + Join(lines[1..], sep)
  }

  /** Text without a line feed is one line, carriage returns included. */
  lemma {:induction false} NoLineFeedIsOneLine(s: string)
    requires '\n' !in s
    ensures SplitLines(s) == [s]
  {
    if |s| >= 1 {
      assert s[0] != '\n';
      assert '\n' !in s[1..];
      NoLineFeedIsOneLine(s[1..]);
      assert [s[0]] + s[1..] == s;
    }
  }

  /** A line followed by `\r\n` is split off on its own. */
  lemma {:induction false} SplitAfterCrLf(line: string, t: string)
    requires '\n' !in line
    ensures SplitLines(line + "\r\n" + t) == [line] + SplitLines(t)
  {
    var s := line + "\r\n" + t;
    if |line| == 0 {
      assert s == "\r\n" + t;
      assert s[2..] == t;
    } else {
      assert s[0] == line[0] && s[0] != '\n';
      assert s[1] != '\n' by {
        if |line| >= 2 { assert s[1] == line[1]; } else { assert s[1] == '\r'; }
      }
      assert '\n' !in line[1..];
      assert s[1..] == line[1..] + "\r\n" + t;
      SplitAfterCrLf(line[1..], t);
      assert [s[0]] + line[1..] == line;
    }
  }

  /** A line followed by `\n` is split off on its own, provided it does not
      end in `\r` (which the separator would otherwise absorb). */
  lemma {:induction false} SplitAfterLf(line: string, t: string)
    requires '\n' !in line
    requires |line| == 0 || line[|line| - 1] != '\r'
    ensures SplitLines(line + "\n" + t) == [line] + SplitLines(t)
  {
    var s := line + "\n" + t;
    if |line| == 0 {
      assert s == "\n" + t;
      assert s[1..] == t;
    } else {
      assert s[0] == line[0] && s[0] != '\n';
      assert !(s[0] == '\r' && s[1] == '\n') by {
        if |line| >= 2 { assert s[1] == line[1]; } else { assert s[0] == line[|line| - 1]; }
      }
      assert '\n' !in line[1..];
      assert s[1..] == line[1..] + "\n" + t;
      SplitAfterLf(line[1..], t);
      assert [s[0]] + line[1..] == line;
    }
  }

  /** Splitting undoes joining with `\r\n`, for any lines free of `\n`. */
  lemma {:induction false} SplitJoinCrLf(lines: seq<string>)
    requires |lines| >= 1
    requires forall i :: 0 <= i < |lines| ==> '\n' !in lines[i]
    ensures SplitLines(Join(lines, "\r\n")) == lines
  {
    if |lines| == 1 {
      NoLineFeedIsOneLine(lines[0]);
    } else {
      SplitJoinCrLf(lines[1..]);
      SplitAfterCrLf(lines[0], Join(lines[1..], "\r\n"));
      assert [lines[0]] + lines[1..] == lines;
    }
  }

  /** Splitting undoes joining with `\n`, for lines free of `\n` of which
      none but the last ends in `\r`. */
  lemma {:induction false} SplitJoinLf(lines: seq<string>)
    requires |lines| >= 1
    requires forall i :: 0 <= i < |lines| ==> '\n' !in lines[i]
    requires forall i :: 0 <= i < |lines| - 1 ==> |lines[i]| == 0 || lines[i][|lines[i]| - 1] != '\r'
    ensures SplitLines(Join(lines, "\n")) == lines
  {
    if |lines| == 1 {
      NoLineFeedIsOneLine(lines[0]);
    } else {
      SplitJoinLf(lines[1..]);
      SplitAfterLf(lines[0], Join(lines[1..], "\n"));
      assert [lines[0]] + lines[1..] == lines;
    }
  }
}
