// Splitting a text on newlines and joining lines with newlines, as
// String.prototype.split("\n") and Array.prototype.join("\n") do.
module Lines {

  ghost predicate SingleLine(line: string) {
    '\n' !in line
  }

  ghost predicate AllSingle(lines: seq<string>) {
    forall k :: 0 <= k < |lines| ==> SingleLine(lines[k])
  }

  function Split(text: string): (lines: seq<string>)
    ensures |lines| > 0
  {
    if text == [] then [[]]
    else
      var rest := Split(text[1..]);
      if text[0] == '\n' then [[]] + rest
      else [[text[0]] + rest[0]] + rest[1..]
  }

  function Join(lines: seq<string>): string {
    if |lines| == 0 then []
    else if |lines| == 1 then lines[0]
    else lines[0] + "\n" + Join(lines[1..])
  }

  lemma {:induction false} SplitIsSingleLined(text: string)
    ensures AllSingle(Split(text))
  {
    if text != [] {
      SplitIsSingleLined(text[1..]);
      var rest := Split(text[1..]);
      assert SingleLine(rest[0]);
    }
  }

  lemma {:induction false} JoinOfSplit(text: string)
    ensures Join(Split(text)) == text
  {
    if text != [] {
      var rest := Split(text[1..]);
      JoinOfSplit(text[1..]);
      if text[0] == '\n' {
        assert ([[]] + rest)[1..] == rest;
        assert Join([[]] + rest) == [] + "\n" + text[1..];
      } else {
        var lines := [[text[0]] + rest[0]] + rest[1..];
        assert lines[1..] == rest[1..];
        if |rest| > 1 {
          assert Join(lines) == [text[0]] + rest[0] + "\n" + Join(rest[1..]);
          assert Join(lines) == [text[0]] + Join(rest);
        }
      }
    }
  }

  lemma {:induction false} SplitOfLine(line: string)
    requires SingleLine(line)
    ensures Split(line) == [line]
  {
    if line != [] {
      SplitOfLine(line[1..]);
      assert line[0] != '\n';
      assert [line[0]] + line[1..] == line;
    }
  }

  lemma {:induction false} SplitAfterLine(line: string, text: string)
    requires SingleLine(line)
    ensures Split(line + "\n" + text) == [line] + Split(text)
  {
    var whole := line + "\n" + text;
    if line == [] {
      assert whole[1..] == text;
    } else {
      SplitAfterLine(line[1..], text);
      assert whole[1..] == line[1..] + "\n" + text;
      assert line[0] != '\n';
      assert [line[0]] + line[1..] == line;
    }
  }

  // Joining is undone by splitting when no line contains a newline.
  lemma {:induction false} SplitOfJoin(lines: seq<string>)
    requires |lines| > 0 && AllSingle(lines)
    ensures Split(Join(lines)) == lines
  {
    if |lines| == 1 {
      SplitOfLine(lines[0]);
    } else {
      SplitOfJoin(lines[1..]);
      assert SingleLine(lines[0]);
      SplitAfterLine(lines[0], Join(lines[1..]));
      assert lines == [lines[0]] + lines[1..];
    }
  }
}
