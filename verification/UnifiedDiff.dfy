// The configuration write preview: a longest-common-subsequence table filled
// from the bottom right corner, and a greedy walk that prints one line per step.
module UnifiedDiff {
  import opened Lines

  // --- Common subsequences --------------------------------------------------

  ghost predicate IsSubsequence<T>(c: seq<T>, a: seq<T>) {
    c == [] ||
    (a != [] && ((c[0] == a[0] && IsSubsequence(c[1..], a[1..])) || IsSubsequence(c, a[1..])))
  }

  ghost predicate IsCommon<T>(c: seq<T>, a: seq<T>, b: seq<T>) {
    IsSubsequence(c, a) && IsSubsequence(c, b)
  }

  // The recurrence the table is filled by.
  function LcsLength(a: seq<string>, b: seq<string>): nat
    decreases |a| + |b|
  {
    if a == [] || b == [] then 0
    else if a[0] == b[0] then LcsLength(a[1..], b[1..]) + 1
    else Max(LcsLength(a[1..], b), LcsLength(a, b[1..]))
  }

  function Max(x: nat, y: nat): nat {
    if x >= y then x else y
  }

  lemma {:induction false} TailOfSubsequence<T>(c: seq<T>, a: seq<T>)
    requires c != [] && IsSubsequence(c, a)
    ensures a != [] && IsSubsequence(c[1..], a)
    ensures c[0] == a[0] ==> IsSubsequence(c[1..], a[1..])
    ensures c[0] != a[0] ==> IsSubsequence(c, a[1..])
    decreases |a|
  {
    if IsSubsequence(c, a[1..]) {
      TailOfSubsequence(c, a[1..]);
    } else {
      Widen(c[1..], a);
    }
  }

  lemma {:induction false} Widen<T>(c: seq<T>, a: seq<T>)
    requires a != [] && IsSubsequence(c, a[1..])
    ensures IsSubsequence(c, a)
  {
    if c != [] {
      assert IsSubsequence(c, a[1..]);
    }
  }

  // No common subsequence of the two lists is longer than LcsLength.
  lemma {:induction false} LcsIsUpperBound(c: seq<string>, a: seq<string>, b: seq<string>)
    requires IsCommon(c, a, b)
    ensures |c| <= LcsLength(a, b)
    decreases |a| + |b|
  {
    if c != [] {
      TailOfSubsequence(c, a);
      TailOfSubsequence(c, b);
      if a[0] == b[0] {
        if c[0] == a[0] {
          LcsIsUpperBound(c[1..], a[1..], b[1..]);
        } else {
          LcsIsUpperBound(c, a[1..], b[1..]);
        }
      } else if c[0] != a[0] {
        LcsIsUpperBound(c, a[1..], b);
      } else {
        LcsIsUpperBound(c, a, b[1..]);
      }
    }
  }

  // Some common subsequence has that length.
  lemma {:induction false} LcsIsAchieved(a: seq<string>, b: seq<string>) returns (c: seq<string>)
    ensures IsCommon(c, a, b) && |c| == LcsLength(a, b)
    decreases |a| + |b|
  {
    if a == [] || b == [] {
      c := [];
    } else if a[0] == b[0] {
      var rest := LcsIsAchieved(a[1..], b[1..]);
      c := [a[0]] + rest;
      assert c[1..] == rest;
    } else if LcsLength(a[1..], b) >= LcsLength(a, b[1..]) {
      c := LcsIsAchieved(a[1..], b);
      Widen(c, a);
    } else {
      c := LcsIsAchieved(a, b[1..]);
      Widen(c, b);
    }
  }

  // --- Edit scripts ---------------------------------------------------------

  datatype Edit = Keep(line: string) | Add(line: string) | Remove(line: string)

  datatype Side = Old | New | Both

  // Whether an edit's line belongs to the old text, the new text, or both.
  predicate Shows(e: Edit, side: Side) {
    match side
    case Old => !e.Add?
    case New => !e.Remove?
    case Both => e.Keep?
  }

  function LinesOn(script: seq<Edit>, side: Side): seq<string> {
    if script == [] then []
    else if Shows(script[0], side) then [script[0].line] + LinesOn(script[1..], side)
    else LinesOn(script[1..], side)
  }

  function Before(script: seq<Edit>): seq<string> {
    LinesOn(script, Old)
  }

  function After(script: seq<Edit>): seq<string> {
    LinesOn(script, New)
  }

  function Kept(script: seq<Edit>): seq<string> {
    LinesOn(script, Both)
  }

  // Added plus removed lines.
  function Changes(script: seq<Edit>): nat {
    if script == [] then 0
    else (if script[0].Keep? then 0 else 1) + Changes(script[1..])
  }

  lemma {:induction false} KeptIsSubsequence(script: seq<Edit>, side: Side)
    ensures IsSubsequence(Kept(script), LinesOn(script, side))
  {
    if script != [] {
      KeptIsSubsequence(script[1..], side);
      var k, a := Kept(script), LinesOn(script, side);
      if script[0].Keep? {
        assert k[1..] == Kept(script[1..]) && a[1..] == LinesOn(script[1..], side);
      } else if Shows(script[0], side) {
        assert a[1..] == LinesOn(script[1..], side);
        Widen(k, a);
      }
    }
  }

  lemma {:induction false} ChangesByKept(script: seq<Edit>)
    ensures Changes(script) + 2 * |Kept(script)| == |Before(script)| + |After(script)|
  {
    if script != [] {
      ChangesByKept(script[1..]);
    }
  }

  // A script that keeps LcsLength lines has the fewest changes of all scripts
  // between the same two line lists.
  lemma FewestChanges(best: seq<Edit>, other: seq<Edit>)
    requires Before(best) == Before(other) && After(best) == After(other)
    requires |Kept(best)| == LcsLength(Before(best), After(best))
    ensures Changes(best) <= Changes(other)
  {
    KeptIsSubsequence(other, Old);
    KeptIsSubsequence(other, New);
    LcsIsUpperBound(Kept(other), Before(other), After(other));
    ChangesByKept(best);
    ChangesByKept(other);
  }

  lemma {:induction false} LinesOnSnoc(script: seq<Edit>, e: Edit, side: Side)
    ensures LinesOn(script + [e], side) == LinesOn(script, side) + (if Shows(e, side) then [e.line] else [])
  {
    if script == [] {
      assert script + [e] == [e];
    } else {
      LinesOnSnoc(script[1..], e, side);
      assert (script + [e])[1..] == script[1..] + [e];
    }
  }

  // --- Printing and reading back -------------------------------------------

  function PrintEdit(e: Edit): string {
    match e
    case Keep(line) => "  " + line
    case Add(line) => "+ " + line
    case Remove(line) => "- " + line
  }

  function PrintScript(script: seq<Edit>): seq<string> {
    seq(|script|, k requires 0 <= k < |script| => PrintEdit(script[k]))
  }

  // A reader of the printed text: two header lines, then one edit per line,
  // told apart by the first character.
  function ReadEdit(line: string): Edit {
    var rest := if |line| >= 2 then line[2..] else [];
    if line != [] && line[0] == '+' then Add(rest)
    else if line != [] && line[0] == '-' then Remove(rest)
    else Keep(rest)
  }

  function ReadScript(lines: seq<string>): seq<Edit> {
    seq(|lines|, k requires 0 <= k < |lines| => ReadEdit(lines[k]))
  }

  function ReadDiff(text: string): seq<Edit> {
    var lines := Split(text);
    if |lines| < 2 then [] else ReadScript(lines[2..])
  }

  const HEADER := ["--- before", "+++ after"]

  lemma HeaderLines()
    ensures |HEADER| == 2 && AllSingle(HEADER) && HEADER[0] != [] && HEADER[0][0] == '-'
  {
    assert SingleLine("--- before") && SingleLine("+++ after");
  }

  ghost predicate SingleLined(script: seq<Edit>) {
    forall k :: 0 <= k < |script| ==> SingleLine(script[k].line)
  }

  lemma ReadOfPrintedScript(script: seq<Edit>)
    ensures ReadScript(PrintScript(script)) == script
  {
    var lines := PrintScript(script);
    forall k | 0 <= k < |script| ensures ReadEdit(lines[k]) == script[k] {
      assert lines[k] == PrintEdit(script[k]);
    }
  }

  lemma PrintSnoc(script: seq<Edit>, e: Edit)
    ensures PrintScript(script + [e]) == PrintScript(script) + [PrintEdit(e)]
  {
  }

  lemma ReadOfPrint(header: seq<string>, script: seq<Edit>)
    requires |header| == 2 && AllSingle(header) && SingleLined(script)
    ensures ReadDiff(Join(header + PrintScript(script))) == script
  {
    var lines := header + PrintScript(script);
    forall k | 0 <= k < |lines| ensures SingleLine(lines[k]) {
      if k < 2 {
        assert lines[k] == header[k];
      } else {
        assert lines[k] == PrintEdit(script[k - 2]);
        assert SingleLine(script[k - 2].line);
      }
    }
    SplitOfJoin(lines);
    assert lines[2..] == PrintScript(script);
    ReadOfPrintedScript(script);
  }

  // The printed script is never mistaken for the text shown for equal inputs.
  lemma PrintIsNotTheNoChangeNote(header: seq<string>, script: seq<Edit>)
    requires |header| == 2 && header[0] != [] && header[0][0] == '-'
    ensures Join(header + PrintScript(script)) != "(no changes)"
  {
    var lines := header + PrintScript(script);
    assert lines[0] == header[0];
    assert Join(lines)[0] == '-';
  }

  // --- The diff itself ------------------------------------------------------

  ghost predicate IsLcsTable(lcs: array2<nat>, before: seq<string>, after: seq<string>)
    requires lcs.Length0 == |before| + 1 && lcs.Length1 == |after| + 1
    reads lcs
  {
    forall r, c :: 0 <= r <= |before| && 0 <= c <= |after| ==>
      lcs[r, c] == LcsLength(before[r..], after[c..])
  }

  // The table, filled in place row by row from the bottom right corner.
  method FillTable(before: seq<string>, after: seq<string>) returns (lcs: array2<nat>)
    ensures fresh(lcs) && lcs.Length0 == |before| + 1 && lcs.Length1 == |after| + 1
    ensures IsLcsTable(lcs, before, after)
  {
    var rows, cols := |before|, |after|;
    lcs := new nat[rows + 1, cols + 1]((_, _) => 0);
    for i := rows downto 0
      invariant forall r :: 0 <= r <= rows ==> lcs[r, cols] == 0
      invariant forall r, c :: i <= r <= rows && 0 <= c <= cols ==>
        lcs[r, c] == LcsLength(before[r..], after[c..])
    {
      for j := cols downto 0
        invariant forall r :: 0 <= r <= rows ==> lcs[r, cols] == 0
        invariant forall r, c :: i < r <= rows && 0 <= c <= cols ==>
          lcs[r, c] == LcsLength(before[r..], after[c..])
        invariant forall c :: j <= c <= cols ==> lcs[i, c] == LcsLength(before[i..], after[c..])
      {
        assert before[i..][1..] == before[i + 1..];
        assert after[j..][1..] == after[j + 1..];
        lcs[i, j] := if before[i] == after[j] then lcs[i + 1, j + 1] + 1
                     else Max(lcs[i + 1, j], lcs[i, j + 1]);
      }
    }
  }

  // What the walk has established when it stands at row i and column j.
  ghost predicate Follows(script: seq<Edit>, before: seq<string>, after: seq<string>, i: nat, j: nat) {
    && i <= |before| && j <= |after|
    && AllSingle(before) && AllSingle(after) && SingleLined(script)
    && Before(script) == before[..i] && After(script) == after[..j]
    && |Kept(script)| + LcsLength(before[i..], after[j..]) == LcsLength(before, after)
  }

  lemma KeepStep(script: seq<Edit>, before: seq<string>, after: seq<string>, i: nat, j: nat)
    requires Follows(script, before, after, i, j)
    requires i < |before| && j < |after| && before[i] == after[j]
    ensures Follows(script + [Keep(before[i])], before, after, i + 1, j + 1)
  {
    var e := Keep(before[i]);
    LinesOnSnoc(script, e, Old);
    LinesOnSnoc(script, e, New);
    LinesOnSnoc(script, e, Both);
    assert SingleLine(before[i]);
    assert before[i..][1..] == before[i + 1..] && after[j..][1..] == after[j + 1..];
  }

  lemma AddStep(script: seq<Edit>, before: seq<string>, after: seq<string>, i: nat, j: nat)
    requires Follows(script, before, after, i, j)
    requires j < |after| && (i < |before| ==> before[i] != after[j])
    requires i == |before| ||
      LcsLength(before[i..], after[j + 1..]) >= LcsLength(before[i + 1..], after[j..])
    ensures Follows(script + [Add(after[j])], before, after, i, j + 1)
  {
    var e := Add(after[j]);
    LinesOnSnoc(script, e, Old);
    LinesOnSnoc(script, e, New);
    LinesOnSnoc(script, e, Both);
    assert SingleLine(after[j]);
    assert after[j..][1..] == after[j + 1..];
    assert i < |before| ==> before[i..][1..] == before[i + 1..];
  }

  lemma RemoveStep(script: seq<Edit>, before: seq<string>, after: seq<string>, i: nat, j: nat)
    requires Follows(script, before, after, i, j)
    requires i < |before| && (j < |after| ==> before[i] != after[j])
    requires j == |after| ||
      LcsLength(before[i..], after[j + 1..]) < LcsLength(before[i + 1..], after[j..])
    ensures Follows(script + [Remove(before[i])], before, after, i + 1, j)
  {
    var e := Remove(before[i]);
    LinesOnSnoc(script, e, Old);
    LinesOnSnoc(script, e, New);
    LinesOnSnoc(script, e, Both);
    assert SingleLine(before[i]);
    assert before[i..][1..] == before[i + 1..];
    assert j < |after| ==> after[j..][1..] == after[j + 1..];
  }

  ghost predicate IsShortestDiff(script: seq<Edit>, before: seq<string>, after: seq<string>) {
    forall other :: Before(other) == before && After(other) == after ==> Changes(script) <= Changes(other)
  }

  lemma FollowsToTheEnd(header: seq<string>, script: seq<Edit>, beforeText: string, afterText: string)
    requires |header| == 2 && AllSingle(header)
    requires
      var before, after := Split(beforeText), Split(afterText);
      Follows(script, before, after, |before|, |after|)
    ensures ReadDiff(Join(header + PrintScript(script))) == script
    ensures Join(Before(script)) == beforeText && Join(After(script)) == afterText
    ensures |Kept(script)| == LcsLength(Split(beforeText), Split(afterText))
    ensures IsShortestDiff(script, Split(beforeText), Split(afterText))
  {
    var before, after := Split(beforeText), Split(afterText);
    assert before[..|before|] == before && after[..|after|] == after;
    ReadOfPrint(header, script);
    JoinOfSplit(beforeText);
    JoinOfSplit(afterText);
    forall other | Before(other) == before && After(other) == after
      ensures Changes(script) <= Changes(other)
    {
      FewestChanges(script, other);
    }
  }

  // The greedy walk over the filled table, printing one line per step.
  method Walk(header: seq<string>, before: seq<string>, after: seq<string>, lcs: array2<nat>)
    returns (lines: seq<string>, ghost script: seq<Edit>)
    requires AllSingle(before) && AllSingle(after)
    requires lcs.Length0 == |before| + 1 && lcs.Length1 == |after| + 1
    requires IsLcsTable(lcs, before, after)
    ensures lines == header + PrintScript(script)
    ensures Follows(script, before, after, |before|, |after|)
  {
    var rows, cols := |before|, |after|;
    lines, script := header, [];
    var i, j := 0, 0;
    assert before[0..] == before && after[0..] == after;
    while i < rows || j < cols
      invariant lines == header + PrintScript(script)
      invariant Follows(script, before, after, i, j)
      decreases (rows - i) + (cols - j)
    {
      if i < rows && j < cols && before[i] == after[j] {
        KeepStep(script, before, after, i, j);
        PrintSnoc(script, Keep(before[i]));
        lines, script := lines + [PrintEdit(Keep(before[i]))], script + [Keep(before[i])];
        i, j := i + 1, j + 1;
      } else if j < cols && (i == rows || lcs[i, j + 1] >= lcs[i + 1, j]) {
        AddStep(script, before, after, i, j);
        PrintSnoc(script, Add(after[j]));
        lines, script := lines + [PrintEdit(Add(after[j]))], script + [Add(after[j])];
        j := j + 1;
      } else {
        RemoveStep(script, before, after, i, j);
        PrintSnoc(script, Remove(before[i]));
        lines, script := lines + [PrintEdit(Remove(before[i]))], script + [Remove(before[i])];
        i := i + 1;
      }
    }
  }

  // Reading the printed diff recovers both texts, and the diff keeps as many
  // lines as any common subsequence has, so no script changes fewer lines.
  method BuildUnifiedDiff(beforeText: string, afterText: string) returns (diff: string)
    ensures diff == "(no changes)" <==> beforeText == afterText
    ensures beforeText != afterText ==>
      var script := ReadDiff(diff);
      && Join(Before(script)) == beforeText
      && Join(After(script)) == afterText
      && |Kept(script)| == LcsLength(Split(beforeText), Split(afterText))
      && IsShortestDiff(script, Split(beforeText), Split(afterText))
  {
    if beforeText == afterText {
      return "(no changes)";
    }
    var before, after := Split(beforeText), Split(afterText);
    SplitIsSingleLined(beforeText);
    SplitIsSingleLined(afterText);
    var lcs := FillTable(before, after);
    var header := HEADER;
    HeaderLines();
    var lines, script := Walk(header, before, after, lcs);
    diff := Join(lines);
    FollowsToTheEnd(header, script, beforeText, afterText);
    PrintIsNotTheNoChangeNote(header, script);
  }
}
