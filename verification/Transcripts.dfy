// Packing session transcripts into files of bounded size: next fit, with an
// oversized transcript in a file of its own.
module Transcripts {

  const SEPARATOR := "\n\n"

  function Join(group: seq<string>): string {
    if group == [] then []
    else if |group| == 1 then group[0]
    else Join(group[..|group| - 1]) + SEPARATOR + group[|group| - 1]
  }

  function Concat(groups: seq<seq<string>>): seq<string> {
    if groups == [] then [] else Concat(groups[..|groups| - 1]) + groups[|groups| - 1]
  }

  function Total(texts: seq<string>): nat {
    if texts == [] then 0 else Total(texts[..|texts| - 1]) + |texts[|texts| - 1]|
  }

  ghost predicate NonEmpty(texts: seq<string>) {
    forall i :: 0 <= i < |texts| ==> texts[i] != []
  }

  // The files hold the groups, each group its transcripts in order.
  ghost predicate Holds(files: seq<string>, groups: seq<seq<string>>) {
    |files| == |groups| && forall i :: 0 <= i < |files| ==> groups[i] != [] && files[i] == Join(groups[i])
  }

  // Every file is within the limit, or is a single oversized transcript.
  ghost predicate WithinLimit(files: seq<string>, groups: seq<seq<string>>, limit: nat)
    requires |files| == |groups|
  {
    forall i :: 0 <= i < |files| ==> |files[i]| <= limit || (|groups[i]| == 1 && |files[i]| > limit)
  }

  // No two consecutive files would have fitted into one.
  ghost predicate Tight(files: seq<string>, limit: nat) {
    forall i :: 0 < i < |files| ==> |files[i - 1]| + |files[i]| + |SEPARATOR| > limit
  }

  lemma JoinSnoc(group: seq<string>, t: string)
    ensures Join(group + [t]) == if group == [] then t else Join(group) + SEPARATOR + t
  {
    assert (group + [t])[..|group|] == group;
  }

  lemma ConcatSnoc(groups: seq<seq<string>>, group: seq<string>)
    ensures Concat(groups + [group]) == Concat(groups) + group
  {
    assert (groups + [group])[..|groups|] == groups;
  }

  // A file is its first transcripts, a separator, and the others, however it is cut.
  lemma {:induction false} JoinAppends(a: seq<string>, b: seq<string>)
    requires a != [] && b != []
    ensures Join(a + b) == Join(a) + "\n\n" + Join(b)
    ensures Join([a[0]]) == a[0]
    decreases |b|
  {
    var n := |b| - 1;
    assert [a[0]][..0] == [];
    JoinSnoc([], a[0]);
    assert a + b == (a + b[..n]) + [b[n]] && b == b[..n] + [b[n]];
    JoinSnoc(a + b[..n], b[n]);
    JoinSnoc(b[..n], b[n]);
    if n > 0 {
      JoinAppends(a, b[..n]);
    } else {
      assert a + b[..n] == a;
    }
  }

  // The state of the loop: the files written, and the content not yet written.
  ghost predicate Packed(
    done: seq<string>, files: seq<string>, groups: seq<seq<string>>, current: string, open: seq<string>, limit: nat)
  {
    && Holds(files, groups) && WithinLimit(files, groups, limit) && Tight(files, limit)
    && Concat(groups) + open == done
    && current == Join(open) && |current| <= limit && (open != [] ==> current != [])
    && (files != [] && open != [] ==> |files[|files| - 1]| + |open[0]| + |SEPARATOR| > limit)
  }

  lemma {:induction false} JoinCoversFirst(group: seq<string>)
    requires group != []
    ensures |Join(group)| >= |group[0]|
  {
    if |group| > 1 {
      JoinCoversFirst(group[..|group| - 1]);
    }
  }

  lemma FlushKeeps(
    done: seq<string>, files: seq<string>, groups: seq<seq<string>>, current: string, open: seq<string>, limit: nat)
    requires Packed(done, files, groups, current, open, limit) && current != []
    ensures Packed(done, files + [current], groups + [open], [], [], limit)
  {
    ConcatSnoc(groups, open);
    JoinCoversFirst(open);
    assert Concat(groups + [open]) + [] == Concat(groups) + open;
  }

  // The next transcript, if it starts a file, would not have fitted into the last one.
  ghost predicate Follows(files: seq<string>, open: seq<string>, t: string, limit: nat) {
    open == [] && files != [] ==> |files[|files| - 1]| + |t| + |SEPARATOR| > limit
  }

  lemma PlaceKeeps(
    done: seq<string>, files: seq<string>, groups: seq<seq<string>>, current: string, open: seq<string>, t: string,
    limit: nat)
    requires Packed(done, files, groups, current, open, limit) && Follows(files, open, t, limit)
    requires t != [] && |t| <= limit && (open != [] ==> |current| + |t| + |SEPARATOR| <= limit)
    ensures
      var current' := current + (if current != [] then SEPARATOR else "") + t;
      Packed(done + [t], files, groups, current', open + [t], limit)
  {
    JoinSnoc(open, t);
    assert Concat(groups) + (open + [t]) == done + [t];
  }

  lemma OversizedKeeps(done: seq<string>, files: seq<string>, groups: seq<seq<string>>, t: string, limit: nat)
    requires Packed(done, files, groups, [], [], limit) && |t| > limit
    ensures Packed(done + [t], files + [t], groups + [[t]], [], [], limit)
  {
    ConcatSnoc(groups, [t]);
    assert Concat(groups + [[t]]) + [] == done + [t];
  }

  lemma NothingPending(
    done: seq<string>, files: seq<string>, groups: seq<seq<string>>, current: string, open: seq<string>, limit: nat)
    requires Packed(done, files, groups, current, open, limit)
    ensures current == [] <==> open == []
  {
  }

  // At the head of the loop: the next transcript may start a file only after an
  // oversized one.
  ghost predicate AtLoopHead(
    done: seq<string>, files: seq<string>, groups: seq<seq<string>>, current: string, open: seq<string>, limit: nat)
  {
    && Packed(done, files, groups, current, open, limit)
    && (open == [] && files != [] ==> |files[|files| - 1]| > limit)
  }

  lemma StartsEmpty(limit: nat)
    ensures AtLoopHead([], [], [], [], [], limit)
  {
  }

  // The end of the loop: once whatever is pending is written, everything is.
  lemma AllWritten(
    done: seq<string>, files: seq<string>, groups: seq<seq<string>>, current: string, open: seq<string>, limit: nat)
    requires AtLoopHead(done, files, groups, current, open, limit)
    ensures current != [] ==> Written(done, files + [current], groups + [open], limit)
    ensures current == [] ==> Written(done, files, groups, limit)
  {
    if current != [] {
      FlushKeeps(done, files, groups, current, open, limit);
      assert Concat(groups + [open]) + [] == Concat(groups + [open]);
    } else {
      assert Concat(groups) + [] == Concat(groups);
    }
  }

  ghost predicate Written(done: seq<string>, files: seq<string>, groups: seq<seq<string>>, limit: nat) {
    Concat(groups) == done && Holds(files, groups) && WithinLimit(files, groups, limit) && Tight(files, limit)
  }

  // One turn of the loop.
  method AddTranscript(
    transcript: string, limit: nat, files: seq<string>, current: string,
    ghost done: seq<string>, ghost groups: seq<seq<string>>, ghost open: seq<string>)
    returns (files': seq<string>, current': string, ghost groups': seq<seq<string>>, ghost open': seq<string>)
    requires AtLoopHead(done, files, groups, current, open, limit) && transcript != []
    ensures AtLoopHead(done + [transcript], files', groups', current', open', limit)
  {
    files', current', groups', open' := files, current, groups, open;
    NothingPending(done, files, groups, current, open, limit);
    if |current'| > 0 && |current'| + |transcript| + 2 > limit {
      FlushKeeps(done, files, groups, current, open, limit);
      JoinCoversFirst(open);
      files', groups' := files + [current'], groups + [open];
      current', open' := "", [];
    }
    if |transcript| > limit {
      // Whatever was pending has been written above.
      assert current' == "";
      OversizedKeeps(done, files', groups', transcript, limit);
      files', groups' := files' + [transcript], groups' + [[transcript]];
      return;
    }
    PlaceKeeps(done, files', groups', current', open', transcript, limit);
    current' := current' + (if current' != [] then SEPARATOR else "") + transcript;
    open' := open' + [transcript];
  }

  method SplitIntoFiles(transcripts: seq<string>, limit: nat)
    returns (files: seq<string>, ghost groups: seq<seq<string>>)
    requires NonEmpty(transcripts)
    ensures Concat(groups) == transcripts && Holds(files, groups)
    ensures WithinLimit(files, groups, limit) && Tight(files, limit)
  {
    files, groups := [], [];
    var current := "";
    ghost var open := [];
    StartsEmpty(limit);
    for i := 0 to |transcripts|
      invariant AtLoopHead(transcripts[..i], files, groups, current, open, limit)
    {
      assert transcripts[..i + 1] == transcripts[..i] + [transcripts[i]];
      files, current, groups, open :=
        AddTranscript(transcripts[i], limit, files, current, transcripts[..i], groups, open);
    }
    assert transcripts[..|transcripts|] == transcripts;
    AllWritten(transcripts, files, groups, current, open, limit);
    if |current| > 0 {
      files, groups := files + [current], groups + [open];
    }
  }

  lemma TotalOfTwoMore(files: seq<string>)
    requires |files| >= 2
    ensures
      var n := |files|;
      Total(files) == Total(files[..n - 2]) + |files[n - 2]| + |files[n - 1]|
  {
    var n := |files|;
    assert files[..n - 1][..n - 2] == files[..n - 2];
  }

  lemma OneMore(k: nat, size: nat)
    ensures (k + 1) * size == k * size + size
  {
  }

  // Tight packing bounds the number of files by their total size: every two
  // consecutive ones hold more than limit - 2 characters.
  lemma {:induction false} FileCountIsBounded(files: seq<string>, limit: nat)
    requires Tight(files, limit) && limit >= 2
    ensures (|files| / 2) * (limit - 1) <= Total(files)
  {
    if |files| >= 2 {
      var n := |files|;
      var shorter := files[..n - 2];
      FileCountIsBounded(shorter, limit);
      TotalOfTwoMore(files);
      assert |files[n - 2]| + |files[n - 1]| >= limit - 1;
      assert |files| / 2 == |shorter| / 2 + 1;
      OneMore(|shorter| / 2, limit - 1);
    }
  }

  // Nothing is lost: a file is its transcripts and the separators between them.
  lemma {:induction false} JoinLength(group: seq<string>)
    requires group != []
    ensures |Join(group)| == Total(group) + 2 * (|group| - 1)
  {
    if |group| > 1 {
      JoinLength(group[..|group| - 1]);
    } else {
      assert group[..0] == [];
    }
  }

  lemma {:induction false} TotalAppends(a: seq<string>, b: seq<string>)
    ensures Total(a + b) == Total(a) + Total(b)
  {
    if b == [] {
      assert a + b == a;
    } else {
      TotalAppends(a, b[..|b| - 1]);
      assert (a + b)[..|a + b| - 1] == a + b[..|b| - 1];
    }
  }

  // The files together hold every transcript once, plus one separator for every
  // transcript that does not start a file.
  lemma {:induction false} SizeIsConserved(files: seq<string>, groups: seq<seq<string>>)
    requires Holds(files, groups)
    ensures Total(files) == Total(Concat(groups)) + 2 * (|Concat(groups)| - |files|)
  {
    if files != [] {
      var n := |files| - 1;
      SizeIsConserved(files[..n], groups[..n]);
      JoinLength(groups[n]);
      TotalAppends(Concat(groups[..n]), groups[n]);
    }
  }
}
