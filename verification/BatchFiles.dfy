// The flat argument of write_files_batch: blocks opened by a header line with
// a path and closed by a terminator line, cut apart by pattern matching.
module BatchFiles {

  datatype File = File(path: string, content: string)

  datatype Option<T> = None | Some(value: T)

  const OPEN := "===FILE:"
  const CLOSE := "==="
  const END := "===END==="

  // --- Matching ------------------------------------------------------------

  predicate HasPrefix(s: string, p: string) {
    |p| <= |s| && s[..|p|] == p
  }

  predicate HasSuffix(s: string, p: string) {
    |p| <= |s| && s[|s| - |p|..] == p
  }

  // The characters that "." does not match.
  predicate EndsLine(c: char) {
    c == '\n' || c == '\r' || c == '\U{2028}' || c == '\U{2029}'
  }

  function Shift(o: Option<nat>, n: nat): Option<nat> {
    if o.Some? then Some(o.value + n) else None
  }

  // How far a lazy run of characters goes before the first CLOSE on this line.
  function UntilClose(s: string): Option<nat> {
    if HasPrefix(s, CLOSE) then Some(0)
    else if s == [] || EndsLine(s[0]) then None
    else Shift(UntilClose(s[1..]), 1)
  }

  // The length of the path when s begins with a header.
  function HeaderPath(s: string): Option<nat> {
    if !HasPrefix(s, OPEN) then None
    else
      var t := s[|OPEN|..];
      if t == [] || EndsLine(t[0]) then None else Shift(UntilClose(t[1..]), 1)
  }

  // The offset of the first header.
  function FindHeader(s: string): Option<nat> {
    if HeaderPath(s).Some? then Some(0)
    else if s == [] then None
    else Shift(FindHeader(s[1..]), 1)
  }

  predicate IsSpace(c: char) {
    || EndsLine(c) || c == ' ' || c == '\t' || c == '\U{0B}' || c == '\U{0C}' || c == '\U{A0}' || c == '\U{1680}'
    || '\U{2000}' <= c <= '\U{200A}' || c == '\U{202F}' || c == '\U{205F}' || c == '\U{3000}' || c == '\U{FEFF}'
  }

  function Trim(s: string): string {
    if s != [] && IsSpace(s[0]) then Trim(s[1..])
    else if s != [] && IsSpace(s[|s| - 1]) then Trim(s[..|s| - 1])
    else s
  }

  // The characters a path loses at its edges, and those that end a line.
  const SPACES := "\t\n\r \U{0B}\U{0C}\U{A0}\U{1680}\U{2028}\U{2029}\U{202F}\U{205F}\U{3000}\U{FEFF}"

  lemma SpaceExactly(c: char)
    ensures IsSpace(c) <==> c in SPACES || '\U{2000}' <= c <= '\U{200A}'
    ensures EndsLine(c) <==> c in "\n\r\U{2028}\U{2029}"
  {
  }

  // --- One block's body ----------------------------------------------------

  function DropFirstNewline(s: string): string {
    if s != [] && s[0] == '\n' then s[1..] else s
  }

  function DropLastNewline(s: string): string {
    if s != [] && s[|s| - 1] == '\n' then s[..|s| - 1] else s
  }

  // Drop a terminator at the very end, with a newline on either side of it.
  function DropEnd(s: string): string {
    if HasSuffix(s, END + "\n") then DropLastNewline(s[..|s| - |END| - 1])
    else if HasSuffix(s, END) then DropLastNewline(s[..|s| - |END|])
    else s
  }

  function Clean(body: string): string {
    DropLastNewline(DropFirstNewline(DropEnd(DropFirstNewline(body))))
  }

  // --- The parser ----------------------------------------------------------

  lemma {:induction false} CloseFits(s: string)
    ensures UntilClose(s).Some? ==> UntilClose(s).value + |CLOSE| <= |s|
  {
    if !HasPrefix(s, CLOSE) && s != [] && !EndsLine(s[0]) {
      CloseFits(s[1..]);
    }
  }

  lemma {:induction false} HeaderFits(s: string, k: nat)
    requires FindHeader(s) == Some(k)
    ensures k <= |s| && HeaderPath(s[k..]).Some?
    ensures k + |OPEN| + HeaderPath(s[k..]).value + |CLOSE| <= |s|
    ensures k == 0 ==> s[k..] == s
  {
    assert s[0..] == s;
    if HeaderPath(s).Some? {
      CloseFits(s[|OPEN|..][1..]);
    } else {
      HeaderFits(s[1..], k - 1);
      assert s[1..][k - 1..] == s[k..];
    }
  }

  function PathOf(t: string): string
    requires HeaderPath(t).Some?
  {
    HeaderFits(t, 0);
    t[|OPEN|..|OPEN| + HeaderPath(t).value]
  }

  // What follows a header, the newline after it dropped.
  function AfterHeader(t: string): (rest: string)
    requires HeaderPath(t).Some?
    ensures |rest| < |t|
  {
    HeaderFits(t, 0);
    DropFirstNewline(t[|OPEN| + HeaderPath(t).value + |CLOSE|..])
  }

  lemma {:induction false} FindHeaderBound(s: string)
    ensures FindHeader(s).Some? ==> FindHeader(s).value <= |s|
  {
    if FindHeader(s).Some? {
      HeaderFits(s, FindHeader(s).value);
    }
  }

  // The text up to the next header.
  function BodyOf(rest: string): string {
    FindHeaderBound(rest);
    if FindHeader(rest).Some? then rest[..FindHeader(rest).value] else rest
  }

  function Parse(raw: string): seq<File>
    decreases |raw|
  {
    var at := FindHeader(raw);
    if at.None? then []
    else
      HeaderFits(raw, at.value);
      var header := raw[at.value..];
      var rest := AfterHeader(header);
      [File(Trim(PathOf(header)), Clean(BodyOf(rest)))] + Parse(rest)
  }

  method ParseBatch(raw: string) returns (files: seq<File>)
    ensures files == Parse(raw)
  {
    files := [];
    var rest := raw;
    var at := FindHeader(rest);
    while at.Some?
      invariant at == FindHeader(rest)
      invariant files + Parse(rest) == Parse(raw)
      decreases |rest|
    {
      HeaderFits(rest, at.value);
      var header := rest[at.value..];
      rest := AfterHeader(header);
      files := files + [File(Trim(PathOf(header)), Clean(BodyOf(rest)))];
      at := FindHeader(rest);
    }
  }

  // --- Printing ------------------------------------------------------------

  // One block, followed by the rest of the batch.
  function Block(f: File, rest: string): string {
    OPEN + f.path + CLOSE + ("\n" + Inside(f.content, rest))
  }

  // The lines after a block's header.
  function Inside(content: string, rest: string): string {
    content + "\n" + (END + "\n" + rest)
  }

  function Print(files: seq<File>): string {
    if files == [] then [] else Block(files[0], Print(files[1..]))
  }

  // Non-empty, on one line, without space at either end, and with no CLOSE that
  // starts inside the path after its first character.
  ghost predicate GoodPath(p: string) {
    && p != [] && !IsSpace(p[0]) && !IsSpace(p[|p| - 1])
    && OneLine(p) && ClosesAtEnd(p[1..])
  }

  ghost predicate OneLine(p: string) {
    forall k :: 0 <= k < |p| ==> !EndsLine(p[k])
  }

  ghost predicate ClosesAtEnd(q: string) {
    forall k :: 0 <= k < |q| ==> !ClosesAt(q, k)
  }

  predicate ClosesAt(q: string, k: nat)
    requires k <= |q|
  {
    HasPrefix(q[k..] + CLOSE, CLOSE)
  }

  predicate HeaderFree(s: string) {
    FindHeader(s).None?
  }

  predicate NoEdgeNewline(s: string) {
    s != [] ==> s[0] != '\n' && s[|s| - 1] != '\n'
  }

  // --- Where a header can match --------------------------------------------

  lemma {:induction false} CloseIsLocal(c: string, r: string)
    ensures UntilClose(c + "\n" + r) == UntilClose(c)
  {
    var s := c + "\n" + r;
    PrefixIsLocal(c, r, CLOSE);
    if c == [] {
      assert s[0] == '\n';
    } else if !HasPrefix(c, CLOSE) && !EndsLine(c[0]) {
      CloseIsLocal(c[1..], r);
      assert s[1..] == c[1..] + "\n" + r;
    }
  }

  lemma PrefixIsLocal(c: string, r: string, p: string)
    requires '\n' !in p
    ensures HasPrefix(c + "\n" + r, p) <==> HasPrefix(c, p)
  {
    var s := c + "\n" + r;
    if |p| <= |c| {
      assert s[..|p|] == c[..|p|];
    } else if |p| <= |s| {
      assert s[..|p|][|c|] == '\n';
      assert p[|c|] in p;
    }
  }

  // A header never reaches over the end of a line.
  lemma HeaderIsLocal(c: string, r: string)
    ensures HeaderPath(c + "\n" + r) == HeaderPath(c)
  {
    var s := c + "\n" + r;
    PrefixIsLocal(c, r, OPEN);
    if HasPrefix(c, OPEN) {
      var t, u := s[|OPEN|..], c[|OPEN|..];
      assert t == u + "\n" + r;
      if u != [] {
        CloseIsLocal(u[1..], r);
        assert t[1..] == u[1..] + "\n" + r;
      }
    }
  }

  // The first header lies in the leading text, or else after it.
  lemma {:induction false} FindHeaderSplits(c: string, r: string)
    ensures FindHeader(c).Some? ==> FindHeader(c + "\n" + r) == FindHeader(c) && FindHeader(c).value < |c|
    ensures FindHeader(c).None? ==> FindHeader(c + "\n" + r) == Shift(FindHeader(r), |c| + 1)
  {
    var s := c + "\n" + r;
    HeaderIsLocal(c, r);
    if c == [] {
      assert s[1..] == r;
    } else if HeaderPath(c).None? {
      FindHeaderSplits(c[1..], r);
      assert s[1..] == c[1..] + "\n" + r;
    }
  }

  // Text before the first header is not parsed.
  lemma ParseSkips(s: string, k: nat)
    requires FindHeader(s) == Some(k)
    ensures k <= |s| && Parse(s[k..]) == Parse(s)
  {
    HeaderFits(s, k);
    assert s[k..][0..] == s[k..];
  }

  // --- Reading back one block ----------------------------------------------

  lemma {:induction false} CloseAfterPath(q: string, r: string)
    requires OneLine(q)
    ensures UntilClose(q + CLOSE + r).Some? && UntilClose(q + CLOSE + r).value <= |q|
    ensures UntilClose(q + CLOSE + r) == Some(|q|) <==> ClosesAtEnd(q)
  {
    var s := q + CLOSE + r;
    if q == [] {
      assert s[..|CLOSE|] == CLOSE;
    } else {
      CloseAfterPath(q[1..], r);
      assert s[1..] == q[1..] + CLOSE + r && s[0] == q[0];
      assert s[..|CLOSE|] == (q[0..] + CLOSE)[..|CLOSE|];
      assert HasPrefix(s, CLOSE) <==> ClosesAt(q, 0);
      ClosesAtEndCons(q);
    }
  }

  lemma ClosesAtEndCons(q: string)
    requires q != []
    ensures ClosesAtEnd(q) <==> !ClosesAt(q, 0) && ClosesAtEnd(q[1..])
  {
    forall k | 0 < k < |q| ensures ClosesAt(q, k) <==> ClosesAt(q[1..], k - 1) {
      assert q[1..][k - 1..] == q[k..];
    }
    if !ClosesAt(q, 0) && ClosesAtEnd(q[1..]) {
      forall k | 0 <= k < |q| ensures !ClosesAt(q, k) {
        assert k > 0 ==> !ClosesAt(q[1..], k - 1);
      }
    }
    if ClosesAtEnd(q) {
      forall k | 0 <= k < |q[1..]| ensures !ClosesAt(q[1..], k) {
        assert !ClosesAt(q, k + 1);
      }
    }
  }

  // The header printed for a path on one line is read, and cut short if it can be.
  lemma HeaderOfBlock(p: string, r: string)
    requires p != [] && OneLine(p)
    ensures
      var s := OPEN + p + CLOSE + r;
      && FindHeader(s) == Some(0) && HeaderPath(s).Some? && HeaderPath(s).value <= |p|
      && (HeaderPath(s) == Some(|p|) <==> ClosesAtEnd(p[1..]))
      && PathOf(s) == p[..HeaderPath(s).value]
  {
    var s := OPEN + p + CLOSE + r;
    assert s[..|OPEN|] == OPEN;
    var t := s[|OPEN|..];
    assert t == p + CLOSE + r;
    assert t[0] == p[0];
    assert t[1..] == p[1..] + CLOSE + r;
    CloseAfterPath(p[1..], r);
    var n := HeaderPath(s).value;
    assert s[|OPEN|..|OPEN| + n] == t[..n] == p[..n];
  }

  lemma {:induction false} TrimShrinks(s: string)
    ensures |Trim(s)| <= |s|
    ensures Trim(s) == s <==> |Trim(s)| == |s|
    ensures Trim(s) == s <==> s == [] || (!IsSpace(s[0]) && !IsSpace(s[|s| - 1]))
    ensures OneLine(s) ==> OneLine(Trim(s))
  {
    if s != [] && IsSpace(s[0]) {
      TrimShrinks(s[1..]);
    } else if s != [] && IsSpace(s[|s| - 1]) {
      TrimShrinks(s[..|s| - 1]);
    }
  }

  // The path comes back exactly if it is a good one.
  lemma ReadsPath(p: string, r: string)
    requires p != [] && OneLine(p)
    ensures HeaderPath(OPEN + p + CLOSE + r).Some?
    ensures Trim(PathOf(OPEN + p + CLOSE + r)) == p <==> GoodPath(p)
    ensures GoodPath(p) ==> AfterHeader(OPEN + p + CLOSE + r) == DropFirstNewline(r)
  {
    var s := OPEN + p + CLOSE + r;
    HeaderOfBlock(p, r);
    TrimShrinks(PathOf(s));
    if HeaderPath(s) == Some(|p|) {
      assert p[..|p|] == p;
      assert s[|OPEN| + |p| + |CLOSE|..] == r;
    }
  }

  // What Clean leaves of a printed content.
  function Trimmed(content: string): string {
    DropLastNewline(DropFirstNewline(DropFirstNewline(content)))
  }

  lemma CleanOfPrinted(content: string)
    ensures Clean(content + "\n" + END + "\n") == Trimmed(content)
  {
    var body := content + "\n" + END + "\n";
    if content == [] {
      assert body[1..] == [] + END + "\n";
      DropEndOfPrinted([]);
      assert DropFirstNewline(body) == END + "\n";
      assert HasSuffix(END + "\n", END + "\n");
    } else {
      var d := DropFirstNewline(content);
      assert DropFirstNewline(body) == d + "\n" + END + "\n" by {
        assert body[0] == content[0];
        assert body[1..] == content[1..] + "\n" + END + "\n";
      }
      DropEndOfPrinted(d);
    }
  }

  lemma DropEndOfPrinted(d: string)
    ensures DropEnd(d + "\n" + END + "\n") == d
  {
    var s := d + "\n" + END + "\n";
    var e := END + "\n";
    assert s[|s| - |e|..] == e;
    assert s[..|s| - |END| - 1] == d + "\n";
    assert (d + "\n")[..|d|] == d;
  }

  // Exactly the contents without a newline at either edge come back whole.
  lemma TrimmedIsWhole(content: string)
    ensures Trimmed(content) == content <==> NoEdgeNewline(content)
  {
  }

  lemma EndIsHeaderFree()
    ensures HeaderFree(END)
  {
    assert |OPEN| == 8 && OPEN[3] == 'F' && OPEN[2] == '=';
    assert END[..8][3] == 'E';
    assert END[1..][..8][2] == 'E';
    NoHeaderInShort(END[2..]);
    assert END[1..][1..] == END[2..];
  }

  lemma {:induction false} NoHeaderInShort(s: string)
    requires |s| < |OPEN|
    ensures HeaderFree(s)
  {
    if s != [] {
      NoHeaderInShort(s[1..]);
    }
  }

  lemma ReadsBlock(f: File, rest: string)
    requires f.path != [] && OneLine(f.path)
    ensures
      var s := Block(f, rest);
      && FindHeader(s) == Some(0) && HeaderPath(s).Some?
      && (Trim(PathOf(s)) == f.path <==> GoodPath(f.path))
      && (GoodPath(f.path) ==> AfterHeader(s) == Inside(f.content, rest))
  {
    var r := "\n" + Inside(f.content, rest);
    HeaderOfBlock(f.path, r);
    ReadsPath(f.path, r);
    assert r[0] == '\n' && r[1..] == Inside(f.content, rest);
  }

  lemma ParseOfBlock(f: File, rest: string)
    requires GoodPath(f.path)
    ensures
      var inside := Inside(f.content, rest);
      Parse(Block(f, rest)) == [File(f.path, Clean(BodyOf(inside)))] + Parse(inside)
  {
    ReadsBlock(f, rest);
    var s := Block(f, rest);
    assert s[0..] == s;
  }

  lemma ParseOfBadPath(f: File, rest: string)
    requires f.path != [] && OneLine(f.path) && !GoodPath(f.path)
    ensures Parse(Block(f, rest)) != [] && Parse(Block(f, rest))[0].path != f.path
  {
    ReadsBlock(f, rest);
    var s := Block(f, rest);
    assert s[0..] == s;
  }

  lemma {:induction false} UntilCloseIsOneLine(s: string)
    ensures UntilClose(s).Some? ==> UntilClose(s).value <= |s| && OneLine(s[..UntilClose(s).value])
  {
    if !HasPrefix(s, CLOSE) && s != [] && !EndsLine(s[0]) {
      UntilCloseIsOneLine(s[1..]);
      if UntilClose(s[1..]).Some? {
        assert s[..UntilClose(s).value] == [s[0]] + s[1..][..UntilClose(s[1..]).value];
      }
    }
  }

  // Whatever is parsed, a path lies on one line.
  lemma {:induction false} ParsedPathsAreOneLine(raw: string)
    ensures forall k :: 0 <= k < |Parse(raw)| ==> OneLine(Parse(raw)[k].path)
    decreases |raw|
  {
    var at := FindHeader(raw);
    if at.Some? {
      HeaderFits(raw, at.value);
      var header := raw[at.value..];
      var t := header[|OPEN|..];
      UntilCloseIsOneLine(t[1..]);
      assert PathOf(header) == [t[0]] + t[1..][..UntilClose(t[1..]).value];
      TrimShrinks(PathOf(header));
      ParsedPathsAreOneLine(AfterHeader(header));
    }
  }

  lemma CutInside(content: string, end: string, rest: string)
    ensures
      var inside, body := content + "\n" + (end + "\n" + rest), content + "\n" + end + "\n";
      |inside| == |body| + |rest| && inside[..|body|] == body && inside[|body|..] == rest
  {
  }

  lemma FindInside(content: string, rest: string)
    requires HeaderFree(content)
    ensures FindHeader(Inside(content, rest)) == Shift(FindHeader(rest), |content| + |END| + 2)
  {
    EndIsHeaderFree();
    FindAfterTwo(content, END, rest);
  }

  lemma FindAfterTwo(content: string, end: string, rest: string)
    requires HeaderFree(content) && HeaderFree(end)
    ensures FindHeader(content + "\n" + (end + "\n" + rest)) == Shift(FindHeader(rest), |content| + |end| + 2)
  {
    FindHeaderSplits(content, end + "\n" + rest);
    FindHeaderSplits(end, rest);
  }

  lemma BodyInside(content: string, rest: string)
    requires HeaderFree(content) && (rest == [] || FindHeader(rest) == Some(0))
    ensures BodyOf(Inside(content, rest)) == content + "\n" + END + "\n"
  {
    FindInside(content, rest);
    CutInside(content, END, rest);
    if rest == [] {
      EmptyHasNoHeader();
    }
  }

  lemma ParseInside(content: string, rest: string)
    requires HeaderFree(content) && (rest == [] || FindHeader(rest) == Some(0))
    ensures Parse(Inside(content, rest)) == Parse(rest)
  {
    FindInside(content, rest);
    CutInside(content, END, rest);
    if rest == [] {
      EmptyHasNoHeader();
    } else {
      ParseSkips(Inside(content, rest), |content| + |END| + 2);
    }
  }

  // A block's content, when it holds no header.
  lemma ReadsHeaderFree(content: string, rest: string)
    requires HeaderFree(content) && (rest == [] || FindHeader(rest) == Some(0))
    ensures Clean(BodyOf(Inside(content, rest))) == Trimmed(content)
    ensures Parse(Inside(content, rest)) == Parse(rest)
  {
    BodyInside(content, rest);
    ParseInside(content, rest);
    CleanOfPrinted(content);
  }

  lemma EmptyHasNoHeader()
    ensures FindHeader([]) == None && Parse([]) == []
  {
    NoHeaderInShort([]);
  }

  // A block's content, when it does hold a header: what is read back is shorter
  // than what was printed.
  lemma ReadsLess(content: string, rest: string)
    requires !HeaderFree(content)
    ensures |Clean(BodyOf(Inside(content, rest)))| < |content|
  {
    FindHeaderSplits(content, END + "\n" + rest);
    CleanShrinks(BodyOf(Inside(content, rest)));
  }

  lemma CleanShrinks(body: string)
    ensures |Clean(body)| <= |body|
  {
    DropsShrink(body);
    DropEndShrinks(DropFirstNewline(body));
    DropsShrink(DropEnd(DropFirstNewline(body)));
    DropsShrink(DropFirstNewline(DropEnd(DropFirstNewline(body))));
  }

  lemma DropsShrink(s: string)
    ensures |DropFirstNewline(s)| <= |s| && |DropLastNewline(s)| <= |s|
  {
  }

  lemma DropEndShrinks(s: string)
    ensures |DropEnd(s)| <= |s|
  {
    if HasSuffix(s, END + "\n") {
      DropsShrink(s[..|s| - |END| - 1]);
    } else if HasSuffix(s, END) {
      DropsShrink(s[..|s| - |END|]);
    }
  }

  ghost predicate GoodPaths(files: seq<File>) {
    forall k :: 0 <= k < |files| ==> GoodPath(files[k].path)
  }

  ghost predicate OneLinePaths(files: seq<File>) {
    forall k :: 0 <= k < |files| ==> files[k].path != [] && OneLine(files[k].path)
  }

  lemma PrintBegins(files: seq<File>)
    requires OneLinePaths(files)
    ensures files != [] ==> FindHeader(Print(files)) == Some(0)
  {
    if files != [] {
      ReadsBlock(files[0], Print(files[1..]));
    }
  }

  ghost predicate Faithful(f: File) {
    GoodPath(f.path) && HeaderFree(f.content) && NoEdgeNewline(f.content)
  }

  ghost predicate AllFaithful(files: seq<File>) {
    forall k :: 0 <= k < |files| ==> Faithful(files[k])
  }

  lemma AllFaithfulCons(files: seq<File>)
    requires files != []
    ensures AllFaithful(files) <==> Faithful(files[0]) && AllFaithful(files[1..])
  {
    if Faithful(files[0]) && AllFaithful(files[1..]) {
      forall k | 0 <= k < |files| ensures Faithful(files[k]) {
        if k > 0 {
          assert files[1..][k - 1] == files[k];
        }
      }
    }
  }

  // What one block adds to the round trip of the others.
  lemma BlockRoundTrip(first: File, rest: seq<File>)
    requires first.path != [] && OneLine(first.path) && OneLinePaths(rest)
    ensures Parse(Print([first] + rest)) == [first] + rest <==> Faithful(first) && Parse(Print(rest)) == rest
  {
    assert ([first] + rest)[1..] == rest;
    if GoodPath(first.path) {
      GoodBlockRoundTrip(first, rest);
    } else {
      ParseOfBadPath(first, Print(rest));
    }
  }

  lemma GoodBlockRoundTrip(first: File, rest: seq<File>)
    requires GoodPath(first.path) && OneLinePaths(rest)
    ensures Parse(Block(first, Print(rest))) == [first] + rest <==> Faithful(first) && Parse(Print(rest)) == rest
  {
    PrintBegins(rest);
    ParseOfBlock(first, Print(rest));
    var inside := Inside(first.content, Print(rest));
    var read := [File(first.path, Clean(BodyOf(inside)))] + Parse(inside);
    assert read[0].content == Clean(BodyOf(inside)) && read[1..] == Parse(inside);
    assert ([first] + rest)[0] == first && ([first] + rest)[1..] == rest;
    if HeaderFree(first.content) {
      ReadsHeaderFree(first.content, Print(rest));
      TrimmedIsWhole(first.content);
    } else {
      ReadsLess(first.content, Print(rest));
    }
  }

  lemma {:induction false} RoundTripOfLines(files: seq<File>)
    requires OneLinePaths(files)
    ensures Parse(Print(files)) == files <==> AllFaithful(files)
  {
    if files == [] {
      EmptyHasNoHeader();
    } else {
      assert files == [files[0]] + files[1..];
      RoundTripOfLines(files[1..]);
      BlockRoundTrip(files[0], files[1..]);
      AllFaithfulCons(files);
    }
  }

  // A header in the leading part of a text is a header of the text.
  lemma {:induction false} CloseInPrefix(s: string, m: nat)
    requires m <= |s| && UntilClose(s[..m]).Some?
    ensures UntilClose(s).Some?
  {
    if HasPrefix(s[..m], CLOSE) {
      assert s[..|CLOSE|] == s[..m][..|CLOSE|];
    } else {
      assert s[..m][1..] == s[1..][..m - 1];
      CloseInPrefix(s[1..], m - 1);
    }
  }

  lemma HeaderInPrefix(s: string, m: nat)
    requires m <= |s| && HeaderPath(s[..m]).Some?
    ensures HeaderPath(s).Some?
  {
    var t, u := s[|OPEN|..], s[..m][|OPEN|..];
    assert s[..|OPEN|] == s[..m][..|OPEN|];
    assert u[1..] == t[1..][..m - |OPEN| - 1];
    CloseInPrefix(t[1..], m - |OPEN| - 1);
  }

  lemma {:induction false} CutIsHeaderFree(s: string, m: nat)
    requires m <= |s| && (FindHeader(s).Some? ==> m <= FindHeader(s).value)
    ensures HeaderFree(s[..m])
  {
    if m == 0 {
      NoHeaderInShort(s[..0]);
    } else {
      if HeaderPath(s[..m]).Some? {
        HeaderInPrefix(s, m);
      }
      CutIsHeaderFree(s[1..], m - 1);
      assert s[..m][1..] == s[1..][..m - 1];
    }
  }

  lemma DropsAreHeaderFree(s: string)
    requires HeaderFree(s)
    ensures HeaderFree(DropFirstNewline(s)) && HeaderFree(DropLastNewline(s))
  {
    if s != [] {
      CutIsHeaderFree(s, |s| - 1);
    }
  }

  lemma DropEndIsHeaderFree(s: string)
    requires HeaderFree(s)
    ensures HeaderFree(DropEnd(s))
  {
    if HasSuffix(s, END + "\n") {
      CutIsHeaderFree(s, |s| - |END| - 1);
      DropsAreHeaderFree(s[..|s| - |END| - 1]);
    } else if HasSuffix(s, END) {
      CutIsHeaderFree(s, |s| - |END|);
      DropsAreHeaderFree(s[..|s| - |END|]);
    }
  }

  lemma CleanIsHeaderFree(body: string)
    requires HeaderFree(body)
    ensures HeaderFree(Clean(body))
  {
    var s := DropFirstNewline(body);
    DropsAreHeaderFree(body);
    DropEndIsHeaderFree(s);
    DropsAreHeaderFree(DropEnd(s));
    DropsAreHeaderFree(DropFirstNewline(DropEnd(s)));
  }

  lemma BodyIsHeaderFree(rest: string)
    ensures HeaderFree(BodyOf(rest))
  {
    FindHeaderBound(rest);
    if FindHeader(rest).Some? {
      CutIsHeaderFree(rest, FindHeader(rest).value);
    }
  }

  // Whatever is parsed, a content holds no header.
  lemma {:induction false} ParsedContentsAreHeaderFree(raw: string)
    ensures forall k :: 0 <= k < |Parse(raw)| ==> HeaderFree(Parse(raw)[k].content)
    decreases |raw|
  {
    var at := FindHeader(raw);
    if at.Some? {
      HeaderFits(raw, at.value);
      var rest := AfterHeader(raw[at.value..]);
      BodyIsHeaderFree(rest);
      CleanIsHeaderFree(BodyOf(rest));
      ParsedContentsAreHeaderFree(rest);
    }
  }

  // What the headers of these files take, at least.
  function HeaderSize(files: seq<File>): nat {
    if files == [] then 0 else |OPEN| + |files[0].path| + |CLOSE| + HeaderSize(files[1..])
  }

  lemma SliceWithin(c: string, r: string, k: nat)
    requires k <= |c|
    ensures (c + "\n" + r)[k..] == c[k..] + "\n" + r
  {
  }

  lemma SliceAfter(c: string, r: string, k: nat)
    requires k <= |r|
    ensures (c + "\n" + r)[|c| + 1 + k..] == r[k..]
  {
  }

  // A header-free text before a newline adds nothing.
  lemma ParseAfter(c: string, r: string)
    requires HeaderFree(c)
    ensures Parse(c + "\n" + r) == Parse(r)
  {
    FindHeaderSplits(c, r);
    if FindHeader(r).Some? {
      var k := FindHeader(r).value;
      FindHeaderBound(r);
      SliceAfter(c, r, k);
      ParseFromHeader(c + "\n" + r, |c| + 1 + k, r, k);
    }
  }

  lemma ParseFromHeader(s: string, k: nat, t: string, m: nat)
    requires FindHeader(s) == Some(k) && FindHeader(t) == Some(m) && k <= |s| && m <= |t| && s[k..] == t[m..]
    ensures Parse(s) == Parse(t)
  {
    ParseSkips(s, k);
    ParseSkips(t, m);
  }

  lemma DropFirstOf(left: string, r: string)
    ensures DropFirstNewline(left + "\n" + r) == if left == [] then r else DropFirstNewline(left) + "\n" + r
  {
    var s := left + "\n" + r;
    if left == [] {
      assert s[1..] == r;
    } else {
      assert s[0] == left[0];
      assert s[1..] == left[1..] + "\n" + r;
    }
  }

  // What a header leaves of its own line, or of a text that begins with that line.
  function LeftOf(c: string): (left: string)
    requires HeaderPath(c).Some?
    ensures |left| + |OPEN| + HeaderPath(c).value + |CLOSE| == |c|
  {
    HeaderFits(c, 0);
    c[|OPEN| + HeaderPath(c).value + |CLOSE|..]
  }

  lemma AfterFirstHeader(c: string, r: string)
    requires HeaderPath(c).Some?
    ensures HeaderPath(c + "\n" + r) == HeaderPath(c)
    ensures AfterHeader(c + "\n" + r) == DropFirstNewline(LeftOf(c) + "\n" + r)
  {
    HeaderIsLocal(c, r);
    var s, n := c + "\n" + r, |OPEN| + HeaderPath(c).value + |CLOSE|;
    HeaderFits(c, 0);
    SliceWithin(c, r, n);
    assert AfterHeader(s) == DropFirstNewline(s[n..]);
  }

  lemma ParseOfHeader(s: string)
    requires HeaderPath(s).Some?
    ensures HeaderSize(Parse(s)) <= |OPEN| + HeaderPath(s).value + |CLOSE| + HeaderSize(Parse(AfterHeader(s)))
  {
    assert s[0..] == s;
    HeaderFits(s, 0);
    TrimShrinks(PathOf(s));
    var read := Parse(s);
    assert read[0].path == Trim(PathOf(s)) && read[1..] == Parse(AfterHeader(s));
  }

  lemma SkipToHeader(c: string, r: string, k: nat)
    requires FindHeader(c) == Some(k)
    ensures k <= |c| && HeaderPath(c[k..]).Some? && Parse(c + "\n" + r) == Parse(c[k..] + "\n" + r)
  {
    HeaderFits(c, k);
    FindHeaderSplits(c, r);
    ParseSkips(c + "\n" + r, k);
    SliceWithin(c, r, k);
  }

  // The headers read from a text before a newline fit into it, and if it is
  // header-free there are none.
  lemma {:induction false} HeadersFit(c: string, r: string)
    ensures HeaderSize(Parse(c + "\n" + r)) <= (if HeaderFree(c) then 0 else |c|) + HeaderSize(Parse(r))
    decreases |c|
  {
    if HeaderFree(c) {
      ParseAfter(c, r);
    } else {
      var k := FindHeader(c).value;
      SkipToHeader(c, r, k);
      var left := LeftOf(c[k..]);
      if left != [] {
        HeadersFit(DropFirstNewline(left), r);
      }
      HeaderAndRest(c[k..], r, left);
    }
  }

  lemma HeaderAndRest(c: string, r: string, left: string)
    requires HeaderPath(c).Some? && left == LeftOf(c)
    ensures
      HeaderSize(Parse(c + "\n" + r)) <= |c| - |left| +
        HeaderSize(Parse(if left == [] then r else DropFirstNewline(left) + "\n" + r))
  {
    AfterFirstHeader(c, r);
    ParseOfHeader(c + "\n" + r);
    DropFirstOf(left, r);
  }

  // A printed block takes no more for its headers than the line of its path, and
  // nothing when the path is empty.
  lemma BlockHeaders(f: File, rest: string)
    requires HeaderFree(f.content)
    ensures
      HeaderSize(Parse(Block(f, rest))) <=
        (if f.path == [] then 0 else |OPEN| + |f.path| + |CLOSE|) + HeaderSize(Parse(rest))
  {
    var line := OPEN + f.path + CLOSE;
    assert Block(f, rest) == line + "\n" + Inside(f.content, rest);
    HeadersFit(line, Inside(f.content, rest));
    ParseAfter(f.content, END + "\n" + rest);
    EndIsHeaderFree();
    ParseAfter(END, rest);
    if f.path == [] {
      EmptyPathIsNoHeader();
      assert line == OPEN + CLOSE;
    }
  }

  lemma EmptyPathIsNoHeader()
    ensures HeaderFree(OPEN + CLOSE)
  {
    var s := OPEN + CLOSE;
    assert s[|OPEN|..] == CLOSE;
    var t := CLOSE[1..];
    assert t[1..][1..] == [] && |t| == 2;
    assert UntilClose(t[1..][1..]).None?;
    assert UntilClose(t[1..]).None?;
    assert HeaderPath(s).None?;
    NoHeaderInShort(s[4..]);
    assert s[1..][1..] == s[2..] && s[2..][1..] == s[3..] && s[3..][1..] == s[4..];
    assert s[4] == 'I' && OPEN[3] == 'F' && OPEN[2] == '=' && OPEN[1] == '=' && OPEN[0] == '=';
    assert s[1..][..|OPEN|][2] == s[3] == 'F';
    assert s[2..][..|OPEN|][1] == s[3];
    assert s[3..][..|OPEN|][0] == s[3];
    assert HeaderPath(s[3..]).None? && HeaderPath(s[2..]).None? && HeaderPath(s[1..]).None?;
    assert FindHeader(s[3..]).None?;
    assert FindHeader(s[2..]).None?;
    assert FindHeader(s[1..]).None?;
  }

  ghost predicate HeaderFreeContents(files: seq<File>) {
    forall k :: 0 <= k < |files| ==> HeaderFree(files[k].content)
  }

  ghost predicate NoEmptyPath(files: seq<File>) {
    forall k :: 0 <= k < |files| ==> files[k].path != []
  }

  // So the headers of a printed list take less than it needs if a path is empty.
  lemma {:induction false} PrintedHeaders(files: seq<File>)
    requires HeaderFreeContents(files)
    ensures HeaderSize(Parse(Print(files))) <= HeaderSize(files)
    ensures !NoEmptyPath(files) ==> HeaderSize(Parse(Print(files))) < HeaderSize(files)
  {
    if files == [] {
      EmptyHasNoHeader();
    } else {
      var rest := files[1..];
      assert HeaderFreeContents(rest) by {
        assert forall k :: 0 <= k < |rest| ==> rest[k] == files[k + 1];
      }
      PrintedHeaders(rest);
      BlockHeaders(files[0], Print(rest));
      NoEmptyPathCons(files);
    }
  }

  lemma NoEmptyPathCons(files: seq<File>)
    requires files != []
    ensures NoEmptyPath(files) <==> files[0].path != [] && NoEmptyPath(files[1..])
  {
    forall k | 0 < k < |files| ensures files[k] == files[1..][k - 1] {
    }
    if files[0].path != [] && NoEmptyPath(files[1..]) {
      forall k | 0 <= k < |files| ensures files[k].path != [] {
        assert k > 0 ==> files[1..][k - 1].path != [];
      }
    }
  }

  lemma EmptyPathIsLost(files: seq<File>)
    requires !NoEmptyPath(files)
    ensures Parse(Print(files)) != files
  {
    if Parse(Print(files)) == files {
      ParsedContentsAreHeaderFree(Print(files));
      assert HeaderFreeContents(Parse(Print(files)));
      PrintedHeaders(files);
    }
  }

  // Printing a list of files and parsing it gives back the same list, in order,
  // exactly when every path is a good one and no content holds a header or has a
  // newline at either edge.
  lemma RoundTrip(files: seq<File>)
    ensures Parse(Print(files)) == files <==> AllFaithful(files)
  {
    if OneLinePaths(files) {
      RoundTripOfLines(files);
    } else {
      var k :| 0 <= k < |files| && (files[k].path == [] || !OneLine(files[k].path));
      assert !Faithful(files[k]);
      if files[k].path == [] {
        EmptyPathIsLost(files);
      } else {
        ParsedPathsAreOneLine(Print(files));
      }
    }
  }

  // --- Blocks that end in other ways ---------------------------------------

  // How a block may end: with the terminator or, as the last one, without; with a
  // newline before and after it or not.
  predicate Ending(e: string) {
    e == "" || e == "\n" || e == END || e == END + "\n" || e == "\n" + END || e == "\n" + END + "\n"
  }

  // Without a terminator of its own, a content must not end in one.
  predicate Ends(content: string, e: string) {
    Ending(e) && (e == "" || e == "\n" ==> !HasSuffix(content, END))
  }

  lemma DropEndOfEnding(d: string, e: string)
    requires Ends(d, e) && (d != [] ==> d[|d| - 1] != '\n')
    ensures DropEnd(d + e) == if e == "" || e == "\n" then d + e else d
  {
    if e == "" {
      assert d + e == d;
      EndNotBeforeNewline(d);
    } else if e == "\n" {
      NoEndBeforeNewline(d);
    } else if e == END {
      DropBareEnd(d);
    } else if e == "\n" + END {
      DropBareEnd(d + "\n");
      WithoutNewline(d);
      assert d + e == (d + "\n") + END;
    } else if e == END + "\n" {
      assert (d + e)[|d|..] == END + "\n" && (d + e)[..|d|] == d;
    } else {
      assert d + e == d + "\n" + END + "\n";
      DropEndOfPrinted(d);
    }
  }

  lemma DropBareEnd(d: string)
    ensures DropEnd(d + END) == DropLastNewline(d)
  {
    var s := d + END;
    assert s[|d|..] == END && s[..|d|] == d;
    assert s[|s| - 1] == END[8] == '=';
    EndNotBeforeNewline(s);
  }

  // A text whose last character is no newline does not end in one.
  lemma EndNotBeforeNewline(d: string)
    requires d != [] ==> d[|d| - 1] != '\n'
    ensures !HasSuffix(d, END + "\n")
  {
    var e := END + "\n";
    if |e| <= |d| {
      assert d[|d| - |e|..][|e| - 1] == d[|d| - 1] && e[|e| - 1] == '\n';
    }
  }

  lemma NoEndBeforeNewline(d: string)
    ensures HasSuffix(d + "\n", END + "\n") <==> HasSuffix(d, END)
    ensures !HasSuffix(d + "\n", END)
  {
    var s := d + "\n";
    if |END| <= |d| {
      var n := |d| - |END|;
      assert s[n..] == d[n..] + "\n";
      assert (d[n..] + "\n")[..|END|] == d[n..] && (END + "\n")[..|END|] == END;
    }
    if |END| <= |s| {
      assert s[|s| - |END|..][|END| - 1] == '\n' && END[|END| - 1] == '=';
    }
  }

  lemma DropEdges(s: string)
    requires s != [] && s[0] != '\n'
    ensures DropFirstNewline(s) == s
    ensures s[|s| - 1] != '\n' ==> DropLastNewline(s) == s
    ensures DropLastNewline(s + "\n") == s && DropFirstNewline(s + "\n") == s + "\n"
  {
    assert (s + "\n")[..|s|] == s && (s + "\n")[0] == s[0];
  }

  // However it ends, a content without newlines at its edges is read whole.
  lemma CleanOfEnding(content: string, e: string)
    requires NoEdgeNewline(content) && Ends(content, e)
    ensures Clean(content + e) == content
  {
    if content == [] {
      CleanOfBareEnding(e);
      assert [] + e == e;
    } else {
      DropEdges(content);
      DropEndOfEnding(content, e);
      FirstOfEnding(content, e);
      if e == "" {
        assert content + e == content;
      }
    }
  }

  lemma FirstOfEnding(content: string, e: string)
    requires content != [] && content[0] != '\n'
    ensures DropFirstNewline(content + e) == content + e
  {
    assert (content + e)[0] == content[0];
  }

  lemma CleanOfBareEnding(e: string)
    requires Ending(e)
    ensures Clean(e) == []
  {
    if e == END {
      assert END[0] == '=' && END[8] == '=';
    } else if e == END + "\n" {
      assert e[0] == '=' && HasSuffix(e, END + "\n");
    } else if e == "\n" + END {
      assert e[1..] == END && END[0] == '=' && END[8] == '=';
    } else if e == "\n" + END + "\n" {
      assert e[1..] == END + "\n" && HasSuffix(e[1..], END + "\n");
    }
  }

  // The last block, with this ending.
  function LastBlock(f: File, e: string): string {
    OPEN + f.path + CLOSE + ("\n" + (f.content + e))
  }

  function PrintBefore(files: seq<File>, rest: string): string {
    if files == [] then rest else Block(files[0], PrintBefore(files[1..], rest))
  }

  lemma ReadsLastBlock(f: File, e: string)
    requires GoodPath(f.path) && NoEdgeNewline(f.content) && Ends(f.content, e) && HeaderFree(f.content + e)
    ensures FindHeader(LastBlock(f, e)) == Some(0) && Parse(LastBlock(f, e)) == [f]
  {
    var inside := f.content + e;
    var r := "\n" + inside;
    HeaderOfBlock(f.path, r);
    ReadsPath(f.path, r);
    assert r[0] == '\n' && r[1..] == inside;
    var s := LastBlock(f, e);
    assert s[0..] == s && AfterHeader(s) == inside;
    CleanOfEnding(f.content, e);
    assert Parse(inside) == [];
    assert Parse(s) == [File(Trim(PathOf(s)), Clean(inside))] + Parse(inside);
  }

  // A list whose last block ends in any of these ways is read back whole.
  lemma ReadsAnyEnding(files: seq<File>, f: File, e: string)
    requires AllFaithful(files)
    requires GoodPath(f.path) && NoEdgeNewline(f.content) && Ends(f.content, e) && HeaderFree(f.content + e)
    ensures Parse(PrintBefore(files, LastBlock(f, e))) == files + [f]
  {
    ReadsLastBlock(f, e);
    ParseBefore(files, LastBlock(f, e));
  }

  lemma {:induction false} ParseBefore(files: seq<File>, rest: string)
    requires AllFaithful(files) && FindHeader(rest) == Some(0)
    ensures FindHeader(PrintBefore(files, rest)) == Some(0)
    ensures Parse(PrintBefore(files, rest)) == files + Parse(rest)
  {
    if files == [] {
      assert files + Parse(rest) == Parse(rest);
    } else {
      AllFaithfulCons(files);
      ParseBefore(files[1..], rest);
      BlockThenRest(files[0], PrintBefore(files[1..], rest));
      FirstAndOthers(files, Parse(rest));
    }
  }

  lemma FirstAndOthers(files: seq<File>, more: seq<File>)
    requires files != []
    ensures files + more == [files[0]] + (files[1..] + more)
  {
  }

  lemma BlockThenRest(f: File, rest: string)
    requires Faithful(f) && FindHeader(rest) == Some(0)
    ensures FindHeader(Block(f, rest)) == Some(0) && Parse(Block(f, rest)) == [f] + Parse(rest)
  {
    ReadsBlock(f, rest);
    ParseOfBlock(f, rest);
    ReadsHeaderFree(f.content, rest);
    TrimmedIsWhole(f.content);
  }

  // In particular, the newline after the last terminator may be left out.
  lemma FinalNewlineIsOptional(files: seq<File>)
    requires files != [] && AllFaithful(files)
    ensures ReadsWithoutLast(Print(files), files)
  {
    var n := |files| - 1;
    AllFaithfulInit(files);
    PrintWithoutNewline(files);
    ReadsWithoutNewline(files[..n], files[n]);
    CutNewline(Print(files), PrintBefore(files[..n], LastBlock(files[n], "\n" + END)), files);
  }

  // The text ends in a newline, and is read as these files without it.
  predicate ReadsWithoutLast(text: string, files: seq<File>) {
    text != [] && text[|text| - 1] == '\n' && Parse(text[..|text| - 1]) == files
  }

  lemma AllFaithfulInit(files: seq<File>)
    requires files != [] && AllFaithful(files)
    ensures
      var n := |files| - 1;
      AllFaithful(files[..n]) && Faithful(files[n]) && files[..n] + [files[n]] == files
  {
  }

  lemma CutNewline(text: string, body: string, files: seq<File>)
    requires text == body + "\n" && Parse(body) == files
    ensures ReadsWithoutLast(text, files)
  {
    assert text[..|text| - 1] == body;
  }

  lemma ReadsWithoutNewline(files: seq<File>, f: File)
    requires AllFaithful(files) && Faithful(f)
    ensures Parse(PrintBefore(files, LastBlock(f, "\n" + END))) == files + [f]
  {
    EndKeepsHeaderFree(f.content);
    ReadsAnyEnding(files, f, "\n" + END);
  }

  lemma EndKeepsHeaderFree(content: string)
    requires HeaderFree(content)
    ensures HeaderFree(content + ("\n" + END))
  {
    FindHeaderSplits(content, END);
    EndIsHeaderFree();
    assert content + "\n" + END == content + ("\n" + END);
  }

  lemma WithoutNewline(s: string)
    ensures (s + "\n")[..|s|] == s && (s + "\n")[|s|] == '\n'
  {
  }

  lemma {:induction false} PrintWithoutNewline(files: seq<File>)
    requires files != []
    ensures
      var n := |files| - 1;
      Print(files) == PrintBefore(files[..n], LastBlock(files[n], "\n" + END)) + "\n"
    decreases |files|
  {
    var n := |files| - 1;
    if n == 0 {
      LastBlockPrinted(files[0]);
      assert files[..0] == [] && files[1..] == [];
    } else {
      PrintWithoutNewline(files[1..]);
      assert files[1..][..n - 1] == files[..n][1..];
      BlockAppends(files[0], PrintBefore(files[..n][1..], LastBlock(files[n], "\n" + END)));
    }
  }

  lemma LastBlockPrinted(f: File)
    ensures Block(f, []) == LastBlock(f, "\n" + END) + "\n"
  {
    assert Inside(f.content, []) == (f.content + ("\n" + END)) + "\n";
  }

  lemma BlockAppends(f: File, rest: string)
    ensures Block(f, rest + "\n") == Block(f, rest) + "\n"
  {
    assert Inside(f.content, rest + "\n") == Inside(f.content, rest) + "\n";
  }

  function TrimAll(files: seq<File>): seq<File> {
    if files == [] then [] else [File(files[0].path, Trimmed(files[0].content))] + TrimAll(files[1..])
  }

  // A content without a header loses only newlines at its edges.
  lemma {:induction false} RoundTripUpToEdges(files: seq<File>)
    requires GoodPaths(files) && forall k :: 0 <= k < |files| ==> HeaderFree(files[k].content)
    ensures Parse(Print(files)) == TrimAll(files)
    decreases |files|
  {
    if files == [] {
      EmptyHasNoHeader();
    } else {
      RoundTripUpToEdges(files[1..]);
      PrintBegins(files[1..]);
      ParseOfBlock(files[0], Print(files[1..]));
      ReadsHeaderFree(files[0].content, Print(files[1..]));
    }
  }
}
