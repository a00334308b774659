/** Server-sent events: splitting bytes into blocks, reading payloads, printing frames. */
module Sse {
  import opened Json
  import opened Text

  /** A byte is written as the character with its value. */
  type Bytes = string

  // ---------------------------------------------------------------- splitting

  /** An event block ends at `i` plus the returned width. */
  function EndsAt(s: Bytes, i: nat): (width: nat)
    requires i + 1 < |s|
  {
    if s[i] == '\n' && s[i + 1] == '\n' then 2
    else if i + 3 < |s| && s[i] == '\r' && s[i + 1] == '\n' && s[i + 2] == '\r' && s[i + 3] == '\n' then 4
    else 0
  }

  function BoundaryFrom(s: Bytes, i: nat): (boundary: Option<nat>)
    ensures boundary.Some? ==> i + 2 <= boundary.value <= |s|
    decreases |s| - i
  {
    if i + 1 < |s| then
      if EndsAt(s, i) > 0 then Some(i + EndsAt(s, i)) else BoundaryFrom(s, i + 1)
    else None
  }

  /** The end of the first complete event block. */
  function Boundary(s: Bytes): Option<nat> {
    BoundaryFrom(s, 0)
  }

  method FindEventBoundary(buffer: Bytes) returns (boundary: Option<nat>)
    ensures boundary == Boundary(buffer)
  {
    if buffer == "" { return None; }
    var index := 0;
    while index + 1 < |buffer|
      invariant BoundaryFrom(buffer, index) == Boundary(buffer)
    {
      if EndsAt(buffer, index) > 0 { return Some(index + EndsAt(buffer, index)); }
      index := index + 1;
    }
    return None;
  }

  /** The complete blocks of a byte string, and what is left over. */
  function Split(s: Bytes): (seq<Bytes>, Bytes)
    decreases |s|
  {
    match Boundary(s)
    case None => ([], s)
    case Some(n) =>
      var (blocks, rest) := Split(s[n..]);
      ([s[..n]] + blocks, rest)
  }

  class SseSplitter {
    var buffer: Bytes

    constructor ()
      ensures buffer == ""
    {
      buffer := "";
    }

    method Push(chunk: Bytes) returns (blocks: seq<Bytes>)
      modifies this
      ensures (blocks, buffer) == Split(old(buffer) + chunk)
    {
      buffer := buffer + chunk;
      blocks := [];
      ghost var whole := buffer;
      assert blocks + Split(whole).0 == Split(whole).0;
      var boundary := FindEventBoundary(buffer);
      while boundary.Some?
        invariant boundary == Boundary(buffer)
        invariant Split(whole) == (blocks + Split(buffer).0, Split(buffer).1)
        decreases |buffer|
      {
        var block := buffer[..boundary.value];
        assert blocks + Split(buffer).0 == blocks + [block] + Split(buffer[boundary.value..]).0;
        buffer := buffer[boundary.value..];
        blocks := blocks + [block];
        boundary := FindEventBoundary(buffer);
      }
      assert blocks + [] == blocks;
    }

    method Flush() returns (tail: Option<Bytes>)
      modifies this
      ensures buffer == ""
      ensures tail == if old(buffer) == "" then None else Some(old(buffer))
    {
      if buffer == "" { return None; }
      tail := Some(buffer);
      buffer := "";
    }
  }

  /** A block that ends where its first boundary is. */
  predicate IsBlock(b: Bytes) {
    Boundary(b) == Some(|b|)
  }

  /** The first `n` bytes end in an empty line: two line ends in a row, of LF or of CRLF. */
  ghost predicate ClosedAt(s: Bytes, n: nat) {
    && 2 <= n <= |s| && s[n - 1] == '\n'
    && (s[n - 2] == '\n' || (n >= 4 && s[n - 2] == '\r' && s[n - 3] == '\n' && s[n - 4] == '\r'))
  }

  lemma ClosedIsAnEnd(s: Bytes, m: nat)
    requires ClosedAt(s, m)
    ensures m >= 2 && (EndsAt(s, m - 2) == 2 || (m >= 4 && EndsAt(s, m - 4) == 4))
  {
  }

  /** A block ends at its first empty line. */
  lemma {:induction false} BoundaryIsFirstEmptyLine(s: Bytes, i: nat)
    requires forall j | 0 <= j < i && j + 1 < |s| :: EndsAt(s, j) == 0
    ensures match BoundaryFrom(s, i)
            case None => forall n: nat :: !ClosedAt(s, n)
            case Some(n) => ClosedAt(s, n) && forall m: nat | m < n :: !ClosedAt(s, m)
    decreases |s| - i
  {
    if i + 1 >= |s| {
      forall n: nat ensures !ClosedAt(s, n) {
        if ClosedAt(s, n) { ClosedIsAnEnd(s, n); }
      }
    } else if EndsAt(s, i) == 0 {
      BoundaryIsFirstEmptyLine(s, i + 1);
    } else {
      forall m: nat | m < i + EndsAt(s, i) ensures !ClosedAt(s, m) {
        if ClosedAt(s, m) { ClosedIsAnEnd(s, m); }
      }
    }
  }

  /** A complete block is recognised as soon as it is there: later bytes never move a
      boundary already found. */
  lemma {:induction false} BoundaryIsStable(p: Bytes, q: Bytes, i: nat)
    requires BoundaryFrom(p, i).Some?
    ensures BoundaryFrom(p + q, i) == BoundaryFrom(p, i)
    decreases |p| - i
  {
    if EndsAt(p, i) == 0 {
      assert BoundaryFrom(p, i + 1).Some?;
      BoundaryIsStable(p, q, i + 1);
      if i + 3 >= |p| && i + 2 < |p| {
        assert BoundaryFrom(p, i + 2) == None;
      }
    }
  }

  /** The blocks and the rest are exactly the input, every block is complete and no
      boundary is left in the rest. */
  lemma {:induction false} SplitMeaning(s: Bytes)
    ensures var (blocks, rest) := Split(s);
      Flatten(blocks) + rest == s && Boundary(rest) == None && forall b | b in blocks :: IsBlock(b)
    decreases |s|
  {
    if Boundary(s).Some? {
      var block, tail := SplitFirst(s);
      SplitMeaning(tail);
      PrependBlock(block, Split(tail).0, Split(tail).1);
    }
  }

  lemma SplitFirst(s: Bytes) returns (block: Bytes, tail: Bytes)
    requires Boundary(s).Some?
    ensures s == block + tail && IsBlock(block) && |tail| < |s|
    ensures Split(s) == ([block] + Split(tail).0, Split(tail).1)
  {
    var n := Boundary(s).value;
    BoundaryIsOwn(s, 0);
    block, tail := s[..n], s[n..];
  }

  lemma PrependBlock(block: Bytes, blocks: seq<Bytes>, rest: Bytes)
    requires IsBlock(block) && forall b | b in blocks :: IsBlock(b)
    ensures forall b | b in [block] + blocks :: IsBlock(b)
    ensures Flatten([block] + blocks) + rest == block + (Flatten(blocks) + rest)
  {
    assert forall b | b in [block] + blocks :: b == block || b in blocks;
    assert ([block] + blocks)[1..] == blocks;
    Associates(block, Flatten(blocks), rest);
  }

  lemma {:induction false} BoundaryIsOwn(s: Bytes, i: nat)
    requires BoundaryFrom(s, i).Some?
    ensures BoundaryFrom(s[..BoundaryFrom(s, i).value], i) == BoundaryFrom(s, i)
    decreases |s| - i
  {
    if EndsAt(s, i) == 0 {
      BoundaryIsOwn(s, i + 1);
    }
  }

  /** Nothing else has these properties. */
  lemma {:induction false} SplitIsUnique(blocks: seq<Bytes>, rest: Bytes)
    requires Boundary(rest) == None && forall b | b in blocks :: IsBlock(b)
    ensures Split(Flatten(blocks) + rest) == (blocks, rest)
  {
    var s := Flatten(blocks) + rest;
    if blocks == [] {
      assert s == rest;
    } else {
      var tail := Flatten(blocks[1..]) + rest;
      assert s == blocks[0] + tail;
      assert IsBlock(blocks[0]);
      BoundaryIsStable(blocks[0], tail, 0);
      assert s[..|blocks[0]|] == blocks[0] && s[|blocks[0]|..] == tail;
      SplitIsUnique(blocks[1..], rest);
      assert [blocks[0]] + blocks[1..] == blocks;
    }
  }

  lemma SplitAppends(a: Bytes, b: Bytes)
    ensures var (blocks, rest) := Split(a);
      Split(a + b) == (blocks + Split(rest + b).0, Split(rest + b).1)
  {
    var (blocks, rest) := Split(a);
    var (more, last) := Split(rest + b);
    SplitMeaning(a);
    SplitMeaning(rest + b);
    FlattenAppends(blocks, more);
    Associates(Flatten(blocks), Flatten(more), last);
    Associates(Flatten(blocks), rest, b);
    SplitIsUnique(blocks + more, last);
  }

  /** What a splitter holding `buffer` yields for a sequence of pushed chunks. */
  function Feed(buffer: Bytes, chunks: seq<Bytes>): (seq<Bytes>, Bytes)
    decreases chunks
  {
    if chunks == [] then ([], buffer) else
      var (blocks, rest) := Split(buffer + chunks[0]);
      var (more, last) := Feed(rest, chunks[1..]);
      (blocks + more, last)
  }

  /** However the bytes are cut into chunks, the blocks are those of the whole. */
  lemma {:induction false} ChunkingIsIrrelevant(buffer: Bytes, chunks: seq<Bytes>)
    requires Boundary(buffer) == None
    ensures Feed(buffer, chunks) == Split(buffer + Flatten(chunks))
    decreases chunks
  {
    if chunks == [] {
      assert buffer + "" == buffer;
    } else {
      var first := buffer + chunks[0];
      SplitMeaning(first);
      ChunkingIsIrrelevant(Split(first).1, chunks[1..]);
      SplitAppends(first, Flatten(chunks[1..]));
      assert buffer + Flatten(chunks) == first + Flatten(chunks[1..]);
    }
  }

  // ---------------------------------------------------------------- payloads

  function LineLength(s: Bytes): (n: nat)
    ensures n <= |s| && (n < |s| ==> s[n] == '\n')
  {
    if s == "" || s[0] == '\n' then 0 else 1 + LineLength(s[1..])
  }

  /** Lines end at LF or CRLF; the last one may be unterminated and then keeps a CR. */
  function Lines(s: Bytes): seq<Bytes>
    decreases |s|
  {
    if s == "" then [] else
      var n := LineLength(s);
      if n == |s| then [s] else
        var line := s[..n];
        [if line != "" && line[n - 1] == '\r' then line[..n - 1] else line] + Lines(s[n + 1..])
  }

  const DATA := "data:"

  function AddLine(payload: Bytes, line: Bytes): Bytes {
    if DATA <= line then
      var rest := line[|DATA|..];
      var data := if rest != "" && rest[0] == ' ' then rest[1..] else rest;
      (if payload != "" then payload + "\n" else payload) + data
    else payload
  }

  function AddLines(payload: Bytes, lines: seq<Bytes>): Bytes
    decreases lines
  {
    if lines == [] then payload else AddLines(AddLine(payload, lines[0]), lines[1..])
  }

  /** The `data:` payload of one event block. */
  function Payload(block: Bytes): Bytes {
    AddLines("", Lines(block))
  }

  method EventPayload(block: Bytes) returns (payload: Bytes)
    ensures payload == Payload(block)
  {
    var lines := Lines(block);
    payload := "";
    for i := 0 to |lines|
      invariant AddLines(payload, lines[i..]) == Payload(block)
    {
      assert lines[i..][1..] == lines[i + 1..];
      payload := AddLine(payload, lines[i]);
    }
  }

  // ---------------------------------------------------------------- printing

  datatype Frame = Event(name: Bytes, payload: Bytes) | Anonymous(payload: Bytes)

  function PrintFrame(f: Frame): Bytes {
    match f
    case Event(name, payload) => "event: " + name + "\n" + ("data: " + payload + "\n\n")
    case Anonymous(payload) => "data: " + payload + "\n\n"
  }

  predicate OneLine(s: Bytes) {
    '\n' !in s && '\r' !in s
  }

  predicate Printable(f: Frame) {
    OneLine(f.payload) && (f.Event? ==> OneLine(f.name))
  }

  lemma {:induction false} LineLengthOf(line: Bytes, k: Bytes)
    requires '\n' !in line
    ensures LineLength(line + "\n" + k) == |line|
  {
    var s := line + "\n" + k;
    if line != "" {
      assert s[1..] == line[1..] + "\n" + k;
      LineLengthOf(line[1..], k);
    }
  }

  lemma LinesOf(line: Bytes, k: Bytes)
    requires OneLine(line)
    ensures Lines(line + "\n" + k) == [line] + Lines(k)
  {
    LineLengthOf(line, k);
    var s := line + "\n" + k;
    assert s[..|line|] == line && s[|line| + 1..] == k;
  }

  lemma DataLine(payload: Bytes, text: Bytes)
    ensures AddLine(payload, "data: " + text) == (if payload != "" then payload + "\n" else payload) + text
  {
    var line := "data: " + text;
    assert line[|DATA|..] == " " + text;
    assert (" " + text)[1..] == text;
  }

  lemma LinesOfData(payload: Bytes)
    requires OneLine(payload)
    ensures Lines("data: " + payload + "\n\n") == ["data: " + payload, ""]
  {
    DataIsOneLine(payload);
    var line := "data: " + payload;
    LinesOf(line, "\n");
    assert line + "\n" + "\n" == line + "\n\n";
    EmptyLine();
  }

  lemma DataIsOneLine(payload: Bytes)
    requires OneLine(payload)
    ensures OneLine("data: " + payload)
  {
    assert forall c | c in "data: " + payload :: c in "data: " || c in payload;
  }

  lemma EmptyLine()
    ensures Lines("\n") == [""]
  {
    LinesOf("", "");
    assert "" + "\n" + "" == "\n";
  }

  lemma AddFirst(payload: Bytes, line: Bytes, rest: seq<Bytes>)
    ensures AddLines(payload, [line] + rest) == AddLines(AddLine(payload, line), rest)
  {
    assert ([line] + rest)[1..] == rest;
  }

  lemma AddEmpty(payload: Bytes)
    ensures AddLines(payload, [""]) == payload
  {
    assert !(DATA <= "") && [""][1..] == [];
  }

  lemma AddTwo(payload: Bytes)
    ensures AddLines("", ["data: " + payload, ""]) == payload
  {
    DataLine("", payload);
    assert "" + payload == payload;
    var line := "data: " + payload;
    assert [line, ""] == [line] + [""];
    AddFirst("", line, [""]);
    AddEmpty(payload);
  }

  lemma AddAfter(line: Bytes, lines: seq<Bytes>)
    requires !(DATA <= line)
    ensures AddLines("", [line] + lines) == AddLines("", lines)
  {
    AddFirst("", line, lines);
  }

  /** A printed frame reads back as its payload. */
  lemma PayloadOfFrame(f: Frame)
    requires Printable(f)
    ensures Payload(PrintFrame(f)) == f.payload
  {
    LinesOfData(f.payload);
    AddTwo(f.payload);
    if f.Event? { NameIsSkipped(f.name, "data: " + f.payload + "\n\n"); }
  }

  lemma NameIsSkipped(name: Bytes, rest: Bytes)
    requires OneLine(name)
    ensures Payload("event: " + name + "\n" + rest) == Payload(rest)
  {
    var line := "event: " + name;
    assert !(DATA <= line) by { assert line[0] == 'e'; }
    LinesOf(line, rest);
    AddAfter(line, Lines(rest));
  }

  lemma {:induction false} BoundaryIs(s: Bytes, n: nat, i: nat)
    requires i + 2 <= n == |s| && '\r' !in s
    requires s[n - 2] == '\n' && s[n - 1] == '\n'
    requires forall j | i <= j < n - 2 :: !(s[j] == '\n' && s[j + 1] == '\n')
    ensures BoundaryFrom(s, i) == Some(n)
    decreases n - i
  {
    if i < n - 2 { BoundaryIs(s, n, i + 1); }
  }

  lemma FrameIsBlock(f: Frame)
    requires Printable(f)
    ensures IsBlock(PrintFrame(f))
  {
    var s := PrintFrame(f);
    var line := "data: " + f.payload;
    if f.Event? {
      var name := "event: " + f.name;
      assert s == name + "\n" + (line + "\n\n");
      assert s[|name|] == '\n' && s[|name| + 1] == 'd';
      assert forall j | 0 <= j < |s| - 2 :: s[j] == '\n' ==> j == |name|;
    } else {
      assert forall j | 0 <= j < |s| - 2 :: s[j] != '\n';
    }
    BoundaryIs(s, |s|, 0);
  }

  /** Printing frames, sending them in any chunks, splitting and reading the payloads
      gives back the payloads. */
  lemma FramesRoundTrip(frames: seq<Frame>, chunks: seq<Bytes>)
    requires forall f | f in frames :: Printable(f)
    requires Flatten(chunks) == Flatten(seq(|frames|, i requires 0 <= i < |frames| => PrintFrame(frames[i])))
    ensures var (blocks, rest) := Feed("", chunks);
      rest == "" && |blocks| == |frames| && forall i | 0 <= i < |frames| :: Payload(blocks[i]) == frames[i].payload
  {
    var blocks := seq(|frames|, i requires 0 <= i < |frames| => PrintFrame(frames[i]));
    forall b | b in blocks ensures IsBlock(b) {
      var i :| 0 <= i < |frames| && b == PrintFrame(frames[i]);
      FrameIsBlock(frames[i]);
    }
    SplitIsUnique(blocks, "");
    ChunkingIsIrrelevant("", chunks);
    assert "" + Flatten(chunks) == Flatten(blocks) + "";
    forall i | 0 <= i < |frames| ensures Payload(blocks[i]) == frames[i].payload {
      PayloadOfFrame(frames[i]);
    }
  }

  // ---------------------------------------------------------------- blocks as others print them

  /** Lines end in LF or in CRLF. */
  function Eol(crlf: bool): Bytes {
    if crlf then "\r\n" else "\n"
  }

  /** An event block of given lines, closed by an empty one. */
  function PrintBlock(lines: seq<Bytes>, crlf: bool): Bytes {
    if lines == [] then Eol(crlf) else lines[0] + Eol(crlf) + PrintBlock(lines[1..], crlf)
  }

  predicate IsLine(line: Bytes) {
    line != "" && OneLine(line)
  }

  /** A line is not closed, and what follows it is closed where it is closed on its own. */
  lemma ClosedBehind(line: Bytes, crlf: bool, rest: Bytes, m: nat)
    requires IsLine(line) && rest != "" && rest[0] != '\n' && rest[0] != '\r'
    ensures var n := |line + Eol(crlf)|;
      ClosedAt(line + Eol(crlf) + rest, m) <==> m >= n && ClosedAt(rest, m - n)
  {
    var p := line + Eol(crlf);
    var b := p + rest;
    assert b[|p|] == rest[0] && forall i | 0 <= i < |p| - 1 :: b[i] != '\n';
    assert forall i | |p| <= i < |b| :: b[i] == rest[i - |p|];
  }

  lemma LastLineCloses(line: Bytes, crlf: bool, m: nat)
    requires IsLine(line)
    ensures ClosedAt(line + Eol(crlf) + Eol(crlf), m) <==> m == |line| + 2 * |Eol(crlf)|
  {
    var b := line + Eol(crlf) + Eol(crlf);
    assert forall i | 0 <= i < |line| :: b[i] == line[i];
  }

  /** However its lines end, a printed block is one complete block. */
  lemma BlockIsWhole(lines: seq<Bytes>, crlf: bool)
    requires lines != [] && forall l | l in lines :: IsLine(l)
    ensures IsBlock(PrintBlock(lines, crlf))
  {
    var b := PrintBlock(lines, crlf);
    forall m: nat ensures ClosedAt(b, m) <==> m == |b| { ClosedOnlyAtEnd(lines, crlf, m); }
    BoundaryIsFirstEmptyLine(b, 0);
    assert ClosedAt(b, |b|);
  }

  lemma {:induction false} ClosedOnlyAtEnd(lines: seq<Bytes>, crlf: bool, m: nat)
    requires lines != [] && forall l | l in lines :: IsLine(l)
    ensures ClosedAt(PrintBlock(lines, crlf), m) <==> m == |PrintBlock(lines, crlf)|
  {
    var rest := PrintBlock(lines[1..], crlf);
    if |lines| == 1 {
      assert rest == Eol(crlf);
      LastLineCloses(lines[0], crlf, m);
    } else {
      assert IsLine(lines[1]) && rest[0] == lines[1][0];
      ClosedBehind(lines[0], crlf, rest, m);
      var n := |lines[0] + Eol(crlf)|;
      if m >= n { ClosedOnlyAtEnd(lines[1..], crlf, m - n); }
    }
  }

  lemma LineWithEol(line: Bytes, crlf: bool, k: Bytes)
    requires OneLine(line)
    ensures Lines(line + Eol(crlf) + k) == [line] + Lines(k)
  {
    if crlf {
      var cr := line + "\r";
      LineLengthOf(cr, k);
      var s := line + Eol(crlf) + k;
      assert s == cr + "\n" + k;
      assert s[..|cr|] == cr && s[|cr| + 1..] == k && cr[..|line|] == line;
    } else {
      LinesOf(line, k);
    }
  }

  /** The lines of a printed block come back, and the empty one that closes it. */
  lemma {:induction false} PrintedLinesComeBack(lines: seq<Bytes>, crlf: bool)
    requires forall l | l in lines :: IsLine(l)
    ensures Lines(PrintBlock(lines, crlf)) == lines + [""]
  {
    if lines == [] {
      LineWithEol("", crlf, "");
      assert "" + Eol(crlf) + "" == Eol(crlf) && [""] + Lines("") == [""];
    } else {
      PrintedLinesComeBack(lines[1..], crlf);
      assert IsLine(lines[0]);
      LineWithEol(lines[0], crlf, PrintBlock(lines[1..], crlf));
      assert [lines[0]] + (lines[1..] + [""]) == lines + [""];
    }
  }

  /** The texts of the data fields, one below the other. */
  function Stacked(texts: seq<Bytes>): Bytes {
    if texts == [] then "" else if |texts| == 1 then texts[0] else texts[0] + "\n" + Stacked(texts[1..])
  }

  function DataLines(texts: seq<Bytes>): seq<Bytes> {
    seq(|texts|, i requires 0 <= i < |texts| => "data: " + texts[i])
  }

  lemma {:induction false} StackGrows(payload: Bytes, texts: seq<Bytes>, rest: seq<Bytes>)
    requires payload != ""
    ensures AddLines(payload, DataLines(texts) + rest) == AddLines(Stacked([payload] + texts), rest)
    decreases texts
  {
    var lines := DataLines(texts) + rest;
    if texts == [] {
      assert lines == rest && [payload] + texts == [payload];
    } else {
      assert lines == ["data: " + texts[0]] + (DataLines(texts[1..]) + rest);
      AddFirst(payload, "data: " + texts[0], DataLines(texts[1..]) + rest);
      DataLine(payload, texts[0]);
      StackGrows(payload + "\n" + texts[0], texts[1..], rest);
      StackedFirst(payload, texts);
    }
  }

  lemma StackedFirst(payload: Bytes, texts: seq<Bytes>)
    requires texts != []
    ensures Stacked([payload] + texts) == Stacked([payload + "\n" + texts[0]] + texts[1..])
  {
    var below := [payload + "\n" + texts[0]] + texts[1..];
    assert ([payload] + texts)[1..] == texts && below[1..] == texts[1..];
    if |texts| == 1 {
      assert below == [payload + "\n" + texts[0]];
    } else {
      Associates(payload + "\n", texts[0] + "\n", Stacked(texts[1..]));
      Associates(payload + "\n", texts[0], "\n");
    }
  }

  /** An event as others may print it: other fields first, data of several lines, LF or CRLF. */
  datatype Wire = Wire(fields: seq<Bytes>, texts: seq<Bytes>, crlf: bool)

  predicate IsOther(field: Bytes) {
    IsLine(field) && !(DATA <= field)
  }

  ghost predicate WellFormed(w: Wire) {
    && w.texts != [] && (forall t | t in w.texts :: OneLine(t))
    && forall f | f in w.fields :: IsOther(f)
  }

  function PrintWire(w: Wire): Bytes {
    PrintBlock(w.fields + DataLines(w.texts), w.crlf)
  }

  lemma {:induction false} OthersAreSkipped(fields: seq<Bytes>, lines: seq<Bytes>)
    requires forall f | f in fields :: IsOther(f)
    ensures AddLines("", fields + lines) == AddLines("", lines)
  {
    if fields == [] {
      assert fields + lines == lines;
    } else {
      assert (fields + lines)[1..] == fields[1..] + lines && IsOther(fields[0]);
      OthersAreSkipped(fields[1..], lines);
    }
  }

  /** The texts from the first that is not empty: the code joins a line only to what is there. */
  function Shown(texts: seq<Bytes>): seq<Bytes> {
    if texts != [] && texts[0] == "" then Shown(texts[1..]) else texts
  }

  lemma {:induction false} DataComesBack(texts: seq<Bytes>)
    ensures AddLines("", DataLines(texts) + [""]) == Stacked(Shown(texts))
  {
    if texts == [] {
      assert DataLines(texts) + [""] == [""];
      AddEmpty("");
    } else {
      DataLine("", texts[0]);
      assert "" + texts[0] == texts[0];
      var below := DataLines(texts[1..]) + [""];
      assert DataLines(texts) + [""] == ["data: " + texts[0]] + below;
      AddFirst("", "data: " + texts[0], below);
      if texts[0] == "" { DataComesBack(texts[1..]); } else { DataFromHere(texts); }
    }
  }

  lemma DataFromHere(texts: seq<Bytes>)
    requires texts != [] && texts[0] != ""
    ensures AddLines(texts[0], DataLines(texts[1..]) + [""]) == Stacked(texts)
  {
    StackGrows(texts[0], texts[1..], [""]);
    assert [texts[0]] + texts[1..] == texts;
    AddEmpty(Stacked(texts));
  }

  lemma {:induction false} ShownIsShorter(texts: seq<Bytes>)
    ensures |Stacked(Shown(texts))| <= |Stacked(texts)|
    ensures |texts| > 1 && texts[0] == "" ==> |Stacked(Shown(texts))| < |Stacked(texts)|
  {
    if texts != [] && texts[0] == "" { ShownIsShorter(texts[1..]); }
  }

  /** Such an event is one block, and its payload the data lines one below the other; but a
      first one that is empty is lost together with its line end, unless it is the only one. */
  lemma WireComesBack(w: Wire)
    requires WellFormed(w)
    ensures IsBlock(PrintWire(w)) && Payload(PrintWire(w)) == Stacked(Shown(w.texts))
    ensures Payload(PrintWire(w)) == Stacked(w.texts) <==> |w.texts| == 1 || w.texts[0] != ""
  {
    var data := DataLines(w.texts);
    var lines := w.fields + data;
    forall l | l in lines ensures IsLine(l) {
      if l in data {
        var i :| 0 <= i < |data| && l == data[i];
        assert OneLine(w.texts[i]);
        DataIsOneLine(w.texts[i]);
      } else {
        assert IsOther(l);
      }
    }
    assert lines[|w.fields|] == data[0];
    BlockIsWhole(lines, w.crlf);
    PrintedLinesComeBack(lines, w.crlf);
    Associates(w.fields, data, [""]);
    OthersAreSkipped(w.fields, data + [""]);
    DataComesBack(w.texts);
    ShownIsShorter(w.texts);
  }

  /** A stream of such events, in any chunks, gives back their payloads. */
  lemma WiresComeBack(wires: seq<Wire>, chunks: seq<Bytes>)
    requires forall w | w in wires :: WellFormed(w)
    requires Flatten(chunks) == Flatten(seq(|wires|, i requires 0 <= i < |wires| => PrintWire(wires[i])))
    ensures var (blocks, rest) := Feed("", chunks);
      && rest == "" && |blocks| == |wires|
      && forall i | 0 <= i < |wires| :: Payload(blocks[i]) == Stacked(Shown(wires[i].texts))
  {
    var blocks := seq(|wires|, i requires 0 <= i < |wires| => PrintWire(wires[i]));
    forall b | b in blocks ensures IsBlock(b) {
      var i :| 0 <= i < |wires| && b == PrintWire(wires[i]);
      WireComesBack(wires[i]);
    }
    SplitIsUnique(blocks, "");
    ChunkingIsIrrelevant("", chunks);
    assert "" + Flatten(chunks) == Flatten(blocks) + "";
    forall i | 0 <= i < |wires| ensures Payload(blocks[i]) == Stacked(Shown(wires[i].texts)) {
      WireComesBack(wires[i]);
    }
  }
}
