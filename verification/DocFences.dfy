/** tools/doc-examples/build.rs: extracting compiled Rust blocks from Markdown. */
module DocFences {
  import opened Wrappers

  datatype Kind = Statements | Body | Arms | Builder

  datatype Fence = Compiled(kind: Kind) | Ignored | Other

  datatype Error = UnknownAttribute(line: nat, attribute: string) | Unterminated

  /** `line` is the 1-based line of the opening fence. */
  datatype Block = Block(index: nat, line: nat, kind: Kind, code: string)

  const FENCE := "```"

  // ---- text primitives ----

  /** Unicode White_Space, the class trimmed by str::trim. */
  predicate IsSpace(c: char) {
    || '\t' <= c <= '\r' || c == ' ' || c == '\U{85}' || c == '\U{A0}' || c == '\U{1680}'
    || '\U{2000}' <= c <= '\U{200A}' || c == '\U{2028}' || c == '\U{2029}' || c == '\U{202F}'
    || c == '\U{205F}' || c == '\U{3000}'
  }

  /** The twenty-five code points with the White_Space property. */
  lemma SpaceExactly(c: char)
    ensures IsSpace(c) <==>
            c as int in {9, 10, 11, 12, 13, 32, 133, 160, 5760, 8192, 8193, 8194, 8195, 8196, 8197, 8198, 8199, 8200,
                         8201, 8202, 8232, 8233, 8239, 8287, 12288}
  {}

  function TrimStart(s: string): string {
    if s != [] && IsSpace(s[0]) then TrimStart(s[1..]) else s
  }

  function TrimEnd(s: string): string {
    if s != [] && IsSpace(s[|s| - 1]) then TrimEnd(s[..|s| - 1]) else s
  }

  function Trim(s: string): string {
    TrimEnd(TrimStart(s))
  }

  function StripPrefix(s: string, prefix: string): (r: Option<string>)
    ensures r.Some? ==> s == prefix + r.value
    ensures r.None? ==> !(prefix <= s)
  {
    if prefix <= s then Some(s[|prefix|..]) else None
  }

  function Join(lines: seq<string>): string {
    if lines == [] then ""
    else if |lines| == 1 then lines[0]
    else lines[0] + "\n" + Join(lines[1..])
  }

  function Code(lines: seq<string>): string {
    Join(lines) + "\n"
  }

  // ---- classify ----

  /** An error carries the unknown attribute. */
  function Classify(info: string): Result<Fence, string> {
    var info := Trim(info);
    if info == "rust" then Ok(Compiled(Statements))
    else
      var attribute := StripPrefix(info, "rust,");
      if attribute.None? then Ok(Other)
      else
        var a := Trim(attribute.value);
        if a == "ignore" then Ok(Ignored)
        else if a == "body" then Ok(Compiled(Body))
        else if a == "arms" then Ok(Compiled(Arms))
        else if a == "builder" then Ok(Compiled(Builder))
        else Err(a)
  }

  /** Kind::attribute. */
  function Attribute(kind: Kind): string {
    match kind
    case Statements => ""
    case Body => "body"
    case Arms => "arms"
    case Builder => "builder"
  }

  function InfoString(kind: Kind): string {
    if kind.Statements? then "rust" else "rust," + Attribute(kind)
  }

  /** The spelling a kind reports is the spelling that selects it. */
  lemma AttributeRoundTrip(kind: Kind)
    ensures Classify(InfoString(kind)) == Ok(Compiled(kind))
  {}

  ghost predicate AllSpace(s: string) { forall i :: 0 <= i < |s| ==> IsSpace(s[i]) }

  /** No white space at either end. */
  predicate Tight(s: string) { s == [] || (!IsSpace(s[0]) && !IsSpace(s[|s| - 1])) }

  lemma {:induction false} TrimStartMeans(s: string)
    ensures exists a :: AllSpace(a) && s == a + TrimStart(s)
    ensures TrimStart(s) != [] ==> !IsSpace(TrimStart(s)[0])
  {
    hide IsSpace;
    if s != [] && IsSpace(s[0]) {
      var rest := TrimStart(s[1..]);
      TrimStartMeans(s[1..]);
      var a :| AllSpace(a) && s[1..] == a + rest;
      assert AllSpace([s[0]] + a) && s == [s[0]] + a + rest;
    } else {
      assert AllSpace([]) && s == [] + s;
    }
  }

  lemma {:induction false} TrimEndMeans(s: string)
    ensures exists b :: AllSpace(b) && s == TrimEnd(s) + b
    ensures TrimEnd(s) != [] ==> !IsSpace(TrimEnd(s)[|TrimEnd(s)| - 1]) && TrimEnd(s)[0] == s[0]
  {
    hide IsSpace;
    if s != [] && IsSpace(s[|s| - 1]) {
      var n := |s| - 1;
      var rest := TrimEnd(s[..n]);
      TrimEndMeans(s[..n]);
      var b :| AllSpace(b) && s[..n] == rest + b;
      assert AllSpace(b + [s[n]]) && s == rest + (b + [s[n]]);
    } else {
      assert AllSpace([]) && s == s + [];
    }
  }

  /** Trimming removes white space at both ends and nothing else. */
  lemma TrimMeans(s: string)
    ensures Tight(Trim(s)) && exists a, b :: AllSpace(a) && AllSpace(b) && s == a + Trim(s) + b
  {
    TrimStartMeans(s);
    TrimEndMeans(TrimStart(s));
    var a :| AllSpace(a) && s == a + TrimStart(s);
    var b :| AllSpace(b) && TrimStart(s) == Trim(s) + b;
    assert s == a + Trim(s) + b;
  }

  /**
   * What an info string means, up to white space: `rust` alone and the three attributes are
   * compiled, `ignore` is not, any other attribute is an error, and everything else is not Rust.
   */
  lemma ClassifyExactly(info: string, attribute: string)
    ensures Classify(info) == Ok(Compiled(Statements)) <==> Trim(info) == "rust"
    ensures Trim(info) == "rust," + attribute ==>
              && (Classify(info) == Ok(Ignored) <==> Trim(attribute) == "ignore")
              && (Classify(info) == Ok(Compiled(Body)) <==> Trim(attribute) == "body")
              && (Classify(info) == Ok(Compiled(Arms)) <==> Trim(attribute) == "arms")
              && (Classify(info) == Ok(Compiled(Builder)) <==> Trim(attribute) == "builder")
              && (Classify(info).Err? <==> Trim(attribute) !in {"ignore", "body", "arms", "builder"})
              && (Classify(info).Err? ==> Classify(info).error == Trim(attribute))
    ensures Classify(info) == Ok(Other) <==> Trim(info) != "rust" && !("rust," <= Trim(info))
  {
    if Trim(info) == "rust," + attribute {
      assert Trim(info)[5..] == attribute;
    }
  }

  // ---- code is the lines, verbatim ----

  /** The text between newlines. */
  ghost function Split(s: string): (r: seq<string>)
    ensures r != []
  {
    if s == [] then [[]] else Grow(Split(s[..|s| - 1]), s[|s| - 1])
  }

  /** One more character: it ends the last line or extends it. */
  ghost function Grow(r: seq<string>, c: char): (t: seq<string>)
    requires r != []
    ensures t != []
  {
    if c == '\n' then r + [[]] else r[..|r| - 1] + [r[|r| - 1] + [c]]
  }

  lemma GrowLast(x: seq<string>, y: seq<string>, c: char)
    requires y != []
    ensures Grow(x + y, c) == x + Grow(y, c)
  {
    var all := x + y;
    assert all[..|all| - 1] == x + y[..|y| - 1] && all[|all| - 1] == y[|y| - 1];
  }

  lemma GrowOne(s: string, c: char)
    requires c != '\n'
    ensures Grow([s], c) == [s + [c]]
  {}

  lemma SplitSnoc(s: string, c: char)
    ensures Split(s + [c]) == Grow(Split(s), c)
  {
    assert (s + [c])[..|s|] == s;
  }

  lemma {:induction false} SplitAtNewline(a: string, b: string)
    ensures Split(a + "\n" + b) == Split(a) + Split(b)
  {
    if b == [] {
      assert a + "\n" + b == a + ['\n'];
      SplitSnoc(a, '\n');
    } else {
      hide Split, Grow;
      var n := |b| - 1;
      SplitAtNewline(a, b[..n]);
      assert b == b[..n] + [b[n]];
      assert a + "\n" + b == (a + "\n" + b[..n]) + [b[n]];
      SplitSnoc(a + "\n" + b[..n], b[n]);
      SplitSnoc(b[..n], b[n]);
      GrowLast(Split(a), Split(b[..n]), b[n]);
    }
  }

  lemma {:induction false} SplitLine(line: string)
    requires '\n' !in line
    ensures Split(line) == [line]
  {
    if line != [] {
      hide Split, Grow;
      var n := |line| - 1;
      assert line[n] in line && line[..n] + [line[n]] == line;
      assert forall c :: c in line[..n] ==> c in line;
      SplitLine(line[..n]);
      SplitSnoc(line[..n], line[n]);
      GrowOne(line[..n], line[n]);
    }
  }

  lemma {:induction false} SplitJoin(lines: seq<string>)
    requires lines != [] && forall i :: 0 <= i < |lines| ==> '\n' !in lines[i]
    ensures Split(Join(lines)) == lines
  {
    SplitLine(lines[0]);
    if |lines| > 1 {
      SplitJoin(lines[1..]);
      SplitAtNewline(lines[0], Join(lines[1..]));
      assert lines == [lines[0]] + lines[1..];
    } else {
      assert lines == [lines[0]];
    }
  }

  /** The code of a block is its lines, each followed by a newline; no lines at all read like one empty line. */
  lemma CodeIsVerbatim(lines: seq<string>)
    requires forall i :: 0 <= i < |lines| ==> '\n' !in lines[i]
    ensures Split(Code(lines)) == (if lines == [] then [""] else lines) + [""]
  {
    assert Code(lines) == Join(lines) + "\n" + "";
    SplitAtNewline(Join(lines), "");
    if lines != [] { SplitJoin(lines); }
  }

  // ---- the line scanner ----

  datatype OpenFence = OpenFence(compiled: Option<(nat, Kind)>, lines: seq<string>)

  datatype Scanner = Scanner(open: Option<OpenFence>, blocks: seq<Block>)

  function StepClosed(s: Scanner, line: string, number: nat): Result<Scanner, Error> {
    var info := StripPrefix(line, FENCE);
    if info.None? then Ok(s)
    else
      var fence := Classify(info.value);
      if fence.Err? then Err(UnknownAttribute(number, fence.error))
      else
        var compiled := if fence.value.Compiled? then Some((number, fence.value.kind)) else None;
        Ok(s.(open := Some(OpenFence(compiled, []))))
  }

  function StepOpen(s: Scanner, line: string): Scanner
    requires s.open.Some?
  {
    var fence := s.open.value;
    if TrimEnd(line) == FENCE then
      Scanner(None, if fence.compiled.None? then s.blocks
                    else s.blocks + [Block(|s.blocks|, fence.compiled.value.0, fence.compiled.value.1,
                                           Code(fence.lines))])
    else s.(open := Some(fence.(lines := fence.lines + [line])))
  }

  function Step(s: Scanner, line: string, number: nat): Result<Scanner, Error> {
    if s.open.None? then StepClosed(s, line, number) else Ok(StepOpen(s, line))
  }

  /** The state after the given lines, the first of which has the given 1-based number. */
  function Scan(s: Scanner, lines: seq<string>, number: nat): Result<Scanner, Error>
    decreases |lines|
  {
    if lines == [] then Ok(s)
    else
      var next := Step(s, lines[0], number);
      if next.Err? then next else Scan(next.value, lines[1..], number + 1)
  }

  function Finish(r: Result<Scanner, Error>): Result<seq<Block>, Error> {
    if r.Err? then Err(r.error)
    else if r.value.open.Some? then Err(Unterminated)
    else Ok(r.value.blocks)
  }

  const START := Scanner(None, [])

  lemma {:induction false} ScanConcat(s: Scanner, a: seq<string>, b: seq<string>, number: nat)
    ensures var m := Scan(s, a, number);
            Scan(s, a + b, number) == if m.Err? then m else Scan(m.value, b, number + |a|)
    decreases |a|
  {
    if a == [] {
      assert a + b == b;
    } else {
      assert (a + b)[1..] == a[1..] + b;
      var next := Step(s, a[0], number);
      if next.Ok? { ScanConcat(next.value, a[1..], b, number + 1); }
    }
  }

  /** rust_blocks, over the lines of the document. */
  method RustBlocks(lines: seq<string>) returns (r: Result<seq<Block>, Error>)
    ensures r == Finish(Scan(START, lines, 1))
  {
    var blocks: seq<Block> := [];
    var open: Option<OpenFence> := None;
    var offset := 0;
    while offset < |lines|
      invariant 0 <= offset <= |lines|
      invariant Scan(START, lines, 1) == Scan(Scanner(open, blocks), lines[offset..], offset + 1)
    {
      var line := lines[offset];
      assert lines[offset..][1..] == lines[offset + 1..];
      match open {
        case None =>
          var info := StripPrefix(line, FENCE);
          if info.Some? {
            var fence := Classify(info.value);
            if fence.Err? {
              return Err(UnknownAttribute(offset + 1, fence.error));
            }
            open := Some(OpenFence(
              if fence.value.Compiled? then Some((offset + 1, fence.value.kind)) else None, []));
          }
        case Some(fence) =>
          if TrimEnd(line) == FENCE {
            if fence.compiled.Some? {
              var (number, kind) := fence.compiled.value;
              blocks := blocks + [Block(|blocks|, number, kind, Code(fence.lines))];
            }
            open := None;
          } else {
            open := Some(fence.(lines := fence.lines + [line]));
          }
      }
      offset := offset + 1;
    }
    r := if open.Some? then Err(Unterminated) else Ok(blocks);
  }

  // ---- documents, the independent reference ----

  datatype Segment = Prose(line: string) | Fenced(info: string, body: seq<string>, closing: string)

  /** A document: complete segments, then possibly a fence that never closes. */
  datatype Document = Document(segments: seq<Segment>, tail: Option<(string, seq<string>)>)

  ghost predicate BodyLines(body: seq<string>) {
    forall i :: 0 <= i < |body| ==> TrimEnd(body[i]) != FENCE
  }

  ghost predicate ValidSegment(g: Segment) {
    match g
    case Prose(line) => !(FENCE <= line)
    case Fenced(_, body, closing) => BodyLines(body) && TrimEnd(closing) == FENCE
  }

  ghost predicate Valid(d: Document) {
    && (forall i :: 0 <= i < |d.segments| ==> ValidSegment(d.segments[i]))
    && (d.tail.Some? ==> BodyLines(d.tail.value.1))
  }

  function RenderSegment(g: Segment): (r: seq<string>)
    ensures |r| > 0
  {
    match g
    case Prose(line) => [line]
    case Fenced(info, body, closing) => [FENCE + info] + body + [closing]
  }

  function RenderAll(gs: seq<Segment>): seq<string> {
    if gs == [] then [] else RenderSegment(gs[0]) + RenderAll(gs[1..])
  }

  function RenderTail(tail: Option<(string, seq<string>)>): seq<string> {
    if tail.None? then [] else [FENCE + tail.value.0] + tail.value.1
  }

  function Render(d: Document): seq<string> {
    RenderAll(d.segments) + RenderTail(d.tail)
  }

  /** The blocks a document declares, verbatim and in order, given how many precede it. */
  function Declared(gs: seq<Segment>, index: nat, number: nat): seq<Block> {
    if gs == [] then []
    else
      var here := DeclaredBy(gs[0], index, number);
      here + Declared(gs[1..], index + |here|, number + |RenderSegment(gs[0])|)
  }

  function DeclaredBy(g: Segment, index: nat, number: nat): seq<Block> {
    if g.Fenced? && Classify(g.info).Ok? && Classify(g.info).value.Compiled?
    then [Block(index, number, Classify(g.info).value.kind, Code(g.body))]
    else []
  }

  ghost predicate KnownInfo(g: Segment) {
    g.Fenced? ==> Classify(g.info).Ok?
  }

  ghost predicate KnownInfos(gs: seq<Segment>) {
    forall i :: 0 <= i < |gs| ==> KnownInfo(gs[i])
  }

  // ---- scanning a rendered document ----

  lemma {:induction false} ScanBody(s: Scanner, body: seq<string>, number: nat)
    requires s.open.Some? && BodyLines(body)
    ensures var fence := s.open.value;
            Scan(s, body, number) == Ok(s.(open := Some(fence.(lines := fence.lines + body))))
    decreases |body|
  {
    var fence := s.open.value;
    if body == [] {
      assert fence.lines + [] == fence.lines;
    } else {
      var next := s.(open := Some(fence.(lines := fence.lines + [body[0]])));
      assert Step(s, body[0], number) == Ok(next);
      ScanBody(next, body[1..], number + 1);
      assert fence.lines + [body[0]] + body[1..] == fence.lines + body;
    }
  }

  lemma ScanOpening(s: Scanner, info: string, number: nat)
    requires s.open.None?
    ensures Step(s, FENCE + info, number) ==
      if Classify(info).Err? then Err(UnknownAttribute(number, Classify(info).error))
      else Ok(s.(open := Some(OpenFence(
        if Classify(info).value.Compiled? then Some((number, Classify(info).value.kind)) else None, []))))
  {}

  lemma ScanFence(s: Scanner, info: string, body: seq<string>, number: nat)
    requires s.open.None? && BodyLines(body) && Classify(info).Ok?
    ensures Scan(s, [FENCE + info] + body, number) ==
      Ok(s.(open := Some(OpenFence(
        if Classify(info).value.Compiled? then Some((number, Classify(info).value.kind)) else None, body))))
  {
    var lines := [FENCE + info] + body;
    ScanOpening(s, info, number);
    assert lines[1..] == body;
    ScanBody(Step(s, lines[0], number).value, body, number + 1);
    assert [] + body == body;
  }

  lemma ScanUnknown(s: Scanner, info: string, rest: seq<string>, number: nat)
    requires s.open.None? && Classify(info).Err?
    ensures Scan(s, [FENCE + info] + rest, number) == Err(UnknownAttribute(number, Classify(info).error))
  {}

  lemma ScanSegment(s: Scanner, g: Segment, number: nat)
    requires s.open.None? && ValidSegment(g) && KnownInfo(g)
    ensures Scan(s, RenderSegment(g), number) ==
            Ok(Scanner(None, s.blocks + DeclaredBy(g, |s.blocks|, number)))
  {
    match g
    case Prose(line) =>
      assert Step(s, line, number) == Ok(s);
      assert s.blocks + [] == s.blocks;
      assert Scan(s, [line], number) == Scan(s, [line][1..], number + 1);
    case Fenced(info, body, closing) =>
      ScanFence(s, info, body, number);
      var lines := [FENCE + info] + body;
      var m := Scan(s, lines, number).value;
      ScanConcat(s, lines, [closing], number);
      assert Scan(m, [closing], number + |lines|) == Ok(StepOpen(m, closing)) by {
        assert [closing][1..] == [];
      }
      assert s.blocks + [] == s.blocks;
  }

  lemma ScanOneMore(s: Scanner, g: Segment, rest: seq<string>, number: nat)
    requires s.open.None? && ValidSegment(g)
    ensures var lines := RenderSegment(g);
      if KnownInfo(g)
      then Scan(s, lines + rest, number)
           == Scan(Scanner(None, s.blocks + DeclaredBy(g, |s.blocks|, number)), rest, number + |lines|)
      else Scan(s, lines + rest, number).Err?
  {
    hide Classify, TrimEnd, Step, Scan;
    var lines := RenderSegment(g);
    ScanConcat(s, lines, rest, number);
    if KnownInfo(g) {
      ScanSegment(s, g, number);
    } else {
      assert lines == [FENCE + g.info] + (g.body + [g.closing]);
      ScanUnknown(s, g.info, g.body + [g.closing], number);
    }
  }

  lemma {:induction false} ScanSegments(s: Scanner, gs: seq<Segment>, number: nat)
    requires s.open.None? && (forall i :: 0 <= i < |gs| ==> ValidSegment(gs[i]))
    ensures var r := Scan(s, RenderAll(gs), number);
      if KnownInfos(gs) then r == Ok(Scanner(None, s.blocks + Declared(gs, |s.blocks|, number))) else r.Err?
    decreases |gs|
  {
    hide Classify, TrimEnd, Step, RenderSegment, DeclaredBy, KnownInfo;
    if gs == [] {
      assert s.blocks + [] == s.blocks;
    } else {
      ScanOneMore(s, gs[0], RenderAll(gs[1..]), number);
      KnownCons(gs);
      if KnownInfo(gs[0]) {
        var here := DeclaredBy(gs[0], |s.blocks|, number);
        var next := number + |RenderSegment(gs[0])|;
        ScanSegments(Scanner(None, s.blocks + here), gs[1..], next);
        Assoc(s.blocks, here, Declared(gs[1..], |s.blocks| + |here|, next));
      }
    }
  }

  lemma Assoc<T>(a: seq<T>, b: seq<T>, c: seq<T>)
    ensures a + b + c == a + (b + c)
  {}

  lemma KnownCons(gs: seq<Segment>)
    requires gs != []
    ensures KnownInfos(gs) <==> KnownInfo(gs[0]) && KnownInfos(gs[1..])
  {}

  /**
   * Extraction inverts embedding. On any rendered document the scanner returns exactly the
   * declared blocks, and fails exactly for an unknown attribute on some opening fence or an
   * unclosed last fence.
   */
  lemma ExtractionInvertsEmbedding(d: Document)
    requires Valid(d)
    ensures var r := Finish(Scan(START, Render(d), 1));
            && (r.Ok? <==> KnownInfos(d.segments) && d.tail.None?)
            && (r.Ok? ==> r.value == Declared(d.segments, 0, 1))
  {
    hide Classify, TrimEnd, Step;
    var lines := RenderAll(d.segments);
    ScanConcat(START, lines, RenderTail(d.tail), 1);
    ScanSegments(START, d.segments, 1);
    var blocks := Declared(d.segments, 0, 1);
    assert START.blocks + blocks == blocks;
    if KnownInfos(d.segments) && d.tail.Some? {
      var m := Scanner(None, blocks);
      var info, body := d.tail.value.0, d.tail.value.1;
      if Classify(info).Ok? {
        ScanFence(m, info, body, 1 + |lines|);
      } else {
        ScanUnknown(m, info, body, 1 + |lines|);
      }
    }
  }

  // ---- every list of lines is a document ----

  /** How many leading lines do not close a fence. */
  ghost function BodyLength(lines: seq<string>): (n: nat)
    ensures n <= |lines| && BodyLines(lines[..n])
    ensures n < |lines| ==> TrimEnd(lines[n]) == FENCE
  {
    if lines == [] || TrimEnd(lines[0]) == FENCE then 0
    else
      var n := BodyLength(lines[1..]) + 1;
      assert forall i :: 0 < i < n ==> lines[..n][i] == lines[1..][..n - 1][i - 1];
      n
  }

  ghost function Parse(lines: seq<string>): Document
    decreases |lines|
  {
    if lines == [] then Document([], None)
    else if !(FENCE <= lines[0]) then
      var rest := Parse(lines[1..]);
      Document([Prose(lines[0])] + rest.segments, rest.tail)
    else
      var info, after := lines[0][3..], lines[1..];
      var n := BodyLength(after);
      if n == |after| then Document([], Some((info, after)))
      else
        var rest := Parse(after[n + 1..]);
        Document([Fenced(info, after[..n], after[n])] + rest.segments, rest.tail)
  }

  /** Every input is the rendering of a valid document, so the theorem above covers all inputs. */
  lemma {:induction false} ParseRender(lines: seq<string>)
    ensures Valid(Parse(lines)) && Render(Parse(lines)) == lines
    decreases |lines|
  {
    hide TrimEnd, Render, BodyLines;
    if lines == [] {
      EmptyDocument();
    } else if !(FENCE <= lines[0]) {
      ParseRender(lines[1..]);
      RenderPush(Prose(lines[0]), Parse(lines[1..]));
      assert [lines[0]] + lines[1..] == lines;
    } else {
      var info, after := lines[0][3..], lines[1..];
      var n := BodyLength(after);
      assert FENCE + info == lines[0];
      if n == |after| {
        assert after[..n] == after;
        RenderUnclosed(lines[0], info, after);
      } else {
        ParseRender(after[n + 1..]);
        RenderPush(Fenced(info, after[..n], after[n]), Parse(after[n + 1..]));
        Rejoin(lines, n);
      }
    }
  }

  lemma Rejoin(lines: seq<string>, n: nat)
    requires n + 1 < |lines|
    ensures [lines[0]] + lines[1..][..n] + [lines[1..][n]] + lines[1..][n + 1..] == lines
  {}

  lemma EmptyDocument()
    ensures Valid(Document([], None)) && Render(Document([], None)) == []
  {}

  lemma RenderUnclosed(line: string, info: string, body: seq<string>)
    requires line == FENCE + info && BodyLines(body)
    ensures Valid(Document([], Some((info, body)))) && Render(Document([], Some((info, body)))) == [line] + body
  {}

  lemma RenderPush(g: Segment, d: Document)
    requires ValidSegment(g) && Valid(d)
    ensures var e := Document([g] + d.segments, d.tail);
            Valid(e) && Render(e) == RenderSegment(g) + Render(d)
  {
    var gs := [g] + d.segments;
    assert gs[1..] == d.segments;
    assert RenderAll(gs) + RenderTail(d.tail) == RenderSegment(g) + (RenderAll(d.segments) + RenderTail(d.tail));
  }

  // ---- what the declared blocks look like ----

  /** A block's index is its position, and opening lines increase from block to block. */
  lemma {:induction false} DeclaredNumbering(gs: seq<Segment>, index: nat, number: nat, i: nat)
    requires i < |Declared(gs, index, number)|
    ensures var bs := Declared(gs, index, number);
            bs[i].index == index + i && number <= bs[i].line && (i > 0 ==> bs[i - 1].line < bs[i].line)
  {
    hide DeclaredBy, RenderSegment;
    var here := DeclaredBy(gs[0], index, number);
    DeclaredByOne(gs[0], index, number);
    var next := number + |RenderSegment(gs[0])|;
    if i >= |here| {
      DeclaredNumbering(gs[1..], index + |here|, next, i - |here|);
    }
  }

  lemma DeclaredByOne(g: Segment, index: nat, number: nat)
    ensures var bs := DeclaredBy(g, index, number);
            |bs| <= 1 && forall b :: b in bs ==>
              b.index == index && b.line == number && g.Fenced? && Classify(g.info) == Ok(Compiled(b.kind))
  {}

  /** Line i opens a fence that classifies as the given kind. */
  ghost predicate OpensAt(lines: seq<string>, i: int, kind: Kind) {
    0 <= i < |lines| && exists info :: lines[i] == FENCE + info && Classify(info) == Ok(Compiled(kind))
  }

  lemma OpensLater(lines: seq<string>, rest: seq<string>, i: int, kind: Kind)
    requires OpensAt(rest, i, kind)
    ensures OpensAt(lines + rest, |lines| + i, kind)
  {}

  lemma OpensFirst(g: Segment, rest: seq<string>, kind: Kind)
    requires g.Fenced? && Classify(g.info) == Ok(Compiled(kind))
    ensures OpensAt(RenderSegment(g) + rest, 0, kind)
  {}

  /** A reported line is the line of an opening fence carrying the block's own kind. */
  lemma {:induction false} DeclaredLines(gs: seq<Segment>, index: nat, number: nat, i: nat)
    requires i < |Declared(gs, index, number)|
    ensures var b := Declared(gs, index, number)[i];
            OpensAt(RenderAll(gs), b.line - number, b.kind)
  {
    hide Classify, DeclaredBy, OpensAt, RenderSegment;
    var g, lines, rest := gs[0], RenderSegment(gs[0]), RenderAll(gs[1..]);
    var here := DeclaredBy(g, index, number);
    DeclaredByOne(g, index, number);
    var more := Declared(gs[1..], index + |here|, number + |lines|);
    if i < |here| {
      assert here[i] in here;
      OpensFirst(g, rest, here[i].kind);
    } else {
      DeclaredLines(gs[1..], index + |here|, number + |lines|, i - |here|);
      var b := more[i - |here|];
      OpensLater(lines, rest, b.line - (number + |lines|), b.kind);
    }
  }
}
