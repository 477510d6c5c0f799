/** tools/process_supervisor.py: bounded capture of a child's two output pipes. */
module Capture {
  import opened Wrappers

  type Byte = x: int | 0 <= x < 256
  type Bytes = seq<Byte>

  datatype Stream = Stdout | Stderr

  /** A nonempty read from one pipe. */
  datatype Chunk = Chunk(stream: Stream, data: Bytes)

  datatype Captured = Captured(stdout: Bytes, stderr: Bytes, overflow: bool)

  const NOTHING := Captured([], [], false)

  function Held(c: Captured): nat { |c.stdout| + |c.stderr| }

  function Extend(c: Captured, s: Stream, data: Bytes): Captured {
    if s.Stdout? then c.(stdout := c.stdout + data) else c.(stderr := c.stderr + data)
  }

  function Min(a: int, b: int): int { if a <= b then a else b }

  /** One read: keep what still fits under the limit, and remember whether anything did not. */
  function Read(limit: Option<nat>, c: Captured, k: Chunk): Captured {
    if limit.None? then Extend(c, k.stream, k.data)
    else
      var remaining := limit.value - Held(c);
      var kept := Extend(c, k.stream, k.data[..Min(|k.data|, if remaining > 0 then remaining else 0)]);
      if |k.data| > remaining then kept.(overflow := true) else kept
  }

  function ReadAll(limit: Option<nat>, ks: seq<Chunk>): Captured {
    if ks == [] then NOTHING else Read(limit, ReadAll(limit, ks[..|ks| - 1]), ks[|ks| - 1])
  }

  /** The mutable capture buffers, with the specification function above as their meaning. */
  class Buffers {
    const limit: Option<nat>
    var stdout: Bytes
    var stderr: Bytes
    var overflow: bool

    ghost function Value(): Captured
      reads this
    {
      Captured(stdout, stderr, overflow)
    }

    constructor (limit: Option<nat>)
      ensures this.limit == limit && Value() == NOTHING
    {
      this.limit := limit;
      stdout, stderr, overflow := [], [], false;
    }

    method Take(k: Chunk)
      modifies this
      ensures Value() == Read(limit, old(Value()), k)
    {
      var data := k.data;
      if limit.Some? {
        var remaining := limit.value - (|stdout| + |stderr|);
        data := k.data[..Min(|k.data|, if remaining > 0 then remaining else 0)];
        if |k.data| > remaining { overflow := true; }
      }
      if k.stream.Stdout? { stdout := stdout + data; } else { stderr := stderr + data; }
    }
  }

  // ---- the simple form: one interleaved stream of bytes, cut at the limit ----

  datatype Tagged = Tagged(stream: Stream, byte: Byte)

  function Tag(s: Stream, data: Bytes): (r: seq<Tagged>)
    ensures |r| == |data|
  {
    seq(|data|, i requires 0 <= i < |data| => Tagged(s, data[i]))
  }

  /** All bytes in the order they were read. */
  function Interleaved(ks: seq<Chunk>): seq<Tagged> {
    if ks == [] then [] else Interleaved(ks[..|ks| - 1]) + Tag(ks[|ks| - 1].stream, ks[|ks| - 1].data)
  }

  function Project(ts: seq<Tagged>, s: Stream): Bytes {
    if ts == [] then []
    else Project(ts[..|ts| - 1], s) + if ts[|ts| - 1].stream == s then [ts[|ts| - 1].byte] else []
  }

  function Cut(limit: Option<nat>, ts: seq<Tagged>): seq<Tagged> {
    if limit.None? || |ts| <= limit.value then ts else ts[..limit.value]
  }

  /** What a limit of M bytes means: the first M bytes read, split by stream. */
  function Bounded(limit: Option<nat>, ts: seq<Tagged>): Captured {
    Captured(Project(Cut(limit, ts), Stdout), Project(Cut(limit, ts), Stderr), limit.Some? && |ts| > limit.value)
  }

  lemma {:induction false} ProjectConcat(a: seq<Tagged>, b: seq<Tagged>, s: Stream)
    ensures Project(a + b, s) == Project(a, s) + Project(b, s)
  {
    if b == [] {
      assert a + b == a;
    } else {
      assert (a + b)[..|a + b| - 1] == a + b[..|b| - 1];
      ProjectConcat(a, b[..|b| - 1], s);
    }
  }

  lemma {:induction false} ProjectTag(t: Stream, data: Bytes, s: Stream)
    ensures Project(Tag(t, data), s) == if t == s then data else []
  {
    if data != [] {
      var n := |data| - 1;
      assert Tag(t, data)[..n] == Tag(t, data[..n]);
      ProjectTag(t, data[..n], s);
      assert data == data[..n] + [data[n]];
    }
  }

  lemma {:induction false} ProjectLengths(ts: seq<Tagged>)
    ensures |Project(ts, Stdout)| + |Project(ts, Stderr)| == |ts|
  {
    if ts != [] { ProjectLengths(ts[..|ts| - 1]); }
  }

  lemma {:induction false} ProjectPrefix(ts: seq<Tagged>, n: nat, s: Stream)
    requires n <= |ts|
    ensures Project(ts[..n], s) <= Project(ts, s)
  {
    assert ts == ts[..n] + ts[n..];
    ProjectConcat(ts[..n], ts[n..], s);
  }

  /** Appending tagged data to a projection extends exactly its own stream. */
  lemma ExtendProjects(ts: seq<Tagged>, s: Stream, data: Bytes, overflow: bool)
    ensures Extend(Captured(Project(ts, Stdout), Project(ts, Stderr), overflow), s, data)
         == Captured(Project(ts + Tag(s, data), Stdout), Project(ts + Tag(s, data), Stderr), overflow)
  {
    ProjectConcat(ts, Tag(s, data), Stdout);
    ProjectConcat(ts, Tag(s, data), Stderr);
    ProjectTag(s, data, Stdout);
    ProjectTag(s, data, Stderr);
    assert Project(ts, Stdout) + [] == Project(ts, Stdout) && Project(ts, Stderr) + [] == Project(ts, Stderr);
  }

  lemma ReadStep(limit: Option<nat>, ts: seq<Tagged>, k: Chunk)
    ensures Read(limit, Bounded(limit, ts), k) == Bounded(limit, ts + Tag(k.stream, k.data))
  {
    hide Project, Tag, Extend;
    var more := ts + Tag(k.stream, k.data);
    var part := Cut(limit, ts);
    ProjectLengths(part);
    var over := limit.Some? && |ts| > limit.value;
    if limit.None? {
      ExtendProjects(ts, k.stream, k.data, over);
    } else {
      var remaining := limit.value - |part|;
      var n := Min(|k.data|, if remaining > 0 then remaining else 0);
      ExtendProjects(part, k.stream, k.data[..n], over);
      TagPrefix(k.stream, k.data, n);
      assert part + Tag(k.stream, k.data)[..n] == Cut(limit, more);
    }
  }

  lemma TagPrefix(s: Stream, data: Bytes, n: nat)
    requires n <= |data|
    ensures Tag(s, data[..n]) == Tag(s, data)[..n]
  {}

  /**
   * The chunked capture refines the simple form: after any reads it holds exactly the first
   * M bytes of the interleaved stream, and reports overflow exactly when there were more.
   */
  lemma {:induction false} CaptureRefines(limit: Option<nat>, ks: seq<Chunk>)
    ensures ReadAll(limit, ks) == Bounded(limit, Interleaved(ks))
  {
    hide Read, Tag;
    if ks == [] {
      assert Interleaved(ks) == [] && Cut(limit, []) == [];
    } else {
      CaptureRefines(limit, ks[..|ks| - 1]);
      ReadStep(limit, Interleaved(ks[..|ks| - 1]), ks[|ks| - 1]);
    }
  }

  /** All reads of a run, one after the other: the buffers end up with exactly the simple form. */
  method CaptureAll(limit: Option<nat>, ks: seq<Chunk>) returns (c: Captured)
    ensures c == Bounded(limit, Interleaved(ks))
  {
    hide Read, Bounded, Interleaved;
    var buffers := new Buffers(limit);
    var i := 0;
    while i < |ks|
      invariant 0 <= i <= |ks| && buffers.limit == limit
      invariant buffers.Value() == ReadAll(limit, ks[..i])
    {
      var before, after := ks[..i], ks[..i + 1];
      assert after[..|after| - 1] == before && after[|after| - 1] == ks[i];
      buffers.Take(ks[i]);
      i := i + 1;
    }
    assert ks[..i] == ks;
    CaptureRefines(limit, ks);
    c := Captured(buffers.stdout, buffers.stderr, buffers.overflow);
  }

  /** Each captured stream is a prefix of what was read on it, and together they fit the limit. */
  lemma CaptureIsPrefix(limit: Option<nat>, ks: seq<Chunk>)
    ensures ReadAll(limit, ks).stdout <= Project(Interleaved(ks), Stdout)
    ensures ReadAll(limit, ks).stderr <= Project(Interleaved(ks), Stderr)
    ensures limit.Some? ==> Held(ReadAll(limit, ks)) <= limit.value
    ensures ReadAll(limit, ks).overflow <==> limit.Some? && |Interleaved(ks)| > limit.value
    ensures !ReadAll(limit, ks).overflow ==> Held(ReadAll(limit, ks)) == |Interleaved(ks)|
  {
    var ts := Interleaved(ks);
    CaptureRefines(limit, ks);
    ProjectLengths(Cut(limit, ts));
    if limit.Some? && |ts| > limit.value {
      ProjectPrefix(ts, limit.value, Stdout);
      ProjectPrefix(ts, limit.value, Stderr);
    }
  }
}
