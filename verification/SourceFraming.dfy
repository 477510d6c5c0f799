/** tools/qualification/evidence.py: the framed byte stream behind source_tree_digest. */
module SourceFraming {
  import opened Wrappers

  type Byte = x: int | 0 <= x < 256
  type Bytes = seq<Byte>

  /** A path together with what the file system holds there, as the digest observes it. */
  datatype Record =
    | Link(path: Bytes, target: Bytes)
    | File(path: Bytes, mode: nat, content: Bytes)
    | Missing(path: Bytes)

  const HEADER: Bytes := [
    116, 97, 115, 107, 109, 101, 115, 104, 45, 115, 111, 117, 114, 99, 101, 45,
    116, 114, 101, 101, 45, 118, 50, 0]  // "taskmesh-source-tree-v2\0"
  const LENGTH_LIMIT := 0x1_0000_0000_0000_0000
  const MODE_LIMIT := 0x1_0000
  const LINK_TAG: Byte := 76
  const FILE_TAG: Byte := 70
  const MISSING_TAG: Byte := 77

  // ---- big-endian integers ----

  function Power256(width: nat): nat {
    if width == 0 then 1 else 256 * Power256(width - 1)
  }

  function ToBytes(n: nat, width: nat): (s: Bytes)
    ensures |s| == width
  {
    if width == 0 then [] else ToBytes(n / 256, width - 1) + [n % 256]
  }

  function FromBytes(s: Bytes): nat {
    if s == [] then 0 else 256 * FromBytes(s[..|s| - 1]) + s[|s| - 1]
  }

  lemma {:induction false} IntegerRoundTrip(n: nat, width: nat)
    requires n < Power256(width)
    ensures FromBytes(ToBytes(n, width)) == n
  {
    if width > 0 {
      IntegerRoundTrip(n / 256, width - 1);
      assert ToBytes(n, width)[..width - 1] == ToBytes(n / 256, width - 1);
    }
  }

  lemma Limits()
    ensures Power256(2) == MODE_LIMIT && Power256(8) == LENGTH_LIMIT
  {}

  // ---- frames and records ----

  /** A length fits the eight-byte prefix of a frame. */
  predicate Framable(data: Bytes) {
    |data| < LENGTH_LIMIT
  }

  function Frame(data: Bytes): Bytes {
    ToBytes(|data|, 8) + data
  }

  predicate Encodable(r: Record) {
    && Framable(r.path)
    && (r.Link? ==> Framable(r.target))
    && (r.File? ==> r.mode < MODE_LIMIT && Framable(r.content))
  }

  function Encode(r: Record): Bytes {
    Frame(r.path) +
    match r
    case Link(_, target) => [LINK_TAG] + Frame(target)
    case File(_, mode, content) => [FILE_TAG] + ToBytes(mode, 2) + Frame(content)
    case Missing(_) => [MISSING_TAG]
  }

  /** The eight-byte length, most significant byte first, then the data. */
  lemma FrameLayout(data: Bytes, k: nat)
    requires Framable(data) && k < |data|
    ensures |Frame(data)| == 8 + |data| && FromBytes(Frame(data)[..8]) == |data| && Frame(data)[8 + k] == data[k]
  {
    Limits();
    IntegerRoundTrip(|data|, 8);
    assert Frame(data)[..8] == ToBytes(|data|, 8);
  }

  /**
   * The layout of a record: its framed path, then L and the framed target, F, the mode and the
   * framed content, or M.
   */
  lemma RecordLayout(r: Record)
    requires Encodable(r)
    ensures var rest := Encode(r)[|Frame(r.path)|..];
            && Frame(r.path) <= Encode(r)
            && match r
               case Link(_, target) => rest == ['L' as int] + Frame(target)
               case File(_, mode, content) =>
                 rest[0] == 'F' as int && FromBytes(rest[1..3]) == mode && rest[3..] == Frame(content)
               case Missing(_) => rest == ['M' as int]
  {
    var rest := Encode(r)[|Frame(r.path)|..];
    if r.File? {
      Limits();
      IntegerRoundTrip(r.mode, 2);
      assert rest == [FILE_TAG] + ToBytes(r.mode, 2) + Frame(r.content);
      assert rest[1..3] == ToBytes(r.mode, 2) && rest[3..] == Frame(r.content);
    }
  }

  function EncodeAll(rs: seq<Record>): Bytes {
    if rs == [] then [] else Encode(rs[0]) + EncodeAll(rs[1..])
  }

  /** Everything fed to the digest for a sequence of records. */
  function Stream(rs: seq<Record>): Bytes {
    HEADER + EncodeAll(rs)
  }

  // ---- the decoder, which the source does not have ----

  function TakeFrame(s: Bytes): (r: Option<(Bytes, Bytes)>)
    ensures r.Some? ==> |r.value.1| < |s|
  {
    if |s| < 8 then None
    else
      var n := FromBytes(s[..8]);
      if |s| < 8 + n then None else Some((s[8..8 + n], s[8 + n..]))
  }

  function Decode(s: Bytes): (r: Option<(Record, Bytes)>)
    ensures r.Some? ==> |r.value.1| < |s|
  {
    var path := TakeFrame(s);
    if path.None? || path.value.1 == [] then None
    else
      var tag, rest := path.value.1[0], path.value.1[1..];
      if tag == LINK_TAG then
        var target := TakeFrame(rest);
        if target.None? then None else Some((Link(path.value.0, target.value.0), target.value.1))
      else if tag == FILE_TAG then
        if |rest| < 2 then None
        else
          var content := TakeFrame(rest[2..]);
          if content.None? then None
          else Some((File(path.value.0, FromBytes(rest[..2]), content.value.0), content.value.1))
      else if tag == MISSING_TAG then Some((Missing(path.value.0), rest))
      else None
  }

  function DecodeAll(s: Bytes): Option<seq<Record>>
    decreases |s|
  {
    if s == [] then Some([])
    else
      var one := Decode(s);
      if one.None? then None
      else
        var more := DecodeAll(one.value.1);
        if more.None? then None else Some([one.value.0] + more.value)
  }

  lemma FrameRoundTrip(data: Bytes, rest: Bytes)
    requires Framable(data)
    ensures TakeFrame(Frame(data) + rest) == Some((data, rest))
  {
    Limits();
    IntegerRoundTrip(|data|, 8);
    var s := Frame(data) + rest;
    assert s[..8] == ToBytes(|data|, 8);
    assert s[8..8 + |data|] == data && s[8 + |data|..] == rest;
  }

  lemma LinkRoundTrip(path: Bytes, target: Bytes, rest: Bytes)
    requires Framable(path) && Framable(target)
    ensures Decode(Encode(Link(path, target)) + rest) == Some((Link(path, target), rest))
  {
    var tail := [LINK_TAG] + Frame(target) + rest;
    assert Encode(Link(path, target)) + rest == Frame(path) + tail;
    FrameRoundTrip(path, tail);
    assert tail[1..] == Frame(target) + rest;
    FrameRoundTrip(target, rest);
  }

  lemma FileRoundTrip(path: Bytes, mode: nat, content: Bytes, rest: Bytes)
    requires Framable(path) && Framable(content) && mode < MODE_LIMIT
    ensures Decode(Encode(File(path, mode, content)) + rest) == Some((File(path, mode, content), rest))
  {
    var body := ToBytes(mode, 2) + (Frame(content) + rest);
    var tail := [FILE_TAG] + body;
    assert Encode(File(path, mode, content)) + rest == Frame(path) + tail;
    FrameRoundTrip(path, tail);
    assert tail[1..] == body;
    assert body[..2] == ToBytes(mode, 2) && body[2..] == Frame(content) + rest;
    Limits();
    IntegerRoundTrip(mode, 2);
    FrameRoundTrip(content, rest);
  }

  lemma MissingRoundTrip(path: Bytes, rest: Bytes)
    requires Framable(path)
    ensures Decode(Encode(Missing(path)) + rest) == Some((Missing(path), rest))
  {
    var tail := [MISSING_TAG] + rest;
    assert Encode(Missing(path)) + rest == Frame(path) + tail;
    FrameRoundTrip(path, tail);
    assert tail[1..] == rest;
  }

  /** A record is recovered from the front of any stream it starts, and nothing after it is eaten. */
  lemma RecordRoundTrip(r: Record, rest: Bytes)
    requires Encodable(r)
    ensures Decode(Encode(r) + rest) == Some((r, rest))
  {
    match r
    case Link(path, target) => LinkRoundTrip(path, target, rest);
    case File(path, mode, content) => FileRoundTrip(path, mode, content, rest);
    case Missing(path) => MissingRoundTrip(path, rest);
  }

  /** The framing is uniquely decodable: decoding inverts encoding on every record sequence. */
  lemma {:induction false} StreamRoundTrip(rs: seq<Record>)
    requires forall r :: r in rs ==> Encodable(r)
    ensures DecodeAll(EncodeAll(rs)) == Some(rs)
  {
    if rs != [] {
      RecordRoundTrip(rs[0], EncodeAll(rs[1..]));
      StreamRoundTrip(rs[1..]);
      assert rs == [rs[0]] + rs[1..];
    }
  }

  /** Equal byte streams come from equal sequences of path, kind, mode and content. */
  lemma StreamInjective(a: seq<Record>, b: seq<Record>)
    requires forall r :: r in a ==> Encodable(r)
    requires forall r :: r in b ==> Encodable(r)
    requires Stream(a) == Stream(b)
    ensures a == b
  {
    assert Stream(a)[|HEADER|..] == EncodeAll(a);
    assert Stream(b)[|HEADER|..] == EncodeAll(b);
    StreamRoundTrip(a);
    StreamRoundTrip(b);
  }

  /** With a collision-free hash, the tree digest identifies the tree it was taken from. */
  lemma DigestIdentifiesTree(sha256: Bytes -> Bytes, a: seq<Record>, b: seq<Record>)
    requires forall x, y :: sha256(x) == sha256(y) ==> x == y
    requires forall r :: r in a ==> Encodable(r)
    requires forall r :: r in b ==> Encodable(r)
    requires sha256(Stream(a)) == sha256(Stream(b))
    ensures a == b
  {
    StreamInjective(a, b);
  }

  // ---- the imperative digest ----

  /** Feeding the parts of a record one after the other feeds its encoding. */
  lemma FedRecord(fed: Bytes, r: Record)
    ensures r.Link? ==> fed + Frame(r.path) + [LINK_TAG] + Frame(r.target) == fed + Encode(r)
    ensures r.File? ==>
      fed + Frame(r.path) + [FILE_TAG] + ToBytes(r.mode, 2) + Frame(r.content) == fed + Encode(r)
    ensures r.Missing? ==> fed + Frame(r.path) + [MISSING_TAG] == fed + Encode(r)
  {}

  lemma FedOneMore(fed: Bytes, records: seq<Record>, i: nat)
    requires i < |records|
    ensures fed + EncodeAll(records[i..]) == fed + Encode(records[i]) + EncodeAll(records[i + 1..])
  {}

  /** The hash object: `update` appends to what has been fed so far. */
  class Digest {
    var fed: Bytes

    constructor ()
      ensures fed == []
    {
      fed := [];
    }

    method Update(data: Bytes)
      modifies this
      ensures fed == old(fed) + data
    {
      fed := fed + data;
    }

    /** The nested `frame`: `to_bytes(8)` raises before anything is fed. */
    method FrameUpdate(data: Bytes) returns (ok: bool)
      modifies this
      ensures ok == Framable(data)
      ensures fed == if ok then old(fed) + Frame(data) else old(fed)
    {
      ok := |data| < LENGTH_LIMIT;
      if ok {
        Update(ToBytes(|data|, 8));
        Update(data);
        assert fed == old(fed) + Frame(data);
      }
    }

    /** One turn of the loop over the sorted paths. */
    method Feed(r: Record) returns (ok: bool)
      modifies this
      ensures ok == Encodable(r)
      ensures ok ==> fed == old(fed) + Encode(r)
    {
      ok := FrameUpdate(r.path);
      if !ok { return; }
      match r {
        case Link(_, target) =>
          Update([LINK_TAG]);
          ok := FrameUpdate(target);
        case File(_, mode, content) =>
          Update([FILE_TAG]);
          if mode >= MODE_LIMIT { return false; }
          Update(ToBytes(mode, 2));
          ok := FrameUpdate(content);
        case Missing(_) =>
          Update([MISSING_TAG]);
      }
      if ok { FedRecord(old(fed), r); }
    }
  }

  /** source_tree_digest, up to the final hash: the exact bytes fed, or the overflow that stopped it. */
  method SourceTreeStream(records: seq<Record>) returns (r: Option<Bytes>)
    ensures r.Some? <==> forall x :: x in records ==> Encodable(x)
    ensures r.Some? ==> r.value == Stream(records)
  {
    var digest := new Digest();
    digest.Update(HEADER);
    var i := 0;
    while i < |records|
      invariant 0 <= i <= |records|
      invariant forall j :: 0 <= j < i ==> Encodable(records[j])
      invariant digest.fed + EncodeAll(records[i..]) == Stream(records)
    {
      FedOneMore(digest.fed, records, i);
      var ok := digest.Feed(records[i]);
      if !ok { return None; }
      i := i + 1;
    }
    r := Some(digest.fed);
  }
}
