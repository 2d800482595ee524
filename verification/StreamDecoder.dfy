/** The incremental de-framer (src/ledboxProtocol.js, StreamDecoder): one gzip member is one message. */
module StreamDecoders {
  import opened Basics
  import opened GzipHeaders

  const MIN_MEMBER := 18
  const MAX_BUFFERED := 65536
  const STALL_MS := 5000

  datatype Inflated = Inflated(used: nat, body: seq<Byte>)

  /** The library calls: raw inflate (None when it throws), CRC-32, and the text of a message. */
  datatype Codec<!M> = Codec(inflate: seq<Byte> -> Option<Inflated>, crc32: seq<Byte> -> int,
                             parse: seq<Byte> -> Option<M>)

  /** Once inflate completes on a prefix it completes identically on every extension, having read no
      more than it was given; from nothing it makes nothing. */
  ghost predicate Lawful<M>(c: Codec<M>) {
    && c.inflate([]) == None
    && (forall p {:trigger c.inflate(p)} :: c.inflate(p).Some? ==> c.inflate(p).value.used <= |p|)
    && (forall p, q {:trigger c.inflate(p + q)} :: c.inflate(p).Some? ==> c.inflate(p + q) == c.inflate(p))
  }

  function UInt32LE(buf: seq<Byte>, at: nat): int
    requires at + 4 <= |buf|
  {
    (buf[at] as int) + 256 * (buf[at + 1] as int) + 65536 * (buf[at + 2] as int) + 16777216 * (buf[at + 3] as int)
  }

  /** Does the 8-byte footer match the body: CRC-32, and its length modulo 2^32? */
  predicate Intact<M>(c: Codec<M>, body: seq<Byte>, footer: seq<Byte>)
    requires |footer| == 8
  {
    UInt32LE(footer, 4) == |body| % 0x1_0000_0000 && UInt32LE(footer, 0) == c.crc32(body)
  }

  // ---- One member at the head of the buffer -------------------------------------------------------

  /** `Took` carries no text for a member that fails its check. */
  datatype Taken = NeedMore | NotGzip | Took(length: nat, text: Option<seq<Byte>>)

  function TakeOneMember<M>(c: Codec<M>, buf: seq<Byte>): (t: Taken)
    requires |buf| >= MIN_MEMBER
    ensures t.Took? ==> 0 < t.length <= |buf|
  {
    if buf[0] != 0x1f || buf[1] != 0x8b then NotGzip
    else
      var start := HeaderLength(buf);
      if start == -1 then NotGzip
      else if start <= 0 then NeedMore
      else
        var inflated := c.inflate(buf[start..]);
        if inflated == None then NeedMore
        else
          var end := start + inflated.value.used + 8;
          if end > |buf| then NeedMore
          else Took(end, if Intact(c, inflated.value.body, buf[end - 8..end]) then Some(inflated.value.body) else None)
  }

  function Message<M>(c: Codec<M>, text: Option<seq<Byte>>): seq<M> {
    if text == None then []
    else
      match c.parse(text.value)
      case None => []
      case Some(m) => [m]
  }

  // ---- The decoder's state ------------------------------------------------------------------------

  /** `stalledSince` 0: not stuck. */
  datatype Decoder = Decoder(buf: seq<Byte>, resyncs: nat, stalledSince: int)

  datatype Drained<+M> = Drained(d: Decoder, out: seq<M>)

  /** The next gzip magic strictly behind the head, or -1. */
  function NextMagic(buf: seq<Byte>, i: nat): (at: int)
    requires i > 0
    ensures at == -1 || i <= at < |buf|
    decreases |buf| - i
  {
    if i + 1 >= |buf| then -1
    else if buf[i] == 0x1f && buf[i + 1] == 0x8b then i
    else NextMagic(buf, i + 1)
  }

  function Resync(d: Decoder): (r: Decoder)
    ensures |d.buf| > 0 ==> |r.buf| < |d.buf|
    ensures r.resyncs == d.resyncs + 1
  {
    var at := NextMagic(d.buf, 1);
    Decoder(if at == -1 then [] else d.buf[at..], d.resyncs + 1, 0)
  }

  /** Every complete member out of the head of the buffer. */
  function Drain<M>(c: Codec<M>, d: Decoder): Drained<M>
    decreases |d.buf|
  {
    if |d.buf| < MIN_MEMBER then Drained(d, [])
    else
      match TakeOneMember(c, d.buf)
      case NeedMore => Drained(d, [])
      case NotGzip => Drain(c, Resync(d))
      case Took(length, text) =>
        var rest := Drain(c, d.(buf := d.buf[length..]));
        Drained(rest.d, Message(c, text) + rest.out)
  }

  /** The bytes at the head can no longer be a message on its way in. */
  predicate HeadIsGarbage(d: Decoder, decoded: bool, now: int) {
    || |d.buf| > MAX_BUFFERED
    || (!decoded && d.buf != [] && d.stalledSince != 0 && now - d.stalledSince > STALL_MS)
  }

  /** The bookkeeping of that verdict. */
  function Watched(d: Decoder, decoded: bool, now: int): Decoder {
    if |d.buf| > MAX_BUFFERED then d
    else if decoded || d.buf == [] then d.(stalledSince := 0)
    else if d.stalledSince == 0 then d.(stalledSince := now)
    else d
  }

  function Push<M>(c: Codec<M>, d: Decoder, chunk: seq<Byte>, now: int): Drained<M> {
    var first := Drain(c, d.(buf := d.buf + chunk));
    var decoded := first.out != [];
    if HeadIsGarbage(first.d, decoded, now) then
      var again := Drain(c, Resync(first.d));
      Drained(again.d, first.out + again.out)
    else
      Drained(Watched(first.d, decoded, now), first.out)
  }

  /** `s` is the end of `t`. */
  predicate IsSuffix(s: seq<Byte>, t: seq<Byte>) {
    |s| <= |t| && t[|t| - |s|..] == s
  }

  // ---- The class ------------------------------------------------------------------------------------

  class StreamDecoder<M> {
    const codec: Codec<M>
    var buf: seq<Byte>
    var resyncs: nat
    var stalledSince: int

    function View(): Decoder
      reads this
    {
      Decoder(buf, resyncs, stalledSince)
    }

    constructor (codec: Codec<M>)
      ensures View() == Decoder([], 0, 0) && this.codec == codec
    {
      this.codec := codec;
      buf, resyncs, stalledSince := [], 0, 0;
    }

    method ResyncHead()
      modifies this
      ensures View() == Resync(old(View()))
    {
      var at := -1;
      var i := 1;
      while i + 1 < |buf|
        invariant 1 <= i
        invariant at == -1
        invariant NextMagic(buf, 1) == NextMagic(buf, i)
        decreases |buf| - i
      {
        if buf[i] == 0x1f && buf[i + 1] == 0x8b {
          at := i;
          break;
        }
        i := i + 1;
      }
      buf := if at == -1 then [] else buf[at..];
      stalledSince := 0;
      resyncs := resyncs + 1;
    }

    /** Ends, because every turn shortens the buffer or stops. */
    method DrainHead() returns (out: seq<M>)
      modifies this
      ensures Drained(View(), out) == Drain(codec, old(View()))
    {
      hide TakeOneMember, Message, Resync;
      out := [];
      ghost var whole := Drain(codec, View());
      while |buf| >= MIN_MEMBER
        invariant whole == (var rest := Drain(codec, View()); Drained(rest.d, out + rest.out))
        decreases |buf|
      {
        var member := TakeOneMember(codec, buf);
        match member {
          case NeedMore =>
            break;
          case NotGzip =>
            ResyncHead();
          case Took(length, text) =>
            ghost var before := out;
            buf := buf[length..];
            out := out + Message(codec, text);
            assert before + (Message(codec, text) + Drain(codec, View()).out) == out + Drain(codec, View()).out;
        }
      }
      assert out + [] == out;
    }

    method PushChunk(chunk: seq<Byte>, now: int) returns (out: seq<M>)
      modifies this
      ensures Drained(View(), out) == Push(codec, old(View()), chunk, now)
    {
      buf := buf + chunk;
      out := DrainHead();
      var decoded := out != [];
      if HeadIsGarbage(View(), decoded, now) {
        ResyncHead();
        var more := DrainHead();
        out := out + more;
      } else {
        stalledSince := Watched(View(), decoded, now).stalledSince;
      }
    }
  }

  // ---- Whatever arrives -----------------------------------------------------------------------------

  lemma {:induction false} SuffixTrans(a: seq<Byte>, b: seq<Byte>, c: seq<Byte>)
    requires IsSuffix(a, b) && IsSuffix(b, c)
    ensures IsSuffix(a, c)
  {
    assert c[|c| - |a|..] == c[|c| - |b|..][|b| - |a|..];
  }

  lemma ResyncKeepsSuffix(d: Decoder)
    ensures IsSuffix(Resync(d).buf, d.buf)
  {
  }

  lemma {:induction false} DrainKeepsSuffix<M>(c: Codec<M>, d: Decoder)
    ensures IsSuffix(Drain(c, d).d.buf, d.buf)
    decreases |d.buf|
  {
    hide TakeOneMember, Message, Resync;
    if |d.buf| >= MIN_MEMBER {
      var t := TakeOneMember(c, d.buf);
      if t.NotGzip? {
        ResyncKeepsSuffix(d);
        DrainKeepsSuffix(c, Resync(d));
        SuffixTrans(Drain(c, d).d.buf, Resync(d).buf, d.buf);
      } else if t.Took? {
        var rest := d.(buf := d.buf[t.length..]);
        DrainKeepsSuffix(c, rest);
        SuffixTrans(Drain(c, d).d.buf, rest.buf, d.buf);
      }
    }
  }

  lemma PushKeepsSuffix<M>(c: Codec<M>, d: Decoder, chunk: seq<Byte>, now: int)
    ensures IsSuffix(Push(c, d, chunk, now).d.buf, d.buf + chunk)
  {
    var start := d.(buf := d.buf + chunk);
    var first := Drain(c, start);
    DrainKeepsSuffix(c, start);
    if HeadIsGarbage(first.d, first.out != [], now) {
      DrainKeepsSuffix(c, Resync(first.d));
      SuffixTrans(Drain(c, Resync(first.d)).d.buf, Resync(first.d).buf, first.d.buf);
      SuffixTrans(Drain(c, Resync(first.d)).d.buf, first.d.buf, start.buf);
    }
  }

  /** A chunk and the clock when it arrives. */
  datatype Chunk = Chunk(bytes: seq<Byte>, now: int)

  function Received(chunks: seq<Chunk>): seq<Byte> {
    if chunks == [] then [] else chunks[0].bytes + Received(chunks[1..])
  }

  function PushAll<M>(c: Codec<M>, d: Decoder, chunks: seq<Chunk>): Drained<M>
    decreases |chunks|
  {
    if chunks == [] then Drained(d, [])
    else
      var first := Push(c, d, chunks[0].bytes, chunks[0].now);
      var rest := PushAll(c, first.d, chunks[1..]);
      Drained(rest.d, first.out + rest.out)
  }

  /** Whatever bytes arrive, in whatever chunks, the buffer is always the end of the bytes received. */
  lemma {:induction false} BufferIsSuffix<M>(c: Codec<M>, d: Decoder, chunks: seq<Chunk>)
    ensures IsSuffix(PushAll(c, d, chunks).d.buf, d.buf + Received(chunks))
    decreases |chunks|
  {
    hide IsSuffix, Push;
    if chunks == [] {
      SuffixSelf(d.buf);
    } else {
      var x, rest := chunks[0], chunks[1..];
      var next := Push(c, d, x.bytes, x.now).d;
      PushKeepsSuffix(c, d, x.bytes, x.now);
      BufferIsSuffix(c, next, rest);
      Reassociate(d.buf, x.bytes, Received(rest));
      SuffixAppend(next.buf, d.buf + x.bytes, Received(rest));
      SuffixTrans(PushAll(c, d, chunks).d.buf, next.buf + Received(rest), d.buf + x.bytes + Received(rest));
    }
  }

  lemma SuffixSelf(a: seq<Byte>)
    ensures IsSuffix(a, a + [])
  {
    assert a + [] == a;
  }

  lemma Reassociate(a: seq<Byte>, b: seq<Byte>, c: seq<Byte>)
    ensures a + (b + c) == a + b + c
  {
  }

  lemma SuffixAppend(a: seq<Byte>, b: seq<Byte>, c: seq<Byte>)
    requires IsSuffix(a, b)
    ensures IsSuffix(a + c, b + c)
  {
    assert (b + c)[|b| - |a|..] == b[|b| - |a|..] + c;
  }
}
