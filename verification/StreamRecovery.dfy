/** What the de-framer does with a stream that went wrong: how long a head that will never decode keeps it
    deaf, and what it reads once it drops that head. */
module StreamRecovery {
  import opened Basics
  import opened GzipHeaders
  import opened StreamDecoders
  import opened Chunking

  // ---- The head that is dropped ---------------------------------------------------------------------------

  predicate MagicAt(s: seq<Byte>, i: nat) {
    i + 1 < |s| && s[i] == 0x1f && s[i + 1] == 0x8b
  }

  /** Nothing behind its first byte looks like the start of a member. */
  predicate NoMagicBehind(head: seq<Byte>) {
    forall i :: 0 < i < |head| ==> !MagicAt(head, i)
  }

  lemma {:induction false} NextMagicIsFirst(buf: seq<Byte>, i: nat, at: nat)
    requires 0 < i <= at && MagicAt(buf, at) && forall k :: i <= k < at ==> !MagicAt(buf, k)
    ensures NextMagic(buf, i) == at
    decreases at - i
  {
    if i < at {
      assert !MagicAt(buf, i);
      NextMagicIsFirst(buf, i + 1, at);
    }
  }

  /** Dropping the head restarts at the member behind it. */
  lemma ResyncFinds(d: Decoder, head: seq<Byte>, rest: seq<Byte>)
    requires d.buf == head + rest && head != [] && NoMagicBehind(head) && MagicAt(rest, 0)
    ensures Resync(d) == Decoder(rest, d.resyncs + 1, 0)
  {
    assert MagicAt(d.buf, |head|);
    forall k | 1 <= k < |head|
      ensures !MagicAt(d.buf, k)
    {
      assert !MagicAt(head, k);
    }
    NextMagicIsFirst(d.buf, 1, |head|);
  }

  lemma {:induction false} StreamStarts<M>(c: Codec<M>, ms: seq<Member>, n: nat)
    requires AllWellFormed(c, ms) && ms != [] && 2 <= n <= |Flatten(ms)|
    ensures MagicAt(Flatten(ms)[..n], 0)
  {
    assert ms[0] in ms;
    MemberParts(ms[0], Flatten(ms[1..]));
  }

  /** What is left of a stream behind a dropped head: every complete member's message, and the rest kept. */
  lemma {:induction false} BehindTheHead<M>(c: Codec<M>, d: Decoder, head: seq<Byte>, ms: seq<Member>, n: nat)
    requires Lawful(c) && AllWellFormed(c, ms) && ms != [] && 2 <= n <= |Flatten(ms)|
    requires d.buf == head + Flatten(ms)[..n] && head != [] && NoMagicBehind(head)
    ensures var p := Split(ms, n);
            var r := Drain(c, Resync(d));
            && r.out == Messages(c, p.done) && Holds(r.d, p.todo, p.left)
            && r.d.resyncs == d.resyncs + 1 && r.d.stalledSince == 0
  {
    StreamStarts(c, ms, n);
    ResyncFinds(d, head, Flatten(ms)[..n]);
    hide Drain, Split, Messages, Resync, AllWellFormed, NoMagicBehind;
    DrainsWhole(c, Decoder(Flatten(ms)[..n], d.resyncs + 1, 0), ms, n);
  }

  /** Nothing can be taken from the head of these bytes, and nothing says they are no message. */
  predicate Undecodable<M>(c: Codec<M>, buf: seq<Byte>) {
    |buf| >= MIN_MEMBER ==> TakeOneMember(c, buf) == NeedMore
  }

  /** Time for the head to go: too many bytes, or too long without a message. */
  predicate Overdue(d: Decoder, buf: seq<Byte>, now: int) {
    |buf| > MAX_BUFFERED || (d.stalledSince != 0 && now > d.stalledSince + STALL_MS)
  }

  /** A reply cut off in the middle keeps the replies behind it from being read - until it is overdue. The chunk
      that finds it overdue drops it, and reads every complete reply behind it, in order, there and then. */
  lemma {:induction false} StaleHeadIsDropped<M>(
    c: Codec<M>, d: Decoder, chunk: seq<Byte>, now: int, head: seq<Byte>, ms: seq<Member>, n: nat)
    requires Lawful(c) && AllWellFormed(c, ms) && ms != [] && 2 <= n <= |Flatten(ms)|
    requires d.buf + chunk == head + Flatten(ms)[..n] && head != [] && NoMagicBehind(head)
    requires Undecodable(c, d.buf + chunk) && Overdue(d, d.buf + chunk, now)
    ensures var p := Split(ms, n);
            var r := Push(c, d, chunk, now);
            && r.out == Messages(c, p.done) && Holds(r.d, p.todo, p.left)
            && r.d.resyncs == d.resyncs + 1 && r.d.stalledSince == 0
  {
    var start := d.(buf := d.buf + chunk);
    BehindTheHead(c, start, head, ms, n);
    NothingTaken(c, start);
    hide Split, Messages, Resync, AllWellFormed, NoMagicBehind, Drain, Holds;
    assert HeadIsGarbage(start, false, now);
    assert [] + Drain(c, Resync(start)).out == Drain(c, Resync(start)).out;
  }

  lemma {:induction false} NothingTaken<M>(c: Codec<M>, d: Decoder)
    requires Undecodable(c, d.buf)
    ensures Drain(c, d) == Drained(d, [])
  {
    hide TakeOneMember;
  }

  /** Before it is overdue the bytes are kept whole, and the clock runs from the first chunk that left them
      undecoded. */
  lemma SlowHeadIsKept<M>(c: Codec<M>, d: Decoder, chunk: seq<Byte>, now: int)
    requires Undecodable(c, d.buf + chunk) && d.buf + chunk != [] && !Overdue(d, d.buf + chunk, now)
    ensures Push(c, d, chunk, now) ==
            Drained(Decoder(d.buf + chunk, d.resyncs, if d.stalledSince == 0 then now else d.stalledSince), [])
  {
    NothingTaken(c, d.(buf := d.buf + chunk));
  }

  /** Bytes in front of a reply that are no reply at all are dropped at once, whatever the clock says. */
  lemma {:induction false} JunkIsDropped<M>(c: Codec<M>, d: Decoder, junk: seq<Byte>, ms: seq<Member>, n: nat)
    requires Lawful(c) && AllWellFormed(c, ms) && ms != [] && 2 <= n <= |Flatten(ms)|
    requires d.buf == junk + Flatten(ms)[..n] && junk != [] && NoMagicBehind(junk)
    requires |d.buf| >= MIN_MEMBER && !MagicAt(d.buf, 0)
    ensures var p := Split(ms, n);
            var r := Drain(c, d);
            && r.out == Messages(c, p.done) && Holds(r.d, p.todo, p.left)
            && r.d.resyncs == d.resyncs + 1
  {
    BehindTheHead(c, d, junk, ms, n);
    assert TakeOneMember(c, d.buf) == NotGzip;
    hide TakeOneMember, Split, Messages, Resync, AllWellFormed, NoMagicBehind, Holds;
    assert Drain(c, d) == Drain(c, Resync(d));
  }

  // ---- How long it can be deaf ------------------------------------------------------------------------------

  /** Chunks that all leave bytes and yield nothing, the decoder dropping nothing. */
  predicate Deaf<M>(c: Codec<M>, d: Decoder, chunks: seq<Chunk>)
    decreases |chunks|
  {
    chunks == [] ||
    var r := Push(c, d, chunks[0].bytes, chunks[0].now);
    r.out == [] && r.d.buf != [] && r.d.resyncs == d.resyncs && Deaf(c, r.d, chunks[1..])
  }

  lemma {:induction false} DrainCountsResyncs<M>(c: Codec<M>, d: Decoder)
    ensures Drain(c, d).d.resyncs >= d.resyncs
    ensures Drain(c, d).d.resyncs == d.resyncs ==> Drain(c, d).d.stalledSince == d.stalledSince
    decreases |d.buf|
  {
    hide TakeOneMember;
    if |d.buf| >= MIN_MEMBER {
      var t := TakeOneMember(c, d.buf);
      if t.NotGzip? {
        DrainCountsResyncs(c, Resync(d));
      } else if t.Took? {
        DrainCountsResyncs(c, d.(buf := d.buf[t.length..]));
      }
    }
  }

  /** When the silence began, if this chunk is part of it. */
  function Since(d: Decoder, now: int): int {
    if d.stalledSince == 0 then now else d.stalledSince
  }

  lemma DeafPush<M>(c: Codec<M>, d: Decoder, x: Chunk)
    requires var r := Push(c, d, x.bytes, x.now); r.out == [] && r.d.buf != [] && r.d.resyncs == d.resyncs
    ensures var r := Push(c, d, x.bytes, x.now);
            r.d.stalledSince == Since(d, x.now) && x.now <= Since(d, x.now) + STALL_MS && |r.d.buf| <= MAX_BUFFERED
  {
    var start := d.(buf := d.buf + x.bytes);
    var first := Drain(c, start);
    DrainCountsResyncs(c, start);
    DrainCountsResyncs(c, Resync(first.d));
    hide Drain;
    assert !HeadIsGarbage(first.d, first.out != [], x.now);
    assert first.out == [];
  }

  /** The silence has one beginning. */
  lemma {:induction false} LaterIsDeaf<M>(c: Codec<M>, d: Decoder, chunks: seq<Chunk>, i: nat)
    requires Deaf(c, d, chunks) && i < |chunks| && (d.stalledSince != 0 || chunks[0].now != 0)
    ensures chunks[i].now <= Since(d, chunks[0].now) + STALL_MS
    decreases |chunks|
  {
    var x, rest := chunks[0], chunks[1..];
    DeafPush(c, d, x);
    hide Push;
    if i > 0 {
      LaterIsDeaf(c, Push(c, d, x.bytes, x.now).d, rest, i - 1);
    }
  }

  lemma {:induction false} LittleIsKept<M>(c: Codec<M>, d: Decoder, chunks: seq<Chunk>)
    requires Deaf(c, d, chunks) && |d.buf| <= MAX_BUFFERED
    ensures |PushAll(c, d, chunks).d.buf| <= MAX_BUFFERED
    decreases |chunks|
  {
    if chunks != [] {
      var x := chunks[0];
      DeafPush(c, d, x);
      hide Push;
      LittleIsKept(c, Push(c, d, x.bytes, x.now).d, chunks[1..]);
    }
  }

  /** A decoder is deaf for the deadline of whoever asked, and no longer: over any run of chunks that yield
      nothing, leave bytes and drop none, from a decoder not already waiting, the last chunk arrives no more
      than 5 s after the first, and no more than 64 KiB have piled up. */
  lemma {:induction false} DeafNoLongerThanTheDeadline<M>(c: Codec<M>, d: Decoder, chunks: seq<Chunk>)
    requires Deaf(c, d, chunks) && chunks != [] && chunks[0].now != 0
    requires d.stalledSince == 0 && |d.buf| <= MAX_BUFFERED
    ensures chunks[|chunks| - 1].now - chunks[0].now <= 5000
    ensures |PushAll(c, d, chunks).d.buf| <= 65536
  {
    hide Push;
    LaterIsDeaf(c, d, chunks, |chunks| - 1);
    LittleIsKept(c, d, chunks);
  }

  /** A message read, or a buffer emptied, ends the silence: the next one has its full time, so a stream that
      keeps yielding messages is never cut off for what is still coming in. */
  lemma MessageEndsTheSilence<M>(c: Codec<M>, d: Decoder, chunk: seq<Byte>, now: int)
    ensures var r := Push(c, d, chunk, now);
            (r.out != [] || r.d.buf == []) && r.d.resyncs == d.resyncs ==> r.d.stalledSince == 0
  {
    var start := d.(buf := d.buf + chunk);
    var first := Drain(c, start);
    DrainCountsResyncs(c, start);
    DrainCountsResyncs(c, Resync(first.d));
    hide Drain;
  }

  // ---- The check at the end of a member ---------------------------------------------------------------------

  /** A 32-bit number, lowest byte first. */
  function LittleEndian(n: int): seq<Byte>
    requires 0 <= n < 0x1_0000_0000
  {
    [(n % 256) as Byte, (n / 256 % 256) as Byte, (n / 65536 % 256) as Byte, (n / 16777216) as Byte]
  }

  lemma Digits(a: int, b: int, e: int, f: int, n: int)
    requires 0 <= a < 256 && 0 <= b < 256 && 0 <= e < 256 && n == a + 256 * (b + 256 * (e + 256 * f))
    ensures a == n % 256 && b == n / 256 % 256 && e == n / 65536 % 256 && f == n / 16777216
  {
    assert n / 256 == b + 256 * (e + 256 * f);
    assert n / 65536 == e + 256 * f;
  }

  lemma ReadsBack(bytes: seq<Byte>, n: int)
    requires |bytes| == 4 && 0 <= n < 0x1_0000_0000
    ensures UInt32LE(bytes, 0) == n <==> bytes == LittleEndian(n)
  {
    var a, b, e, f := bytes[0] as int, bytes[1] as int, bytes[2] as int, bytes[3] as int;
    if UInt32LE(bytes, 0) == n {
      Digits(a, b, e, f, n);
      hide UInt32LE;
      assert bytes == LittleEndian(n);
    }
    Sum(n);
  }

  lemma Sum(n: int)
    requires 0 <= n < 0x1_0000_0000
    ensures UInt32LE(LittleEndian(n), 0) == n
  {
    assert n / 256 == n / 256 % 256 + 256 * (n / 65536);
    assert n / 65536 == n / 65536 % 256 + 256 * (n / 16777216);
  }

  /** A member's message counts exactly when its footer is the CRC-32 of the body and the body's length, each
      lowest byte first: damage to either drops the message, and only that message. */
  lemma FooterDecides<M>(c: Codec<M>, m: Member, body: seq<Byte>)
    requires WellFormed(c, m) && c.inflate(m.deflated).value.body == body && 0 <= c.crc32(body) < 0x1_0000_0000
    ensures var good := m.footer == LittleEndian(c.crc32(body)) + LittleEndian(|body| % 0x1_0000_0000);
            MessageOf(c, m) == if good && c.parse(body).Some? then [c.parse(body).value] else []
  {
    var lo, hi := m.footer[..4], m.footer[4..];
    assert m.footer == lo + hi;
    ReadsBack(lo, c.crc32(body));
    ReadsBack(hi, |body| % 0x1_0000_0000);
    assert UInt32LE(m.footer, 0) == UInt32LE(lo, 0) && UInt32LE(m.footer, 4) == UInt32LE(hi, 0);
    hide UInt32LE;
    var crc, len := LittleEndian(c.crc32(body)), LittleEndian(|body| % 0x1_0000_0000);
    assert (crc + len)[..4] == crc && (crc + len)[4..] == len;
  }
}
