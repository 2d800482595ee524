/** Decoding does not depend on how TCP cuts the stream. */
module Chunking {
  import opened Basics
  import opened GzipHeaders
  import opened StreamDecoders

  /** A member on the wire: header, deflate stream, CRC-32 and length. */
  datatype Member = Member(header: Header, deflated: seq<Byte>, footer: seq<Byte>)

  predicate WellFormed<M>(c: Codec<M>, m: Member) {
    && WellFormedHeader(m.header) && |m.footer| == 8
    && c.inflate(m.deflated).Some? && c.inflate(m.deflated).value.used == |m.deflated|
    && |Encoded(m.header)| + |m.deflated| + 8 <= MAX_BUFFERED
  }

  predicate AllWellFormed<M>(c: Codec<M>, ms: seq<Member>) {
    forall m :: m in ms ==> WellFormed(c, m)
  }

  function Bytes(m: Member): seq<Byte> {
    (if WellFormedHeader(m.header) then Encoded(m.header) else []) + m.deflated + m.footer
  }

  function Flatten(ms: seq<Member>): seq<Byte> {
    if ms == [] then [] else Bytes(ms[0]) + Flatten(ms[1..])
  }

  /** The message a member carries; none when its check or its text is bad. */
  function MessageOf<M>(c: Codec<M>, m: Member): seq<M> {
    var inflated := c.inflate(m.deflated);
    if inflated == None || |m.footer| != 8 then []
    else Message(c, if Intact(c, inflated.value.body, m.footer) then Some(inflated.value.body) else None)
  }

  function Messages<M>(c: Codec<M>, ms: seq<Member>): seq<M> {
    if ms == [] then [] else MessageOf(c, ms[0]) + Messages(c, ms[1..])
  }

  // ---- One member -----------------------------------------------------------------------------------

  lemma MemberParts(m: Member, tail: seq<Byte>)
    requires WellFormedHeader(m.header)
    ensures var h := |Encoded(m.header)|;
            var s := Bytes(m) + tail;
            && s == Encoded(m.header) + (m.deflated + m.footer + tail)
            && s[0] == 0x1f && s[1] == 0x8b
            && s[h..] == m.deflated + (m.footer + tail)
            && (|m.footer| == 8 ==> s[|Bytes(m)| - 8..|Bytes(m)|] == m.footer)
  {
    var h := Encoded(m.header);
    assert h[0] == 0x1f && h[1] == 0x8b;
    assert Bytes(m) + tail == h + (m.deflated + m.footer + tail);
    assert m.deflated + m.footer + tail == m.deflated + (m.footer + tail);
  }

  /** A complete member is taken whole, whatever follows it. */
  lemma TakesMember<M>(c: Codec<M>, m: Member, tail: seq<Byte>)
    requires Lawful(c) && WellFormed(c, m)
    ensures |Bytes(m) + tail| >= MIN_MEMBER
    ensures var t := TakeOneMember(c, Bytes(m) + tail);
            t.Took? && t.length == |Bytes(m)| && Message(c, t.text) == MessageOf(c, m)
  {
    var s := Bytes(m) + tail;
    var h := |Encoded(m.header)|;
    MemberParts(m, tail);
    assert m.deflated != [];
    HeaderFoundExactly(m.header, m.deflated + m.footer + tail, |s|);
    assert s[..|s|] == s;
    assert c.inflate(m.deflated + (m.footer + tail)) == c.inflate(m.deflated);
  }

  /** A body or a footer that is not all there yet. */
  lemma WaitsForEnd<M>(c: Codec<M>, buf: seq<Byte>, h: nat)
    requires |buf| >= MIN_MEMBER && buf[0] == 0x1f && buf[1] == 0x8b
    requires HeaderLength(buf) == h && 0 < h <= |buf|
    requires c.inflate(buf[h..]).Some? ==> h + c.inflate(buf[h..]).value.used + 8 > |buf|
    ensures TakeOneMember(c, buf) == NeedMore
  {
  }

  lemma PrefixParts(m: Member, n: nat)
    requires WellFormedHeader(m.header) && 2 <= n <= |Bytes(m)|
    ensures var h := |Encoded(m.header)|;
            var buf := Bytes(m)[..n];
            && buf[0] == 0x1f && buf[1] == 0x8b
            && HeaderLength(buf) == (if n > h then h else 0)
            && (n > h ==> buf[h..] == (m.deflated + m.footer)[..n - h])
  {
    MemberParts(m, []);
    assert Bytes(m) + [] == Bytes(m);
    assert Bytes(m) == Encoded(m.header) + (m.deflated + m.footer);
    HeaderFoundExactly(m.header, m.deflated + m.footer, n);
  }

  /** From a proper prefix of a member nothing is taken: the decoder waits. */
  lemma WaitsForMember<M>(c: Codec<M>, m: Member, n: nat)
    requires Lawful(c) && WellFormed(c, m)
    requires MIN_MEMBER <= n < |Bytes(m)|
    ensures TakeOneMember(c, Bytes(m)[..n]) == NeedMore
  {
    var h := |Encoded(m.header)|;
    PrefixParts(m, n);
    if n > h {
      PartialBody(c, m, n - h);
      WaitsForEnd(c, Bytes(m)[..n], h);
    }
  }

  /** What inflate says of the first k bytes behind the header: nothing yet, or exactly the whole body. */
  lemma PartialBody<M>(c: Codec<M>, m: Member, k: nat)
    requires Lawful(c) && WellFormed(c, m) && k <= |m.deflated| + 8
    ensures var r := c.inflate((m.deflated + m.footer)[..k]);
            r.Some? ==> r.value.used == |m.deflated|
  {
    var d := m.deflated;
    if k < |d| {
      var p := d[..k];
      assert (d + m.footer)[..k] == p;
      assert p + d[k..] == d;
      if c.inflate(p).Some? {
        assert c.inflate(p + d[k..]) == c.inflate(p);
        assert c.inflate(p).value.used <= |p|;
      }
    } else {
      assert (d + m.footer)[..k] == d + m.footer[..k - |d|];
      assert c.inflate(d + m.footer[..k - |d|]) == c.inflate(d);
    }
  }

  // ---- A drained buffer -------------------------------------------------------------------------------

  /** What the first n bytes of a stream amount to: the members complete in them, those still to come,
      and how many bytes of the next one are there. */
  datatype Progress = Progress(done: seq<Member>, todo: seq<Member>, left: nat)

  function Split(ms: seq<Member>, n: nat): (p: Progress)
    ensures p.left <= n
    decreases |ms|
  {
    hide Bytes;
    if ms == [] || n < |Bytes(ms[0])| then Progress([], ms, n)
    else
      var rest := Split(ms[1..], n - |Bytes(ms[0])|);
      Progress([ms[0]] + rest.done, rest.todo, rest.left)
  }

  /** A proper prefix of the first of the members still to come; nothing once they have all come. */
  predicate Partial(ms: seq<Member>, n: nat) {
    if ms == [] then n == 0 else n < |Bytes(ms[0])|
  }

  lemma {:induction false} PartialFits(ms: seq<Member>, n: nat)
    requires Partial(ms, n)
    ensures n <= |Flatten(ms)|
    ensures ms != [] ==> Flatten(ms)[..n] == Bytes(ms[0])[..n]
  {
  }

  /** The bytes left over start the members still to come. */
  lemma {:induction false} SplitLeaves(ms: seq<Member>, n: nat)
    requires n <= |Flatten(ms)|
    ensures var p := Split(ms, n);
            Partial(p.todo, p.left) && Flatten(ms)[n - p.left..] == Flatten(p.todo)
    decreases |ms|
  {
    if ms == [] || n < |Bytes(ms[0])| {
      assert Flatten(ms)[0..] == Flatten(ms);
    } else {
      var rest, n' := ms[1..], n - |Bytes(ms[0])|;
      SplitLeaves(rest, n');
      var r := Split(rest, n').left;
      assert Flatten(ms)[n - r..] == Flatten(rest)[n' - r..];
    }
  }

  /** No member is lost or made up. */
  lemma {:induction false} SplitWhole(ms: seq<Member>, n: nat)
    ensures Split(ms, n).done + Split(ms, n).todo == ms
    decreases |ms|
  {
    hide Bytes;
    if ms == [] || n < |Bytes(ms[0])| {
      assert [] + ms == ms;
    } else {
      var rest := Split(ms[1..], n - |Bytes(ms[0])|);
      SplitWhole(ms[1..], n - |Bytes(ms[0])|);
      assert [ms[0]] + rest.done + rest.todo == [ms[0]] + (rest.done + rest.todo);
    }
  }

  lemma {:induction false} SplitFirst(ms: seq<Member>, n: nat, n': nat)
    requires ms != [] && n == |Bytes(ms[0])| + n'
    ensures var rest := Split(ms[1..], n');
            Split(ms, n) == Progress([ms[0]] + rest.done, rest.todo, rest.left)
  {
  }

  lemma {:induction false} SplitAddsOne(ms: seq<Member>, n1: nat, n: nat, k1: nat, k: nat, n2: nat)
    requires ms != [] && n1 == |Bytes(ms[0])| + k1 && n == |Bytes(ms[0])| + k
    requires var p, q := Split(ms[1..], k1), Split(Split(ms[1..], k1).todo, n2);
             Split(ms[1..], k) == Progress(p.done + q.done, q.todo, q.left)
    ensures var p, q := Split(ms, n1), Split(Split(ms, n1).todo, n2);
            Split(ms, n) == Progress(p.done + q.done, q.todo, q.left)
  {
    hide Bytes, Split;
    SplitFirst(ms, n1, k1);
    SplitFirst(ms, n, k);
    var p := Split(ms[1..], k1);
    assert [ms[0]] + (p.done + Split(p.todo, n2).done) == ([ms[0]] + p.done) + Split(p.todo, n2).done;
  }

  /** Taking the members of the first n1 bytes, then those of the rest, is taking those of all n. */
  lemma {:induction false} SplitAdds(ms: seq<Member>, n1: nat, n: nat, n2: nat)
    requires n1 <= n && n2 == Split(ms, n1).left + (n - n1)
    ensures var p, q := Split(ms, n1), Split(Split(ms, n1).todo, n2);
            Split(ms, n) == Progress(p.done + q.done, q.todo, q.left)
    decreases |ms|
  {
    hide Bytes;
    if ms == [] || n1 < |Bytes(ms[0])| {
      assert Split(ms, n1) == Progress([], ms, n1) && n2 == n;
      assert [] + Split(ms, n).done == Split(ms, n).done;
    } else {
      var k1, k := n1 - |Bytes(ms[0])|, n - |Bytes(ms[0])|;
      SplitFirst(ms, n1, k1);
      SplitAdds(ms[1..], k1, k, n2);
      SplitAddsOne(ms, n1, n, k1, k, n2);
    }
  }

  lemma {:induction false} DrainWaits<M>(c: Codec<M>, d: Decoder, ms: seq<Member>, n: nat)
    requires Lawful(c) && AllWellFormed(c, ms) && Partial(ms, n)
    requires n <= |Flatten(ms)| && d.buf == Flatten(ms)[..n]
    ensures Drain(c, d) == Drained(d, []) && |d.buf| <= MAX_BUFFERED
  {
    if ms != [] {
      PartialFits(ms, n);
      assert ms[0] in ms;
      if n >= MIN_MEMBER {
        WaitsForMember(c, ms[0], n);
      }
    }
  }

  lemma {:induction false} DrainsFirst<M>(c: Codec<M>, d: Decoder, m: Member, tail: seq<Byte>)
    requires Lawful(c) && WellFormed(c, m) && d.buf == Bytes(m) + tail
    ensures var rest := Drain(c, d.(buf := tail));
            Drain(c, d) == Drained(rest.d, MessageOf(c, m) + rest.out)
  {
    TakesMember(c, m, tail);
    assert d.buf[|Bytes(m)|..] == tail;
  }

  lemma {:induction false} MessagesCons<M>(c: Codec<M>, m: Member, ms: seq<Member>)
    ensures Messages(c, [m] + ms) == MessageOf(c, m) + Messages(c, ms)
  {
    assert ([m] + ms)[1..] == ms;
  }

  /** Draining n bytes of the stream takes exactly the complete members and leaves the rest. */
  ghost predicate TakesWhole<M>(c: Codec<M>, d: Decoder, ms: seq<Member>, n: nat) {
    var p := Split(ms, n);
    && p.left <= |Flatten(p.todo)| && p.left <= MAX_BUFFERED
    && Drain(c, d) == Drained(d.(buf := Flatten(p.todo)[..p.left]), Messages(c, p.done))
  }

  lemma TakesOneMore<M>(c: Codec<M>, d: Decoder, ms: seq<Member>, n: nat, n': nat, tail: seq<Byte>)
    requires Lawful(c) && ms != [] && WellFormed(c, ms[0]) && n == |Bytes(ms[0])| + n'
    requires d.buf == Bytes(ms[0]) + tail && TakesWhole(c, d.(buf := tail), ms[1..], n')
    ensures TakesWhole(c, d, ms, n)
  {
    DrainsFirst(c, d, ms[0], tail);
    SplitFirst(ms, n, n');
    MessagesCons(c, ms[0], Split(ms[1..], n').done);
  }

  lemma {:induction false} DrainsWhole<M>(c: Codec<M>, d: Decoder, ms: seq<Member>, n: nat)
    requires Lawful(c) && AllWellFormed(c, ms)
    requires n <= |Flatten(ms)| && d.buf == Flatten(ms)[..n]
    ensures TakesWhole(c, d, ms, n)
    decreases |ms|
  {
    if ms == [] || n < |Bytes(ms[0])| {
      DrainWaits(c, d, ms, n);
    } else {
      var n' := n - |Bytes(ms[0])|;
      var tail := Flatten(ms[1..])[..n'];
      assert d.buf == Bytes(ms[0]) + tail;
      DrainsWhole(c, d.(buf := tail), ms[1..], n');
      TakesOneMore(c, d, ms, n, n', tail);
    }
  }

  // ---- Whole streams ------------------------------------------------------------------------------------

  /** Nothing ever sits undecoded past the deadline of whoever asked for it. */
  predicate NeverStalls<M>(c: Codec<M>, d: Decoder, chunks: seq<Chunk>)
    decreases |chunks|
  {
    if chunks == [] then true
    else
      var first := Drain(c, d.(buf := d.buf + chunks[0].bytes));
      && (first.out == [] && first.d.buf != [] && d.stalledSince != 0 ==> chunks[0].now - d.stalledSince <= STALL_MS)
      && NeverStalls(c, Push(c, d, chunks[0].bytes, chunks[0].now).d, chunks[1..])
  }

  lemma {:induction false} DrainKeepsClock<M>(c: Codec<M>, d: Decoder)
    ensures Drain(c, d).d.stalledSince == d.stalledSince || Drain(c, d).d.stalledSince == 0
    decreases |d.buf|
  {
    if |d.buf| >= MIN_MEMBER {
      var t := TakeOneMember(c, d.buf);
      if t.NotGzip? {
        DrainKeepsClock(c, Resync(d));
      } else if t.Took? {
        DrainKeepsClock(c, d.(buf := d.buf[t.length..]));
      }
    }
  }

  /** A stream that arrives within the deadline altogether never stalls, however it is cut. */
  lemma {:induction false} QuickStreamsNeverStall<M>(c: Codec<M>, d: Decoder, chunks: seq<Chunk>, from: int)
    requires from > 0 && (d.stalledSince == 0 || from <= d.stalledSince)
    requires forall i :: 0 <= i < |chunks| ==> from <= chunks[i].now <= from + STALL_MS
    ensures NeverStalls(c, d, chunks)
    decreases |chunks|
  {
    if chunks != [] {
      var x := chunks[0];
      assert from <= x.now <= from + STALL_MS;
      var start := d.(buf := d.buf + x.bytes);
      var first := Drain(c, start);
      DrainKeepsClock(c, start);
      DrainKeepsClock(c, Resync(first.d));
      var next := Push(c, d, x.bytes, x.now).d;
      assert next.stalledSince == 0 || from <= next.stalledSince;
      assert forall i :: 0 <= i < |chunks[1..]| ==> chunks[1..][i] == chunks[i + 1];
      QuickStreamsNeverStall(c, next, chunks[1..], from);
    }
  }

  lemma {:induction false} MessagesAppend<M>(c: Codec<M>, xs: seq<Member>, ys: seq<Member>)
    ensures Messages(c, xs + ys) == Messages(c, xs) + Messages(c, ys)
    decreases |xs|
  {
    if xs == [] {
      assert xs + ys == ys;
    } else {
      assert (xs + ys)[1..] == xs[1..] + ys;
      MessagesAppend(c, xs[1..], ys);
    }
  }

  /** The buffer holds the first b bytes of the members still to come. */
  predicate Holds(d: Decoder, ms: seq<Member>, b: nat) {
    b <= |Flatten(ms)| && d.buf == Flatten(ms)[..b]
  }

  /** Within the limits a push adds nothing to what it drains but its bookkeeping. */
  lemma {:induction false} PushKeepsWhatItDrains<M>(c: Codec<M>, d: Decoder, x: Chunk, first: Drained<M>)
    requires first == Drain(c, d.(buf := d.buf + x.bytes))
    requires |first.d.buf| <= MAX_BUFFERED && first.d.stalledSince == d.stalledSince
    requires NeverStalls(c, d, [x])
    ensures var r := Push(c, d, x.bytes, x.now);
            r.d.buf == first.d.buf && r.d.resyncs == first.d.resyncs && r.out == first.out
  {
  }

  /** One chunk more: from the leftover of some members to the leftover of the ones still to come. */
  lemma {:induction false} PushTakesWhole<M>(c: Codec<M>, d: Decoder, ms: seq<Member>, b: nat, x: Chunk, n: nat)
    requires Lawful(c) && AllWellFormed(c, ms) && Holds(d, ms, b)
    requires n == b + |x.bytes| <= |Flatten(ms)| && x.bytes == Flatten(ms)[b..n]
    requires NeverStalls(c, d, [x])
    ensures var p := Split(ms, n);
            var r := Push(c, d, x.bytes, x.now);
            Holds(r.d, p.todo, p.left) && r.out == Messages(c, p.done) && r.d.resyncs == d.resyncs
  {
    hide Drain, Push, Split, Messages, AllWellFormed;
    var start := d.(buf := d.buf + x.bytes);
    assert start.buf == Flatten(ms)[..n];
    DrainsWhole(c, start, ms, n);
    PushKeepsWhatItDrains(c, d, x, Drain(c, start));
  }

  lemma {:induction false} NeverStallsFirst<M>(c: Codec<M>, d: Decoder, chunks: seq<Chunk>)
    requires chunks != [] && NeverStalls(c, d, chunks)
    ensures NeverStalls(c, d, [chunks[0]])
  {
    assert [chunks[0]][1..] == [];
    assert NeverStalls(c, Push(c, d, chunks[0].bytes, chunks[0].now).d, []);
  }

  /** The bytes of the chunks to come are where the stream goes on. */
  lemma {:induction false} RestOfTheStream(ms: seq<Member>, b: nat, x: Chunk, rest: seq<Chunk>, n1: nat, n: nat)
    requires n1 == b + |x.bytes| && n == n1 + |Received(rest)| <= |Flatten(ms)|
    requires x.bytes + Received(rest) == Flatten(ms)[b..n]
    ensures x.bytes == Flatten(ms)[b..n1]
    ensures var p := Split(ms, n1);
            && p.left + |Received(rest)| <= |Flatten(p.todo)|
            && Received(rest) == Flatten(p.todo)[p.left..p.left + |Received(rest)|]
  {
    hide Split, Bytes, Flatten, Received, Partial;
    var stream := Flatten(ms);
    var p := Split(ms, n1);
    SplitLeaves(ms, n1);
    assert x.bytes == (x.bytes + Received(rest))[..|x.bytes|] == stream[b..n1];
    assert Received(rest) == (x.bytes + Received(rest))[|x.bytes|..] == stream[n1..n];
    assert stream[n1..n] == stream[n1 - p.left..][p.left..p.left + |Received(rest)|];
  }

  lemma {:induction false} MessagesAdd<M>(c: Codec<M>, ms: seq<Member>, n1: nat, n: nat, n2: nat)
    requires n1 <= n && n2 == Split(ms, n1).left + (n - n1)
    ensures var p, q, whole := Split(ms, n1), Split(Split(ms, n1).todo, n2), Split(ms, n);
            && whole.todo == q.todo && whole.left == q.left
            && Messages(c, whole.done) == Messages(c, p.done) + Messages(c, q.done)
  {
    SplitAdds(ms, n1, n, n2);
    MessagesAppend(c, Split(ms, n1).done, Split(Split(ms, n1).todo, n2).done);
  }

  lemma {:induction false} TodoIsWellFormed<M>(c: Codec<M>, ms: seq<Member>, n: nat)
    requires AllWellFormed(c, ms)
    ensures AllWellFormed(c, Split(ms, n).todo)
  {
    var p := Split(ms, n);
    SplitWhole(ms, n);
    assert forall m :: m in p.todo ==> m in p.done + p.todo;
  }

  lemma {:induction false} ChunksTakeWhole<M>(
    c: Codec<M>, d: Decoder, ms: seq<Member>, b: nat, chunks: seq<Chunk>, n: nat)
    requires Lawful(c) && AllWellFormed(c, ms) && Holds(d, ms, b) && Partial(ms, b)
    requires n == b + |Received(chunks)| <= |Flatten(ms)| && Received(chunks) == Flatten(ms)[b..n]
    requires NeverStalls(c, d, chunks)
    ensures var p := Split(ms, n);
            var r := PushAll(c, d, chunks);
            Holds(r.d, p.todo, p.left) && r.out == Messages(c, p.done) && r.d.resyncs == d.resyncs
    decreases |chunks|
  {
    if chunks == [] {
    } else {
      var x, rest := chunks[0], chunks[1..];
      var n1 := b + |x.bytes|;
      var p := Split(ms, n1);
      var n2 := p.left + |Received(rest)|;
      var next := Push(c, d, x.bytes, x.now);
      RestOfTheStream(ms, b, x, rest, n1, n);
      NeverStallsFirst(c, d, chunks);
      PushTakesWhole(c, d, ms, b, x, n1);
      SplitLeaves(ms, n1);
      TodoIsWellFormed(c, ms, n1);
      ChunksTakeWhole(c, next.d, p.todo, p.left, rest, n2);
      MessagesAdd(c, ms, n1, n, n2);
    }
  }

  /** Decoding is independent of chunking: of a stream of well-formed members, cut anywhere and broken
      off anywhere, the decoder yields the messages of the members that are complete, in order, keeps
      the bytes of the one that is not, and never resyncs. */
  lemma {:induction false} DecodingIgnoresChunking<M>(c: Codec<M>, ms: seq<Member>, chunks: seq<Chunk>)
    requires Lawful(c) && AllWellFormed(c, ms)
    requires Received(chunks) <= Flatten(ms)
    requires NeverStalls(c, Decoder([], 0, 0), chunks)
    ensures var p := Split(ms, |Received(chunks)|);
            var r := PushAll(c, Decoder([], 0, 0), chunks);
            && p.done + p.todo == ms && Partial(p.todo, p.left)
            && r.out == Messages(c, p.done) && Holds(r.d, p.todo, p.left) && r.d.resyncs == 0
  {
    if ms == [] {
      assert Received(chunks) == [];
    }
    if ms != [] {
      assert ms[0] in ms;
    }
    ChunksTakeWhole(c, Decoder([], 0, 0), ms, 0, chunks, |Received(chunks)|);
    SplitWhole(ms, |Received(chunks)|);
    SplitLeaves(ms, |Received(chunks)|);
  }
}
