/** The gzip member header of section 2.3 of RFC 1952: what it looks like, and the parser that finds
    its end (src/ledboxProtocol.js, gzipHeaderLength). */
module GzipHeaders {
  import opened Basics

  type Byte = b: int | 0 <= b < 256

  // ---- The format -------------------------------------------------------------------------------

  /** `fixed` is MTIME, XFL and OS; the optional fields are those FLG announces. */
  datatype Header = Header(text: bool, fixed: seq<Byte>, extra: Option<seq<Byte>>, name: Option<seq<Byte>>,
                           comment: Option<seq<Byte>>, crc: Option<seq<Byte>>)

  predicate NoZero(s: seq<Byte>) {
    forall i :: 0 <= i < |s| ==> s[i] != 0
  }

  predicate WellFormedHeader(h: Header) {
    && |h.fixed| == 6
    && (h.extra.Some? ==> |h.extra.value| < 65536)
    && (h.name.Some? ==> NoZero(h.name.value))
    && (h.comment.Some? ==> NoZero(h.comment.value))
    && (h.crc.Some? ==> |h.crc.value| == 2)
  }

  function Flag(present: bool, bit: nat): nat {
    if present then bit else 0
  }

  function Flags(h: Header): (f: Byte)
    ensures f < 32
    ensures f / 2 % 2 == 1 <==> h.crc.Some?
    ensures f / 4 % 2 == 1 <==> h.extra.Some?
    ensures f / 8 % 2 == 1 <==> h.name.Some?
    ensures f / 16 % 2 == 1 <==> h.comment.Some?
  {
    Flag(h.text, 1) + Flag(h.crc.Some?, 2) + Flag(h.extra.Some?, 4) + Flag(h.name.Some?, 8) + Flag(h.comment.Some?, 16)
  }

  /** FEXTRA: a two-byte little-endian length, then the data. */
  function ExtraField(extra: Option<seq<Byte>>): seq<Byte>
    requires extra.Some? ==> |extra.value| < 65536
  {
    match extra
    case None => []
    case Some(x) => [(|x| % 256) as Byte, (|x| / 256) as Byte] + x
  }

  /** FNAME, FCOMMENT: zero-terminated. */
  function ZeroTerminated(s: Option<seq<Byte>>): seq<Byte> {
    match s
    case None => []
    case Some(x) => x + [0]
  }

  function Encoded(h: Header): (bytes: seq<Byte>)
    requires WellFormedHeader(h)
    ensures |bytes| >= 10
  {
    [31, 139, 8, Flags(h)] + h.fixed + ExtraField(h.extra) + ZeroTerminated(h.name) + ZeroTerminated(h.comment)
    + h.crc.GetOr([])
  }

  // ---- The parser ---------------------------------------------------------------------------------

  predicate Bit(flags: Byte, bit: nat)
    requires bit > 0
  {
    flags / bit % 2 == 1
  }

  /** The first zero at or after `at`, or -1. */
  function IndexOfZero(buf: seq<Byte>, at: nat): (i: int)
    ensures i == -1 || (at <= i < |buf| && buf[i] == 0)
    ensures i == -1 ==> forall k :: at <= k < |buf| ==> buf[k] != 0
    ensures i >= 0 ==> forall k :: at <= k < i ==> buf[k] != 0
    decreases |buf| - at
  {
    if at >= |buf| then -1 else if buf[at] == 0 then at else IndexOfZero(buf, at + 1)
  }

  /** The cursor behind FEXTRA, or None when more bytes are needed. */
  function SkipExtra(buf: seq<Byte>, flags: Byte): Option<nat> {
    if !Bit(flags, 4) then Some(10)
    else if |buf| < 12 then None
    else
      var end: nat := 12 + (buf[10] as int) + 256 * (buf[11] as int);
      Some(end)
  }

  function SkipString(buf: seq<Byte>, at: Option<nat>, present: bool): Option<nat> {
    if at == None || !present then at
    else
      var nul := IndexOfZero(buf, at.value);
      if nul == -1 then None else Some(nul + 1)
  }

  /** Length of the header at the head of `buf`: 0 when more bytes are needed to know, -1 when it is
      not a deflate gzip header at all. */
  function HeaderLength(buf: seq<Byte>): int {
    if |buf| < 10 then 0
    else
      var flags := buf[3];
      if buf[2] != 8 || flags >= 32 then -1
      else
        var at := SkipString(buf, SkipString(buf, SkipExtra(buf, flags), Bit(flags, 8)), Bit(flags, 16));
        if at == None then 0
        else
          var end := at.value + if Bit(flags, 2) then 2 else 0;
          if |buf| > end then end else 0
  }

  method FindZero(buf: seq<Byte>, at: nat) returns (i: int)
    ensures i == IndexOfZero(buf, at)
  {
    i := at;
    while i < |buf|
      invariant at <= i
      invariant IndexOfZero(buf, at) == IndexOfZero(buf, i)
      decreases |buf| - i
    {
      if buf[i] == 0 {
        return;
      }
      i := i + 1;
    }
    i := -1;
  }

  method GzipHeaderLength(buf: seq<Byte>) returns (length: int)
    ensures length == HeaderLength(buf)
  {
    if |buf| < 10 {
      return 0;
    }
    var flags := buf[3];
    if buf[2] != 8 || flags >= 32 {
      return -1;
    }
    var at := 10;
    if Bit(flags, 4) {
      if |buf| < at + 2 {
        return 0;
      }
      at := at + 2 + (buf[at] as int) + 256 * (buf[at + 1] as int);
    }
    var bits := [8, 16];
    var n := 0;
    while n < 2
      invariant 0 <= n <= 2 && at >= 0
      invariant n == 0 ==> SkipExtra(buf, flags) == Some(at)
      invariant n == 1 ==> SkipString(buf, SkipExtra(buf, flags), Bit(flags, 8)) == Some(at)
      invariant n == 2 ==>
                  SkipString(buf, SkipString(buf, SkipExtra(buf, flags), Bit(flags, 8)), Bit(flags, 16)) == Some(at)
    {
      if Bit(flags, bits[n]) {
        var nul := FindZero(buf, at);
        if nul == -1 {
          return 0;
        }
        at := nul + 1;
      }
      n := n + 1;
    }
    if Bit(flags, 2) {
      at := at + 2;
    }
    return if |buf| > at then at else 0;
  }

  // ---- The parser finds the end of every header ------------------------------------------------------

  /** A zero-terminated field at place p of the stream: found once it is all there, not before. */
  lemma SkipsField(stream: seq<Byte>, n: nat, p: nat, s: Option<seq<Byte>>)
    requires n <= |stream| && p + |ZeroTerminated(s)| <= |stream|
    requires stream[p..p + |ZeroTerminated(s)|] == ZeroTerminated(s)
    requires s.Some? ==> NoZero(s.value)
    ensures SkipString(stream[..n], Some(p), s.Some?)
            == if s == None || n >= p + |ZeroTerminated(s)| then Some(p + |ZeroTerminated(s)|) else None
  {
    if s.Some? {
      var field := stream[p..p + |s.value| + 1];
      assert forall k :: 0 <= k < |s.value| ==> stream[p + k] == field[k] == s.value[k];
      assert stream[p + |s.value|] == field[|s.value|] == 0;
      var i := IndexOfZero(stream[..n], p);
      assert i >= 0 ==> stream[i] == 0;
      if n > p + |s.value| {
        assert stream[..n][p + |s.value|] == 0;
      }
    }
  }

  /** A slice of a stream that goes a + b + rest. */
  lemma Slice(stream: seq<Byte>, a: seq<Byte>, b: seq<Byte>, rest: seq<Byte>)
    requires stream == a + b + rest
    ensures stream[|a|..|a| + |b|] == b
  {
  }

  /** The fixed part and the four optional ones, in order. */
  lemma Parts(h: Header, tail: seq<Byte>)
    requires WellFormedHeader(h)
    ensures var b, c, d, e := ExtraField(h.extra), ZeroTerminated(h.name), ZeroTerminated(h.comment), h.crc.GetOr([]);
            var a := [31 as Byte, 139, 8, Flags(h)] + h.fixed;
            && |a| == 10 && |e| == (if h.crc.Some? then 2 else 0)
            && Encoded(h) == a + b + c + d + e
            && Encoded(h) + tail == a + b + c + d + (e + tail)
  {
    var start: seq<Byte> := [31, 139, 8, Flags(h)];
    var x := start + h.fixed + ExtraField(h.extra) + ZeroTerminated(h.name) + ZeroTerminated(h.comment);
    assert x + h.crc.GetOr([]) + tail == x + (h.crc.GetOr([]) + tail);
  }

  /** Where the optional fields of a header start and end. */
  lemma Layout(h: Header, tail: seq<Byte>)
    requires WellFormedHeader(h)
    ensures var stream := Encoded(h) + tail;
            var p1 := 10 + |ExtraField(h.extra)|;
            var p2 := p1 + |ZeroTerminated(h.name)|;
            var p3 := p2 + |ZeroTerminated(h.comment)|;
            && p3 <= |Encoded(h)| <= |stream|
            && stream[2] == 8 && stream[3] == Flags(h)
            && stream[10..p1] == ExtraField(h.extra)
            && stream[p1..p2] == ZeroTerminated(h.name)
            && stream[p2..p3] == ZeroTerminated(h.comment)
            && |Encoded(h)| == p3 + if h.crc.Some? then 2 else 0
  {
    Parts(h, tail);
    hide Encoded, ExtraField, ZeroTerminated, WellFormedHeader;
    var a := [31 as Byte, 139, 8, Flags(h)] + h.fixed;
    var b, c, d := ExtraField(h.extra), ZeroTerminated(h.name), ZeroTerminated(h.comment);
    var e := h.crc.GetOr([]) + tail;
    FirstTwo(a, b, c, d, e);
    LastOne(a, b, c, d, e);
  }

  lemma FirstTwo(a: seq<Byte>, b: seq<Byte>, c: seq<Byte>, d: seq<Byte>, e: seq<Byte>)
    requires |a| >= 4
    ensures var s := a + b + c + d + e;
            && s[2] == a[2] && s[3] == a[3]
            && s[|a|..|a| + |b|] == b && s[|a| + |b|..|a| + |b| + |c|] == c
  {
    var s := a + b + c + d + e;
    assert s == a + b + (c + d + e);
    Slice(s, a, b, c + d + e);
    assert s == (a + b) + c + (d + e);
    Slice(s, a + b, c, d + e);
  }

  lemma LastOne(a: seq<Byte>, b: seq<Byte>, c: seq<Byte>, d: seq<Byte>, e: seq<Byte>)
    ensures var s := a + b + c + d + e;
            var p2 := |a| + |b| + |c|;
            s[p2..p2 + |d|] == d
  {
    Slice(a + b + c + d + e, a + b + c, d, e);
  }

  lemma SkipsExtra(h: Header, tail: seq<Byte>, n: nat)
    requires WellFormedHeader(h) && 10 <= n <= |Encoded(h) + tail|
    ensures SkipExtra((Encoded(h) + tail)[..n], Flags(h))
            == if h.extra.Some? && n < 12 then None else Some(10 + |ExtraField(h.extra)|)
  {
    var stream := Encoded(h) + tail;
    Layout(h, tail);
    if h.extra.Some? && n >= 12 {
      var x := h.extra.value;
      var field := stream[10..10 + |ExtraField(h.extra)|];
      assert stream[10] == field[0] == |x| % 256 && stream[11] == field[1] == |x| / 256;
    }
  }

  /** What the parser makes of a buffer that starts like header h. */
  lemma ParserOutcome(buf: seq<Byte>, h: Header)
    requires |buf| >= 10 && buf[2] == 8 && buf[3] == Flags(h)
    ensures var at := SkipString(buf, SkipString(buf, SkipExtra(buf, Flags(h)), h.name.Some?), h.comment.Some?);
            HeaderLength(buf) == if at == None then 0
                                 else var end := at.value + if h.crc.Some? then 2 else 0;
                                      if |buf| > end then end else 0
  {
  }

  /** The cursor behind the optional fields: known once they are all there. */
  lemma CursorBehindFields(h: Header, tail: seq<Byte>, n: nat)
    requires WellFormedHeader(h) && 10 <= n <= |Encoded(h) + tail|
    ensures var buf := (Encoded(h) + tail)[..n];
            var at := SkipString(buf, SkipString(buf, SkipExtra(buf, Flags(h)), h.name.Some?), h.comment.Some?);
            var p3 := |Encoded(h)| - if h.crc.Some? then 2 else 0;
            if at == None then n < p3 else at.value == p3
  {
    var stream := Encoded(h) + tail;
    Layout(h, tail);
    var p1 := 10 + |ExtraField(h.extra)|;
    hide Encoded, ExtraField, Flags, SkipExtra;
    SkipsExtra(h, tail, n);
    SkipsField(stream, n, p1, h.name);
    SkipsField(stream, n, p1 + |ZeroTerminated(h.name)|, h.comment);
  }

  /** For every combination of flags: the parser answers 0 on every prefix of a header - the whole
      header too, until a byte of the body follows - and its exact length ever after. */
  lemma HeaderFoundExactly(h: Header, tail: seq<Byte>, n: nat)
    requires WellFormedHeader(h) && n <= |Encoded(h) + tail|
    ensures HeaderLength((Encoded(h) + tail)[..n]) == if n > |Encoded(h)| then |Encoded(h)| else 0
  {
    if n >= 10 {
      var stream := Encoded(h) + tail;
      Layout(h, tail);
      assert stream[..n][2] == stream[2] && stream[..n][3] == stream[3];
      ParserOutcome(stream[..n], h);
      CursorBehindFields(h, tail, n);
    }
  }
}
