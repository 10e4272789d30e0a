/** The gauge side of src-tauri/src/gauge.rs: the MELSEC "MC protocol"
    binary 3E response frame, its decoder and pass-through encoder, the
    decoding of one response into a `GaugeResponse`, and the one-bit edge
    detector that publishes a measurement once per completed gauge cycle. */
module Gauge {
  import opened RustTypes

  /** The commands the edge detector and the poll loop queue for the gauge. */
  datatype HexCommand = Read | Write0 | Write1

  /** Bytes before the payload; the length field counts what follows them. */
  const HeaderLen: nat := 9
  /** `decode` does nothing until this many bytes are buffered. */
  const MinBuffered: nat := 11
  /** A frame shorter than this decodes to no response. */
  const MinResponseLen: nat := 51
  /** Byte offsets of the fields the decoder reads. */
  const LengthAt: nat := 7
  const MachineIdAt: nat := 11
  const StatusAt: nat := 13
  /** The measurement slots: `SlotCount` slots of 4 bytes from `SlotBase`. */
  const SlotBase: nat := 31
  const SlotCount: nat := 2
  /** A slot is `integer * SlotScale + fractional`. */
  const SlotScale: int := 10000

  // ---------------------------------------------------------------------
  // Little-endian 16-bit fields

  /** `u16::from_le_bytes([lo, hi])` */
  function LeU16(lo: U8, hi: U8): U16
  {
    lo + 0x100 * hi
  }

  /** `i16::from_le_bytes([lo, hi])`: the same bits read as two's complement. */
  function LeI16(lo: U8, hi: U8): (v: int)
    ensures InI16(v)
    ensures v >= 0 <==> hi < 0x80
  {
    var u := LeU16(lo, hi);
    if u <= I16Max then u else u - 0x1_0000
  }

  /** `v.to_le_bytes()` for a `u16`: the partner of `LeU16`. */
  function U16Le(v: U16): (U8, U8)
  {
    (v % 0x100, v / 0x100)
  }

  /** The bits of an `i16` as the unsigned value with the same bits. */
  function I16Bits(v: int): (u: U16)
    requires InI16(v)
    ensures v >= 0 ==> u == v
  {
    if v < 0 then v + 0x1_0000 else v
  }

  lemma LeU16RoundTrip(v: U16)
    ensures LeU16(U16Le(v).0, U16Le(v).1) == v
  {
  }

  lemma U16LeRoundTrip(lo: U8, hi: U8)
    ensures U16Le(LeU16(lo, hi)) == (lo, hi)
  {
  }

  lemma LeI16RoundTrip(v: int)
    requires InI16(v)
    ensures LeI16(U16Le(I16Bits(v)).0, U16Le(I16Bits(v)).1) == v
  {
    LeU16RoundTrip(I16Bits(v));
  }

  // ---------------------------------------------------------------------
  // One response

  datatype GaugeResponse = GaugeResponse(
    machineId: U16,
    rawData: seq<U8>,    // the frame; its hex rendering is not modelled
    plcDataOn: bool,
    point: int)

  /** Measurement slot `i`: signed integer part, then signed fractional part. */
  function SlotValue(bytes: seq<U8>, i: nat): (v: int)
    requires SlotBase + 4 * i + 4 <= |bytes|
    ensures -327_712_768 <= v <= 327_702_767
  {
    var at := SlotBase + 4 * i;
    LeI16(bytes[at], bytes[at + 1]) * SlotScale + LeI16(bytes[at + 2], bytes[at + 3])
  }

  /** The sum of the first `n` slots, as `(0..n).map(..).sum::<i32>()`. */
  function SlotSum(bytes: seq<U8>, n: nat): (v: int)
    requires SlotBase + 4 * n <= |bytes|
    ensures n * -327_712_768 <= v <= n * 327_702_767
  {
    if n == 0 then 0 else SlotSum(bytes, n - 1) + SlotValue(bytes, n - 1)
  }

  /** Rust's `x / 2` on `i32`: division truncating toward zero. */
  function HalfTowardZero(x: int): (r: int)
    ensures x >= 0 ==> 0 <= 2 * r <= x && x - 2 * r <= 1
    ensures x < 0 ==> x <= 2 * r <= 0 && 2 * r - x <= 1
  {
    if x >= 0 then x / 2 else -((-x) / 2)
  }

  /** `GaugeResponse::from_bytes`: a frame shorter than 51 bytes yields
      nothing; otherwise the machine id, the "PLC data on" flag (the status
      word equals exactly 1) and the average of the two slots. */
  function FromBytes(bytes: seq<U8>): (r: Option<GaugeResponse>)
    ensures r.Some? <==> |bytes| >= MinResponseLen
    ensures r.Some? ==> r.value.rawData == bytes && InI32(r.value.point)
  {
    if |bytes| < MinResponseLen then None
    else
      Some(GaugeResponse(
        LeU16(bytes[MachineIdAt], bytes[MachineIdAt + 1]),
        bytes,
        LeU16(bytes[StatusAt], bytes[StatusAt + 1]) == 1,
        HalfTowardZero(SlotSum(bytes, SlotCount))))
  }

  /** The two slots never overflow `i32` when summed, so `sum::<i32>()`
      cannot panic. */
  lemma SlotSumFitsI32(bytes: seq<U8>)
    requires |bytes| >= MinResponseLen
    ensures InI32(SlotSum(bytes, SlotCount))
  {
  }

  // ---------------------------------------------------------------------
  // Framing

  datatype DecodeResult = DecodeResult(item: Option<GaugeResponse>, rest: seq<U8>)

  /** The frame length announced by a buffered header. */
  function FrameLen(buf: seq<U8>): (n: nat)
    requires |buf| >= HeaderLen
    ensures HeaderLen <= n <= HeaderLen + 0xFFFF
  {
    LeU16(buf[LengthAt], buf[LengthAt + 1]) + HeaderLen
  }

  /** What one call of `McProtocolCodec::decode` does to a buffer: the item
      it yields and the bytes it leaves buffered. */
  function DecodeStep(buf: seq<U8>): (r: DecodeResult)
    ensures r.rest == buf || (|buf| >= MinBuffered && FrameLen(buf) <= |buf| && r.rest == buf[FrameLen(buf)..])
  {
    if |buf| < MinBuffered then DecodeResult(None, buf)
    else
      var len := FrameLen(buf);
      if |buf| < len then DecodeResult(None, buf)
      else DecodeResult(FromBytes(buf[..len]), buf[len..])
  }

  lemma DecodeWaitsForHeader(buf: seq<U8>)
    requires |buf| < MinBuffered
    ensures DecodeStep(buf) == DecodeResult(None, buf)
  {
  }

  lemma DecodeWaitsForWholeFrame(buf: seq<U8>)
    requires |buf| >= MinBuffered && |buf| < FrameLen(buf)
    ensures DecodeStep(buf) == DecodeResult(None, buf)
  {
  }

  /** A complete frame at the front of the buffer is split off exactly,
      and what follows it stays buffered in order. */
  lemma DecodeSplitsFrame(frame: seq<U8>, rest: seq<U8>)
    requires |frame| >= MinBuffered && |frame| == FrameLen(frame)
    ensures DecodeStep(frame + rest) == DecodeResult(FromBytes(frame), rest)
  {
    var buf := frame + rest;
    assert buf[LengthAt] == frame[LengthAt] && buf[LengthAt + 1] == frame[LengthAt + 1];
    assert buf[..|frame|] == frame;
    assert buf[|frame|..] == rest;
  }

  /** A complete frame shorter than a response is consumed and dropped,
      without an error. */
  lemma DecodeDropsShortFrame(frame: seq<U8>, rest: seq<U8>)
    requires |frame| >= MinBuffered && |frame| == FrameLen(frame) && |frame| < MinResponseLen
    ensures DecodeStep(frame + rest) == DecodeResult(None, rest)
  {
    DecodeSplitsFrame(frame, rest);
  }

  // ---------------------------------------------------------------------
  // A reference encoding of a response, to check the decoder against

  /** One measurement slot as the gauge reports it. */
  datatype SlotReading = SlotReading(integer: int, fractional: int)

  predicate ValidReading(s: SlotReading)
  {
    InI16(s.integer) && InI16(s.fractional)
  }

  function ReadingValue(s: SlotReading): int
  {
    s.integer * SlotScale + s.fractional
  }

  /** Byte `i` of a 51-byte response frame: subheader D0 00, network,
      PC, I/O and station numbers, the data length 42, end code 0, the
      machine id, the status word, 16 unused bytes, the two slots and 12
      unused bytes. */
  function ResponseByte(machineId: U16, status: U16, s0: SlotReading, s1: SlotReading, i: nat): U8
    requires ValidReading(s0) && ValidReading(s1)
  {
    if i < 7 then [0xD0, 0x00, 0x00, 0xFF, 0xFF, 0x03, 0x00][i]
    else if i == 7 then U16Le(MinResponseLen - HeaderLen).0
    else if i == 8 then U16Le(MinResponseLen - HeaderLen).1
    else if i == 11 then U16Le(machineId).0
    else if i == 12 then U16Le(machineId).1
    else if i == 13 then U16Le(status).0
    else if i == 14 then U16Le(status).1
    else if i == 31 then U16Le(I16Bits(s0.integer)).0
    else if i == 32 then U16Le(I16Bits(s0.integer)).1
    else if i == 33 then U16Le(I16Bits(s0.fractional)).0
    else if i == 34 then U16Le(I16Bits(s0.fractional)).1
    else if i == 35 then U16Le(I16Bits(s1.integer)).0
    else if i == 36 then U16Le(I16Bits(s1.integer)).1
    else if i == 37 then U16Le(I16Bits(s1.fractional)).0
    else if i == 38 then U16Le(I16Bits(s1.fractional)).1
    else 0
  }

  function ResponseFrame(machineId: U16, status: U16, s0: SlotReading, s1: SlotReading): (f: seq<U8>)
    requires ValidReading(s0) && ValidReading(s1)
    ensures |f| == MinResponseLen
  {
    seq(MinResponseLen, i requires 0 <= i < MinResponseLen => ResponseByte(machineId, status, s0, s1, i))
  }

  /** Slot `i` of `f` holds the little-endian encoding of reading `s`. */
  predicate SlotCarries(f: seq<U8>, i: nat, s: SlotReading)
    requires SlotBase + 4 * i + 4 <= |f| && ValidReading(s)
  {
    var at := SlotBase + 4 * i;
    && (f[at], f[at + 1]) == U16Le(I16Bits(s.integer))
    && (f[at + 2], f[at + 3]) == U16Le(I16Bits(s.fractional))
  }

  /** `f` is long enough to be a response and holds the given machine id,
      status word and two slot readings at their offsets; every other byte,
      the end code at bytes 9 and 10 included, is arbitrary. */
  predicate CarriesReading(f: seq<U8>, machineId: U16, status: U16, s0: SlotReading, s1: SlotReading)
  {
    && ValidReading(s0) && ValidReading(s1)
    && |f| >= MinResponseLen
    && (f[MachineIdAt], f[MachineIdAt + 1]) == U16Le(machineId)
    && (f[StatusAt], f[StatusAt + 1]) == U16Le(status)
    && SlotCarries(f, 0, s0) && SlotCarries(f, 1, s1)
  }

  /** A slot reads back as the reading encoded there. */
  lemma SlotReadsBack(f: seq<U8>, i: nat, s: SlotReading)
    requires SlotBase + 4 * i + 4 <= |f| && ValidReading(s) && SlotCarries(f, i, s)
    ensures SlotValue(f, i) == ReadingValue(s)
  {
    LeI16RoundTrip(s.integer);
    LeI16RoundTrip(s.fractional);
  }

  /** Any frame carrying a reading, of any length from 51 bytes on and
      whatever its other bytes, decodes to that machine id, the flag
      `status == 1` and the truncated average of the two slots. */
  lemma FromBytesReadsFields(f: seq<U8>, machineId: U16, status: U16, s0: SlotReading, s1: SlotReading)
    requires CarriesReading(f, machineId, status, s0, s1)
    ensures FromBytes(f) == Some(GaugeResponse(machineId, f, status == 1,
                                               HalfTowardZero(ReadingValue(s0) + ReadingValue(s1))))
  {
    LeU16RoundTrip(machineId);
    LeU16RoundTrip(status);
    SlotReadsBack(f, 0, s0);
    SlotReadsBack(f, 1, s1);
    assert SlotSum(f, SlotCount) == ReadingValue(s0) + ReadingValue(s1) by {
      assert SlotSum(f, 1) == SlotValue(f, 0);
    }
  }

  /** The same, through the decoder: a whole frame carrying a reading,
      followed by anything, yields that response and leaves the rest. */
  lemma DecodeFrameCarryingReading(f: seq<U8>, rest: seq<U8>, machineId: U16, status: U16,
                                   s0: SlotReading, s1: SlotReading)
    requires CarriesReading(f, machineId, status, s0, s1) && |f| == FrameLen(f)
    ensures DecodeStep(f + rest) ==
      DecodeResult(Some(GaugeResponse(machineId, f, status == 1,
                                      HalfTowardZero(ReadingValue(s0) + ReadingValue(s1)))),
                   rest)
  {
    DecodeSplitsFrame(f, rest);
    FromBytesReadsFields(f, machineId, status, s0, s1);
  }

  /** The end code at bytes 9 and 10 is never read: whatever it holds,
      the response decoded is the same apart from the raw bytes it keeps,
      so a non-zero end code does not suppress a response. */
  lemma EndCodeIsIgnored(f: seq<U8>, lo: U8, hi: U8)
    requires |f| >= MinResponseLen
    ensures var g := f[9 := lo][10 := hi];
      FromBytes(g) == Some(FromBytes(f).value.(rawData := g))
  {
    var g := f[9 := lo][10 := hi];
    assert SlotValue(g, 0) == SlotValue(f, 0);
    assert SlotValue(g, 1) == SlotValue(f, 1);
    assert SlotSum(g, 1) == SlotSum(f, 1);
    assert SlotSum(g, SlotCount) == SlotSum(f, SlotCount);
  }

  /** The reference frame carries the reading it was built from, and its
      length field announces exactly its own length. */
  lemma ResponseFrameCarries(machineId: U16, status: U16, s0: SlotReading, s1: SlotReading)
    requires ValidReading(s0) && ValidReading(s1)
    ensures var f := ResponseFrame(machineId, status, s0, s1);
      CarriesReading(f, machineId, status, s0, s1) && FrameLen(f) == MinResponseLen
  {
    var f := ResponseFrame(machineId, status, s0, s1);
    assert f[LengthAt] == U16Le(MinResponseLen - HeaderLen).0;
    assert f[LengthAt + 1] == U16Le(MinResponseLen - HeaderLen).1;
    LeU16RoundTrip(MinResponseLen - HeaderLen);
    assert f[MachineIdAt] == U16Le(machineId).0 && f[MachineIdAt + 1] == U16Le(machineId).1;
    assert f[StatusAt] == U16Le(status).0 && f[StatusAt + 1] == U16Le(status).1;
    assert f[31] == U16Le(I16Bits(s0.integer)).0 && f[32] == U16Le(I16Bits(s0.integer)).1;
    assert f[33] == U16Le(I16Bits(s0.fractional)).0 && f[34] == U16Le(I16Bits(s0.fractional)).1;
    assert f[35] == U16Le(I16Bits(s1.integer)).0 && f[36] == U16Le(I16Bits(s1.integer)).1;
    assert f[37] == U16Le(I16Bits(s1.fractional)).0 && f[38] == U16Le(I16Bits(s1.fractional)).1;
  }

  /** Round trip: the reference frame, followed by anything, decodes to the
      machine id, the flag and the truncated average of the two slots it was
      built from, and leaves the following bytes buffered. */
  lemma DecodeResponseFrame(machineId: U16, status: U16, s0: SlotReading, s1: SlotReading, rest: seq<U8>)
    requires ValidReading(s0) && ValidReading(s1)
    ensures var f := ResponseFrame(machineId, status, s0, s1);
      DecodeStep(f + rest) ==
        DecodeResult(Some(GaugeResponse(machineId, f, status == 1,
                                        HalfTowardZero(ReadingValue(s0) + ReadingValue(s1)))),
                     rest)
  {
    ResponseFrameCarries(machineId, status, s0, s1);
    DecodeFrameCarryingReading(ResponseFrame(machineId, status, s0, s1), rest, machineId, status, s0, s1);
  }

  /** The status word must be exactly 1: 2, 3, ... read as "off", in any
      frame carrying it. */
  lemma FlagNeedsExactlyOne(f: seq<U8>, machineId: U16, status: U16, s0: SlotReading, s1: SlotReading)
    requires CarriesReading(f, machineId, status, s0, s1)
    ensures FromBytes(f).Some? && (FromBytes(f).value.plcDataOn <==> status == 1)
  {
    FromBytesReadsFields(f, machineId, status, s0, s1);
  }

  // ---------------------------------------------------------------------
  // The codec, over a growing byte buffer

  /** The `BytesMut` buffer the framing layer hands to the codec. */
  class ByteBuffer {
    var bytes: seq<U8>

    constructor (init: seq<U8>)
      ensures bytes == init
    {
      bytes := init;
    }

    /** `split_to(at)`: removes and returns the first `at` bytes. */
    method SplitTo(at: nat) returns (front: seq<U8>)
      requires at <= |bytes|
      modifies this
      ensures front == old(bytes)[..at] && bytes == old(bytes)[at..]
      ensures front + bytes == old(bytes)
    {
      front := bytes[..at];
      bytes := bytes[at..];
    }

    /** `extend_from_slice(item)`: appends `item`. */
    method ExtendFromSlice(item: seq<U8>)
      modifies this
      ensures bytes == old(bytes) + item
    {
      bytes := bytes + item;
    }
  }

  class McProtocolCodec {
    constructor ()
    {
    }

    /** `Decoder::decode`: never fails; yields a response, or nothing while
        a frame is incomplete or when the frame is too short. */
    method Decode(src: ByteBuffer) returns (r: Result<Option<GaugeResponse>, string>)
      modifies src
      ensures r == Ok(DecodeStep(old(src.bytes)).item)
      ensures src.bytes == DecodeStep(old(src.bytes)).rest
    {
      if |src.bytes| < MinBuffered {
        return Ok(None);
      }
      var length := LeU16(src.bytes[LengthAt], src.bytes[LengthAt + 1]);
      if |src.bytes| < length + HeaderLen {
        return Ok(None);
      }
      var data := src.SplitTo(length + HeaderLen);
      r := Ok(FromBytes(data));
    }

    /** `Encoder::encode`: appends the command bytes unchanged; never fails. */
    method Encode(item: seq<U8>, dst: ByteBuffer) returns (r: Result<(), string>)
      modifies dst
      ensures r == Ok(())
      ensures dst.bytes == old(dst.bytes) + item
    {
      dst.ExtendFromSlice(item);
      r := Ok(());
    }
  }

  // ---------------------------------------------------------------------
  // The edge detector folded over the decoded responses

  /** What one step of the fold does: the response it publishes, the
      command it queues for the gauge, and the new remembered flag. */
  datatype EdgeOutput = EdgeOutput(published: Option<GaugeResponse>, command: Option<HexCommand>, lastPlcOn: bool)

  function EdgeStep(lastPlcOn: bool, response: GaugeResponse): (r: EdgeOutput)
    ensures r.lastPlcOn == response.plcDataOn
    ensures r.published.Some? <==> response.plcDataOn && !lastPlcOn
    ensures r.published.Some? ==> r.published.value == response
    ensures r.command.Some? <==> response.plcDataOn != lastPlcOn
    ensures r.command == Some(Write1) <==> r.published.Some?
    ensures r.command == Some(Write0) <==> !response.plcDataOn && lastPlcOn
  {
    if response.plcDataOn && !lastPlcOn then EdgeOutput(Some(response), Some(Write1), true)
    else if !response.plcDataOn && lastPlcOn then EdgeOutput(None, Some(Write0), false)
    else EdgeOutput(None, None, response.plcDataOn)
  }

  function OptionToSeq<T>(o: Option<T>): seq<T>
  {
    if o.Some? then [o.value] else []
  }

  datatype RouteTrace = RouteTrace(published: seq<GaugeResponse>, commands: seq<HexCommand>, lastPlcOn: bool)

  /** The fold from `last_plc_on = false` over a stream of responses. */
  function Route(rs: seq<GaugeResponse>): RouteTrace
  {
    if rs == [] then RouteTrace([], [], false)
    else
      var t := Route(rs[..|rs| - 1]);
      var e := EdgeStep(t.lastPlcOn, rs[|rs| - 1]);
      RouteTrace(t.published + OptionToSeq(e.published), t.commands + OptionToSeq(e.command), e.lastPlcOn)
  }

  /** The fold of `gauge_get_response`: publishes each response that starts a
      cycle and queues the gauge commands, in stream order. */
  method GaugeGetResponse(responses: seq<GaugeResponse>) returns (published: seq<GaugeResponse>, commands: seq<HexCommand>)
    ensures Route(responses) == RouteTrace(published, commands, Route(responses).lastPlcOn)
  {
    published, commands := [], [];
    var lastPlcOn := false;
    var i := 0;
    while i < |responses|
      invariant 0 <= i <= |responses|
      invariant Route(responses[..i]) == RouteTrace(published, commands, lastPlcOn)
    {
      var response := responses[i];
      assert responses[..i + 1][..i] == responses[..i];
      if response.plcDataOn && !lastPlcOn {
        published := published + [response];
        commands := commands + [Write1];
      } else if !response.plcDataOn && lastPlcOn {
        commands := commands + [Write0];
      }
      lastPlcOn := response.plcDataOn;
      i := i + 1;
    }
    assert responses[..i] == responses;
  }

  /** Response `i` starts a cycle: its flag is on and the previous one's
      (or the initial state's) is off. */
  predicate IsRisingAt(rs: seq<GaugeResponse>, i: nat)
    requires i < |rs|
  {
    rs[i].plcDataOn && (i == 0 || !rs[i - 1].plcDataOn)
  }

  /** The responses that start a cycle, in stream order, defined without the
      fold's state. */
  function RisingEdges(rs: seq<GaugeResponse>): seq<GaugeResponse>
  {
    if rs == [] then []
    else RisingEdges(rs[..|rs| - 1]) + (if IsRisingAt(rs, |rs| - 1) then [rs[|rs| - 1]] else [])
  }

  /** The remembered flag is always the last response's flag. */
  lemma {:induction false} RouteRemembersLastFlag(rs: seq<GaugeResponse>)
    ensures Route(rs).lastPlcOn == (rs != [] && rs[|rs| - 1].plcDataOn)
  {
  }

  /** Exactly the responses that start a cycle are published, once each. */
  lemma {:induction false} RoutePublishesRisingEdges(rs: seq<GaugeResponse>)
    ensures Route(rs).published == RisingEdges(rs)
  {
    if rs != [] {
      var init := rs[..|rs| - 1];
      RoutePublishesRisingEdges(init);
      RouteRemembersLastFlag(init);
      if |rs| > 1 {
        assert init[|init| - 1] == rs[|rs| - 2];
      }
    }
  }

  /** The queued commands alternate Write1, Write0, Write1, ...; an odd count
      means the flag is still on. */
  lemma {:induction false} RouteCommandsAlternate(rs: seq<GaugeResponse>)
    ensures var t := Route(rs);
      (forall j :: 0 <= j < |t.commands| ==> t.commands[j] == (if j % 2 == 0 then Write1 else Write0))
      && (|t.commands| % 2 == 1 <==> t.lastPlcOn)
  {
    if rs != [] {
      RouteCommandsAlternate(rs[..|rs| - 1]);
    }
  }
}
