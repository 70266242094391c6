/**
 The frame decoder (pkg/decode.go). A message is a sequence of frames
   head(4) size(4) timestamp(8) id(6) payload(size - 17) crc(2) end(1)
 with big-endian numbers; size counts everything from the timestamp on. The head marker and the payload
 parser belong to a library outside this repository and are parameters.
*/
module FrameDecoder {
  import opened BigEndian
  import opened Wrappers
  import opened Routing
  import opened Arithmetic

  // protocols.LengthWithoutData and protocols.DefaultHeadLength, as the offsets in the decoder require.
  const LENGTH_WITHOUT_DATA := 17
  const DEFAULT_HEAD_LENGTH := 9

  // The head marker, and which payloads DataGroup.Decode accepts.
  datatype Protocol = Protocol(head: seq<Byte>, accepts: seq<Byte> -> bool)

  predicate HasHead(p: Protocol) {
    |p.head| == 4
  }

  // A parsed frame; `crc` and `end` are the fields of the frame that is passed on to Kafka.
  datatype ParsedFrame = ParsedFrame(
    id: seq<Byte>,
    idUint64: nat,
    idString: string,
    filenameSuffix: string,
    timestampNanos: int,
    dataToStore: seq<Byte>,
    crc: nat,
    end: Byte)

  // A slice out of range panics and the whole message is lost.
  datatype Outcome = Items(items: seq<ParsedFrame>) | Panic

  function HexDigit(n: nat): char
    requires n < 16
  {
    "0123456789ABCDEF"[n]
  }

  // fmt's %X of a byte slice.
  function Hex(b: seq<Byte>): string {
    if b == [] then "" else [HexDigit(b[0] / 16), HexDigit(b[0] % 16)] + Hex(b[1..])
  }

  // time.Unix(0, ts*1e3): the product is an int64 and wraps.
  function Nanos(timestamp: seq<Byte>): int {
    Signed64(Signed64(Value(timestamp) % TWO64) * 1000 % TWO64)
  }

  function ParseFrame(id: seq<Byte>, timestamp: seq<Byte>, dataToStore: seq<Byte>, crc: nat, end: Byte): ParsedFrame
    requires |id| == 6
  {
    ParsedFrame(id, ByteToUInt64(id), Hex(id), Hex(id) + "_" + Hex(id), Nanos(timestamp), dataToStore, crc, end)
  }

  // One round of the decode loop: the loop ends, a slice is out of range, or one frame was read.
  datatype Round = Stop | Fault | Parsed(frame: ParsedFrame, next: nat)

  function ParseAt(p: Protocol, data: seq<Byte>, index: nat): (r: Round)
    requires HasHead(p) && index < |data|
    ensures r.Parsed? ==> index < r.next <= |data|
  {
    var l := |data|;
    if index + 4 > l then Fault
    else if data[index..index + 4] != p.head || index + 4 == l then Stop
    else if index + 8 > l then Fault
    else if index + 8 == l then Stop
    else if index + 16 > l then Fault
    else if index + 16 == l then Stop
    else if index + 22 > l then Fault
    else if index + 22 == l then Stop
    else ParseBody(p, data, index)
  }

  // The part of a round behind the fixed fields.
  function ParseBody(p: Protocol, data: seq<Byte>, index: nat): (r: Round)
    requires index + 22 < |data|
    ensures r.Parsed? ==> index < r.next <= |data|
  {
    var l := |data|;
    var hi := index + 22 + Value(data[index + 4..index + 8]) - LENGTH_WITHOUT_DATA;
    if hi > l || hi < index + 22 then Fault
    else if !p.accepts(data[index + 22..hi]) || hi == l then Stop
    else if hi + 2 > l then Fault
    else if hi + 2 == l then Stop
    else Parsed(ParseFrame(data[index + 16..index + 22], data[index + 8..index + 16],
                           data[index + 22 - DEFAULT_HEAD_LENGTH..hi], Value(data[hi..hi + 2]), data[l - 1]),
                hi + 3)
  }

  function Prepend(f: ParsedFrame, rest: Outcome): Outcome {
    if rest.Panic? then Panic else Items([f] + rest.items)
  }

  // What the loop yields from the given position on.
  function DecodeFrom(p: Protocol, data: seq<Byte>, index: nat): Outcome
    requires HasHead(p) && index <= |data|
    decreases |data| - index
  {
    if index == |data| then Items([]) else
    match ParseAt(p, data, index)
    case Stop => Items([])
    case Fault => Panic
    case Parsed(f, next) => Prepend(f, DecodeFrom(p, data, next))
  }

  function PrependAll(fs: seq<ParsedFrame>, rest: Outcome): Outcome {
    if rest.Panic? then Panic else Items(fs + rest.items)
  }

  // The body of the loop as written: a field is sliced out, the position moves on, the end is checked.
  method DecodeRound(p: Protocol, data: seq<Byte>, start: nat) returns (r: Round)
    requires HasHead(p) && start < |data|
    ensures r == ParseAt(p, data, start)
  {
    var l := |data|;
    var index := start;
    if index + 4 > l { return Fault; }
    if data[index..index + 4] != p.head { return Stop; }
    index := index + 4;
    if index >= l { return Stop; }
    if index + 4 > l { return Fault; }
    var size := Value(data[index..index + 4]);
    index := index + 4;
    if index >= l { return Stop; }
    if index + 8 > l { return Fault; }
    var timestamp := data[index..index + 8];
    index := index + 8;
    if index >= l { return Stop; }
    if index + 6 > l { return Fault; }
    var id := data[index..index + 6];
    index := index + 6;
    if index >= l { return Stop; }
    r := DecodeBody(p, data, start, index, size, timestamp, id);
  }

  // The part of the round behind the fixed fields.
  method DecodeBody(p: Protocol, data: seq<Byte>, start: nat, from: nat, size: nat, timestamp: seq<Byte>, id: seq<Byte>)
    returns (r: Round)
    requires from == start + 22 < |data|
    requires size == Value(data[start + 4..start + 8])
    requires timestamp == data[start + 8..start + 16] && id == data[start + 16..from]
    ensures r == ParseBody(p, data, start)
  {
    var l := |data|;
    var index := from;
    var hi := index + size - LENGTH_WITHOUT_DATA;
    if hi > l || hi < index - DEFAULT_HEAD_LENGTH { return Fault; }
    var dataToStore := data[index - DEFAULT_HEAD_LENGTH..hi];
    if l < hi {
      // "len(data) < index": the slice above has panicked by then.
      assert false;
    }
    if hi < index { return Fault; }
    if !p.accepts(data[index..hi]) { return Stop; }
    index := hi;
    if index >= l { return Stop; }
    if index + 2 > l { return Fault; }
    var crc := Value(data[index..index + 2]);
    index := index + 2;
    if index >= l { return Stop; }
    var end := data[l - 1];
    index := index + 1;
    r := Parsed(ParseFrame(id, timestamp, dataToStore, crc, end), index);
  }

  /** decode, on every input: it always ends, and collects what the rounds yield. */
  method Decode(p: Protocol, srcdata: seq<Byte>) returns (r: Outcome)
    requires HasHead(p)
    ensures r == DecodeFrom(p, srcdata, 0)
  {
    var items: seq<ParsedFrame> := [];
    var index := 0;
    while index < |srcdata|
      invariant 0 <= index <= |srcdata|
      invariant DecodeFrom(p, srcdata, 0) == PrependAll(items, DecodeFrom(p, srcdata, index))
    {
      var round := DecodeRound(p, srcdata, index);
      if round.Fault? { return Panic; }
      if round.Stop? { break; }
      PrependMore(items, round.frame, DecodeFrom(p, srcdata, round.next));
      items := items + [round.frame];
      index := round.next;
    }
    r := Items(items);
  }

  lemma PrependMore(fs: seq<ParsedFrame>, f: ParsedFrame, rest: Outcome)
    ensures PrependAll(fs, Prepend(f, rest)) == PrependAll(fs + [f], rest)
  {
  }

  // ---------- well-formed frames ----------

  datatype Frame = Frame(timestamp: seq<Byte>, id: seq<Byte>, payload: seq<Byte>, crc: seq<Byte>, end: Byte)

  predicate LaidOut(f: Frame) {
    && |f.timestamp| == 8 && |f.id| == 6 && |f.crc| == 2
    && LENGTH_WITHOUT_DATA + |f.payload| < Pow256(4)
  }

  predicate WellFormed(p: Protocol, f: Frame) {
    LaidOut(f) && p.accepts(f.payload)
  }

  function Encode(p: Protocol, f: Frame): seq<Byte> {
    p.head + Digits(LENGTH_WITHOUT_DATA + |f.payload|, 4) + f.timestamp + f.id + f.payload + f.crc + [f.end]
  }

  function EncodeAll(p: Protocol, fs: seq<Frame>): seq<Byte> {
    if fs == [] then [] else EncodeAll(p, fs[..|fs| - 1]) + Encode(p, fs[|fs| - 1])
  }

  // What decoding should report for a frame, given the byte that ends the whole message.
  function Report(f: Frame, last: Byte): ParsedFrame
    requires |f.timestamp| == 8 && |f.id| == 6
  {
    ParseFrame(f.id, f.timestamp, f.timestamp[5..] + f.id + f.payload, Value(f.crc), last)
  }

  predicate AllWellFormed(p: Protocol, fs: seq<Frame>) {
    forall i :: 0 <= i < |fs| ==> WellFormed(p, fs[i])
  }

  function Reports(p: Protocol, fs: seq<Frame>, last: Byte): seq<ParsedFrame>
    requires AllWellFormed(p, fs)
  {
    if fs == [] then [] else Reports(p, fs[..|fs| - 1], last) + [Report(fs[|fs| - 1], last)]
  }

  lemma {:induction false} ReportsLength(p: Protocol, fs: seq<Frame>, last: Byte)
    requires AllWellFormed(p, fs)
    ensures |Reports(p, fs, last)| == |fs|
  {
    if fs != [] {
      ReportsLength(p, fs[..|fs| - 1], last);
    }
  }

  lemma {:induction false} ReportsAt(p: Protocol, fs: seq<Frame>, last: Byte, i: nat)
    requires AllWellFormed(p, fs) && i < |fs|
    ensures i < |Reports(p, fs, last)| && Reports(p, fs, last)[i] == Report(fs[i], last)
  {
    ReportsLength(p, fs, last);
    ReportsLength(p, fs[..|fs| - 1], last);
    if i < |fs| - 1 {
      ReportsAt(p, fs[..|fs| - 1], last, i);
    }
  }

  // The fields of a frame stand at the given position.
  predicate Holds(p: Protocol, data: seq<Byte>, o: nat, f: Frame)
    requires LaidOut(f)
  {
    var n := |f.payload|;
    && |data| >= o + 25 + n
    && data[o..o + 4] == p.head
    && data[o + 4..o + 8] == Digits(LENGTH_WITHOUT_DATA + n, 4)
    && data[o + 8..o + 16] == f.timestamp
    && data[o + 16..o + 22] == f.id
    && data[o + 13..o + 22 + n] == f.timestamp[5..] + f.id + f.payload
    && data[o + 22..o + 22 + n] == f.payload
    && data[o + 22 + n..o + 24 + n] == f.crc
  }

  lemma FieldsAt(p: Protocol, f: Frame, before: seq<Byte>, after: seq<Byte>)
    requires HasHead(p) && LaidOut(f)
    ensures Holds(p, before + Encode(p, f) + after, |before|, f)
    ensures |Encode(p, f)| == 25 + |f.payload|
  {
  }

  lemma BodyOfSize(p: Protocol, data: seq<Byte>, o: nat, n: nat)
    requires |data| >= o + 25 + n && Value(data[o + 4..o + 8]) == LENGTH_WITHOUT_DATA + n
    requires p.accepts(data[o + 22..o + 22 + n])
    ensures var hi := o + 22 + n;
            ParseBody(p, data, o) == Parsed(ParseFrame(data[o + 16..o + 22], data[o + 8..o + 16], data[o + 13..hi],
                                                       Value(data[hi..hi + 2]), data[|data| - 1]), hi + 3)
  {
  }

  lemma SizeRead(b: seq<Byte>, n: nat)
    requires b == Digits(LENGTH_WITHOUT_DATA + n, 4) && LENGTH_WITHOUT_DATA + n < Pow256(4)
    ensures Value(b) == LENGTH_WITHOUT_DATA + n
  {
    ValueOfDigits(LENGTH_WITHOUT_DATA + n, 4);
  }

  lemma ReportIs(f: Frame, last: Byte)
    requires |f.timestamp| == 8 && |f.id| == 6
    ensures Report(f, last) == ParseFrame(f.id, f.timestamp, f.timestamp[5..] + f.id + f.payload, Value(f.crc), last)
  {
  }

  lemma ParseFields(p: Protocol, data: seq<Byte>, o: nat, f: Frame)
    requires WellFormed(p, f) && Holds(p, data, o, f)
    ensures ParseBody(p, data, o) == Parsed(Report(f, data[|data| - 1]), o + 25 + |f.payload|)
  {
    SizeRead(data[o + 4..o + 8], |f.payload|);
    BodyOfSize(p, data, o, |f.payload|);
    ReportIs(f, data[|data| - 1]);
  }

  lemma ParseOne(p: Protocol, f: Frame, before: seq<Byte>, after: seq<Byte>)
    requires HasHead(p) && WellFormed(p, f)
    ensures var data := before + Encode(p, f) + after;
            ParseAt(p, data, |before|) == Parsed(Report(f, LastByte(data)), |before| + |Encode(p, f)|)
  {
    FieldsAt(p, f, before, after);
    ParseFields(p, before + Encode(p, f) + after, |before|, f);
  }

  // The byte that ends a message of frames and a tail.
  function LastByte(data: seq<Byte>): Byte {
    if data == [] then 0 else data[|data| - 1]
  }

  lemma DecodeOne(p: Protocol, data: seq<Byte>, index: nat, f: ParsedFrame, next: nat)
    requires HasHead(p) && index < |data| && ParseAt(p, data, index) == Parsed(f, next)
    ensures DecodeFrom(p, data, index) == Prepend(f, DecodeFrom(p, data, next))
  {
  }

  lemma SplitLast(p: Protocol, fs: seq<Frame>, tail: seq<Byte>)
    requires fs != []
    ensures var before, f := EncodeAll(p, fs[..|fs| - 1]), fs[|fs| - 1];
            && EncodeAll(p, fs) + tail == before + (Encode(p, f) + tail)
            && EncodeAll(p, fs) + tail == before + Encode(p, f) + tail
            && |EncodeAll(p, fs)| == |before| + |Encode(p, f)|
  {
  }

  /** Frames in front of anything are read exactly, in order, even if a payload contains the head marker;
      decoding then goes on behind them. */
  lemma {:induction false} FramesFirst(p: Protocol, fs: seq<Frame>, tail: seq<Byte>)
    requires HasHead(p) && AllWellFormed(p, fs)
    ensures var data := EncodeAll(p, fs) + tail;
            DecodeFrom(p, data, 0)
            == PrependAll(Reports(p, fs, LastByte(data)), DecodeFrom(p, data, |EncodeAll(p, fs)|))
  {
    if fs != [] {
      var front, f := fs[..|fs| - 1], fs[|fs| - 1];
      SplitLast(p, fs, tail);
      FramesFirst(p, front, Encode(p, f) + tail);
      ParseOne(p, f, EncodeAll(p, front), tail);
      NextFrame(p, EncodeAll(p, fs) + tail, Reports(p, front, LastByte(EncodeAll(p, fs) + tail)),
                |EncodeAll(p, front)|, Report(f, LastByte(EncodeAll(p, fs) + tail)), |EncodeAll(p, fs)|);
    }
  }

  lemma NextFrame(p: Protocol, data: seq<Byte>, fs: seq<ParsedFrame>, index: nat, f: ParsedFrame, next: nat)
    requires HasHead(p) && index < |data| && ParseAt(p, data, index) == Parsed(f, next)
    requires DecodeFrom(p, data, 0) == PrependAll(fs, DecodeFrom(p, data, index))
    ensures DecodeFrom(p, data, 0) == PrependAll(fs + [f], DecodeFrom(p, data, next))
  {
    DecodeOne(p, data, index, f, next);
    PrependMore(fs, f, DecodeFrom(p, data, next));
  }

  // A tail that is no beginning of another frame.
  predicate NoHead(p: Protocol, tail: seq<Byte>) {
    |tail| < 4 || tail[..4] != p.head
  }

  /** The concatenation of well-formed frames, followed by a tail that does not start with the head marker,
      decodes to exactly those frames if and only if the tail is empty or at least four bytes long; otherwise
      the decoder panics and every frame of the message is lost. */
  lemma DecodeFrames(p: Protocol, fs: seq<Frame>, tail: seq<Byte>)
    requires HasHead(p) && AllWellFormed(p, fs) && NoHead(p, tail)
    ensures var data := EncodeAll(p, fs) + tail;
            DecodeFrom(p, data, 0)
            == if tail == [] || |tail| >= 4 then Items(Reports(p, fs, LastByte(data))) else Panic
  {
    FramesFirst(p, fs, tail);
    NoFrameBehind(p, EncodeAll(p, fs), tail);
  }

  lemma NoFrameBehind(p: Protocol, before: seq<Byte>, tail: seq<Byte>)
    requires HasHead(p) && NoHead(p, tail)
    ensures DecodeFrom(p, before + tail, |before|) == if tail == [] || |tail| >= 4 then Items([]) else Panic
  {
    if tail != [] {
      NoHeadRound(p, before, tail);
    }
  }

  lemma NoHeadRound(p: Protocol, before: seq<Byte>, tail: seq<Byte>)
    requires HasHead(p) && NoHead(p, tail) && tail != []
    ensures ParseAt(p, before + tail, |before|) == if |tail| >= 4 then Stop else Fault
  {
    if |tail| >= 4 {
      assert (before + tail)[|before|..|before| + 4] == tail[..4];
    }
  }

  // Where a frame with n bytes of payload may be cut without a panic: in front of it and at the end of a field.
  predicate CleanCut(k: nat, n: nat) {
    k == 0 || k == 4 || k == 8 || k == 16 || k == 22 || k == 22 + n || k == 24 + n
  }

  /** A truncated last frame: the frames in front of it are decoded exactly if the cut is between two fields, and
      all are lost otherwise. */
  lemma DecodeTruncated(p: Protocol, fs: seq<Frame>, g: Frame, k: nat)
    requires HasHead(p) && AllWellFormed(p, fs) && WellFormed(p, g) && k < |Encode(p, g)|
    ensures var data := EncodeAll(p, fs) + Encode(p, g)[..k];
            DecodeFrom(p, data, 0)
            == if CleanCut(k, |g.payload|) then Items(Reports(p, fs, LastByte(data))) else Panic
  {
    FramesFirst(p, fs, Encode(p, g)[..k]);
    PartBehind(p, EncodeAll(p, fs), g, k);
  }

  lemma PartBehind(p: Protocol, before: seq<Byte>, g: Frame, k: nat)
    requires HasHead(p) && WellFormed(p, g) && k < |Encode(p, g)|
    ensures DecodeFrom(p, before + Encode(p, g)[..k], |before|) == if CleanCut(k, |g.payload|) then Items([]) else Panic
  {
    PartFields(p, before, g, k);
    if k > 0 {
      PartRound(p, before + Encode(p, g)[..k], |before|, g, k);
    }
  }

  // The fields that a cut frame still has.
  predicate HoldsPart(p: Protocol, data: seq<Byte>, o: nat, g: Frame, k: nat)
    requires WellFormed(p, g)
  {
    && |data| == o + k
    && (k >= 4 ==> data[o..o + 4] == p.head)
    && (k >= 8 ==> data[o + 4..o + 8] == Digits(LENGTH_WITHOUT_DATA + |g.payload|, 4))
    && (k >= 22 + |g.payload| ==> data[o + 22..o + 22 + |g.payload|] == g.payload)
  }

  lemma PartFields(p: Protocol, before: seq<Byte>, g: Frame, k: nat)
    requires HasHead(p) && WellFormed(p, g) && k < |Encode(p, g)|
    ensures HoldsPart(p, before + Encode(p, g)[..k], |before|, g, k) && |Encode(p, g)| == 25 + |g.payload|
  {
    FieldsAt(p, g, before, []);
    var whole, data := before + Encode(p, g) + [], before + Encode(p, g)[..k];
    assert forall i :: 0 <= i < |data| ==> data[i] == whole[i];
    assert k >= 4 ==> data[|before|..|before| + 4] == whole[|before|..|before| + 4];
    assert k >= 8 ==> data[|before| + 4..|before| + 8] == whole[|before| + 4..|before| + 8];
    var hi := |before| + 22 + |g.payload|;
    assert k >= 22 + |g.payload| ==> data[|before| + 22..hi] == whole[|before| + 22..hi];
  }

  lemma PartRound(p: Protocol, data: seq<Byte>, o: nat, g: Frame, k: nat)
    requires HasHead(p) && WellFormed(p, g) && HoldsPart(p, data, o, g, k) && 0 < k < 25 + |g.payload|
    ensures ParseAt(p, data, o) == if CleanCut(k, |g.payload|) then Stop else Fault
  {
    if k > 22 {
      PartBody(p, data, o, g, k);
    }
  }

  lemma PartBody(p: Protocol, data: seq<Byte>, o: nat, g: Frame, k: nat)
    requires WellFormed(p, g) && HoldsPart(p, data, o, g, k) && 22 < k < 25 + |g.payload|
    ensures ParseBody(p, data, o) == if CleanCut(k, |g.payload|) then Stop else Fault
  {
    SizeRead(data[o + 4..o + 8], |g.payload|);
  }

  // A byte string cut at the positions of a frame's fields.
  lemma Cuts(data: seq<Byte>, o: nat, hi: nat)
    requires o + 22 <= hi && hi + 3 <= |data|
    ensures data[o..] == data[o..o + 4] + data[o + 4..o + 8] + data[o + 8..o + 16] + data[o + 16..o + 22]
                         + data[o + 22..hi] + data[hi..hi + 2] + [data[hi + 2]] + data[hi + 3..]
  {
    Cut(data, o, o + 4, o + 8);
    Cut(data, o, o + 8, o + 16);
    Cut(data, o, o + 16, o + 22);
    Cut(data, o, o + 22, hi);
    Cut(data, o, hi, hi + 2);
    Cut(data, o, hi + 2, hi + 3);
    Cut(data, o, hi + 3, |data|);
    assert data[hi + 2..hi + 3] == [data[hi + 2]];
  }

  // The nine bytes in front of the payload are the end of the timestamp and the id.
  lemma StoreCut(data: seq<Byte>, o: nat, hi: nat)
    requires o + 22 <= hi <= |data|
    ensures data[o + 13..hi] == data[o + 8..o + 16][5..] + data[o + 16..o + 22] + data[o + 22..hi]
  {
    Cut(data, o + 13, o + 16, o + 22);
    Cut(data, o + 13, o + 22, hi);
  }

  lemma Cut(data: seq<Byte>, a: nat, b: nat, c: nat)
    requires a <= b <= c <= |data|
    ensures data[a..c] == data[a..b] + data[b..c]
  {
  }

  // The frame a round has read at a position.
  function FrameAt(data: seq<Byte>, o: nat, hi: nat): Frame
    requires o + 22 <= hi && hi + 3 <= |data|
  {
    Frame(data[o + 8..o + 16], data[o + 16..o + 22], data[o + 22..hi], data[hi..hi + 2], data[hi + 2])
  }

  lemma Assemble(p: Protocol, data: seq<Byte>, o: nat, hi: nat)
    requires o + 22 <= hi && hi + 3 <= |data|
    requires data[o..o + 4] == p.head && data[o + 4..o + 8] == Digits(LENGTH_WITHOUT_DATA + (hi - o - 22), 4)
    ensures data[o..] == Encode(p, FrameAt(data, o, hi)) + data[hi + 3..]
  {
    Cuts(data, o, hi);
  }

  lemma ParsedLayout(p: Protocol, data: seq<Byte>, o: nat, hi: nat)
    requires HasHead(p) && o < |data| && ParseAt(p, data, o).Parsed? && hi == ParseAt(p, data, o).next - 3
    ensures o + 22 <= hi && hi + 3 <= |data|
    ensures data[o..o + 4] == p.head && p.accepts(data[o + 22..hi])
    ensures Value(data[o + 4..o + 8]) == LENGTH_WITHOUT_DATA + (hi - o - 22)
  {
  }

  lemma FrameOfParse(p: Protocol, data: seq<Byte>, o: nat, hi: nat)
    requires o + 22 < |data| && ParseBody(p, data, o).Parsed? && hi == ParseBody(p, data, o).next - 3
    requires o + 22 <= hi && hi + 3 <= |data|
    ensures ParseBody(p, data, o).frame
            == ParseFrame(data[o + 16..o + 22], data[o + 8..o + 16], data[o + 13..hi], Value(data[hi..hi + 2]),
                          data[|data| - 1])
  {
  }

  lemma ReportOf(data: seq<Byte>, o: nat, hi: nat, last: Byte)
    requires o + 22 <= hi && hi + 3 <= |data|
    ensures Report(FrameAt(data, o, hi), last)
            == ParseFrame(data[o + 16..o + 22], data[o + 8..o + 16], data[o + 13..hi], Value(data[hi..hi + 2]), last)
  {
    StoreCut(data, o, hi);
  }

  /** Nothing is made up: on any input, a round only reports a well-formed frame that stands at its
      position in full, and goes on right behind it. */
  lemma NothingInvented(p: Protocol, data: seq<Byte>, index: nat) returns (f: Frame)
    requires HasHead(p) && index < |data| && ParseAt(p, data, index).Parsed?
    ensures var next := ParseAt(p, data, index).next;
            && index < next && WellFormed(p, f) && data[index..] == Encode(p, f) + data[next..]
            && ParseAt(p, data, index) == Parsed(Report(f, LastByte(data)), next)
  {
    var hi := ParseAt(p, data, index).next - 3;
    ParsedLayout(p, data, index, hi);
    FrameOfParse(p, data, index, hi);
    ReportOf(data, index, hi, data[|data| - 1]);
    SizeField(data[index + 4..index + 8], hi - index - 22);
    Assemble(p, data, index, hi);
    f := FrameAt(data, index, hi);
  }

  // The message starts with these frames.
  predicate StartsWith(p: Protocol, data: seq<Byte>, fs: seq<Frame>) {
    AllWellFormed(p, fs) && EncodeAll(p, fs) <= data
  }

  // What decoding yields once it has read these frames.
  function Behind(p: Protocol, data: seq<Byte>, fs: seq<Frame>): Outcome
    requires HasHead(p) && StartsWith(p, data, fs)
  {
    PrependAll(Reports(p, fs, LastByte(data)), DecodeFrom(p, data, |EncodeAll(p, fs)|))
  }

  lemma OneMoreFrame(p: Protocol, data: seq<Byte>, front: seq<Frame>, f: Frame, next: nat)
    requires AllWellFormed(p, front) && WellFormed(p, f) && |EncodeAll(p, front)| <= next <= |data|
    requires data[..|EncodeAll(p, front)|] == EncodeAll(p, front)
    requires data[|EncodeAll(p, front)|..] == Encode(p, f) + data[next..]
    ensures AllWellFormed(p, front + [f]) && |EncodeAll(p, front + [f])| == next
    ensures data[..next] == EncodeAll(p, front + [f])
    ensures Reports(p, front + [f], LastByte(data)) == Reports(p, front, LastByte(data)) + [Report(f, LastByte(data))]
  {
    var all := front + [f];
    assert all[..|all| - 1] == front;
    assert data == EncodeAll(p, front) + (Encode(p, f) + data[next..]);
    assert EncodeAll(p, all) == EncodeAll(p, front) + Encode(p, f);
    assert |data| == |EncodeAll(p, all)| + (|data| - next);
  }

  lemma ReadOne(p: Protocol, data: seq<Byte>, front: seq<Frame>, f: Frame, next: nat)
    requires HasHead(p) && StartsWith(p, data, front) && StartsWith(p, data, front + [f])
    requires |EncodeAll(p, front)| < |data| && |EncodeAll(p, front + [f])| == next
    requires ParseAt(p, data, |EncodeAll(p, front)|) == Parsed(Report(f, LastByte(data)), next)
    requires Reports(p, front + [f], LastByte(data)) == Reports(p, front, LastByte(data)) + [Report(f, LastByte(data))]
    ensures Behind(p, data, front + [f]) == Behind(p, data, front)
  {
    DecodeOne(p, data, |EncodeAll(p, front)|, Report(f, LastByte(data)), next);
    PrependMore(Reports(p, front, LastByte(data)), Report(f, LastByte(data)), DecodeFrom(p, data, next));
  }

  // The next frame, when a round has read one.
  lemma NextRead(p: Protocol, data: seq<Byte>, front: seq<Frame>) returns (f: Frame)
    requires HasHead(p) && StartsWith(p, data, front) && |EncodeAll(p, front)| < |data|
    requires ParseAt(p, data, |EncodeAll(p, front)|).Parsed?
    ensures StartsWith(p, data, front + [f]) && |EncodeAll(p, front + [f])| > |EncodeAll(p, front)|
    ensures Behind(p, data, front + [f]) == Behind(p, data, front)
  {
    var next := ParseAt(p, data, |EncodeAll(p, front)|).next;
    f := NothingInvented(p, data, |EncodeAll(p, front)|);
    OneMoreFrame(p, data, front, f, next);
    ReadOne(p, data, front, f, next);
  }

  lemma {:induction false} OnlyFrames(p: Protocol, data: seq<Byte>, front: seq<Frame>) returns (fs: seq<Frame>)
    requires HasHead(p) && StartsWith(p, data, front)
    ensures StartsWith(p, data, fs)
    ensures Behind(p, data, front).Panic? || Behind(p, data, front) == Items(Reports(p, fs, LastByte(data)))
    decreases |data| - |EncodeAll(p, front)|
  {
    fs := front;
    if |EncodeAll(p, front)| < |data| && ParseAt(p, data, |EncodeAll(p, front)|).Parsed? {
      var f := NextRead(p, data, front);
      fs := OnlyFrames(p, data, front + [f]);
    }
  }

  /** On any input, decoding panics or reports exactly some well-formed frames that the message starts with. */
  lemma DecodesOnlyFrames(p: Protocol, data: seq<Byte>)
    requires HasHead(p)
    ensures DecodeFrom(p, data, 0).Panic?
            || exists fs :: StartsWith(p, data, fs) && DecodeFrom(p, data, 0) == Items(Reports(p, fs, LastByte(data)))
  {
    var fs := OnlyFrames(p, data, []);
    assert StartsWith(p, data, fs);
  }

  lemma SizeField(b: seq<Byte>, n: int)
    requires |b| == 4 && Value(b) == LENGTH_WITHOUT_DATA + n
    ensures LENGTH_WITHOUT_DATA + n < Pow256(4) && Digits(LENGTH_WITHOUT_DATA + n, 4) == b
  {
    ValueBound(b);
    DigitsOfValue(b);
  }

  /** Every decoded frame is reported with the last byte of the message as its end byte. So all frames get their
      own end bytes back exactly when all of them end in that byte; without a tail, when all end in the same byte. */
  lemma OwnEndByte(p: Protocol, fs: seq<Frame>, tail: seq<Byte>)
    requires HasHead(p) && AllWellFormed(p, fs) && NoHead(p, tail) && (tail == [] || |tail| >= 4)
    ensures var data := EncodeAll(p, fs) + tail;
            var r := DecodeFrom(p, data, 0);
            && r.Items? && |r.items| == |fs|
            && ((forall i :: 0 <= i < |fs| ==> r.items[i].end == fs[i].end)
                <==> (forall i :: 0 <= i < |fs| ==> fs[i].end == LastByte(data)))
            && (tail == [] ==>
                  ((forall i :: 0 <= i < |fs| ==> r.items[i].end == fs[i].end)
                   <==> (forall i, j :: 0 <= i < j < |fs| ==> fs[i].end == fs[j].end)))
  {
    var last := LastByte(EncodeAll(p, fs) + tail);
    DecodeFrames(p, fs, tail);
    ReportsLength(p, fs, last);
    forall i | 0 <= i < |fs|
      ensures Reports(p, fs, last)[i].end == last
    {
      ReportsAt(p, fs, last, i);
    }
    if tail == [] && fs != [] {
      SplitLast(p, fs, tail);
      assert fs[|fs| - 1].end == last;
    }
  }

  /** Two frames with different end bytes: the first is reported with the end byte of the second. */
  lemma EndByteOfAnotherFrame(p: Protocol, f: Frame, g: Frame)
    requires HasHead(p) && WellFormed(p, f) && WellFormed(p, g) && f.end != g.end
    ensures var r := DecodeFrom(p, EncodeAll(p, [f, g]), 0);
            r.Items? && |r.items| == 2 && r.items[0].end == g.end != f.end
  {
    var fs := [f, g];
    assert AllWellFormed(p, fs);
    DecodeFrames(p, fs, []);
    assert EncodeAll(p, fs) + [] == EncodeAll(p, fs);
    ReportsLength(p, fs, g.end);
    ReportsAt(p, fs, g.end, 0);
  }

  /** The timestamp in nanoseconds is exact exactly when it fits an int64. */
  lemma NanosExact(timestamp: seq<Byte>)
    requires |timestamp| == 8
    ensures var micros := Signed64(Value(timestamp));
            Nanos(timestamp) == micros * 1000 <==> -TWO63 <= micros * 1000 < TWO63
  {
    FitsInt64(timestamp);
  }

  lemma FitsInt64(b: seq<Byte>)
    requires |b| == 8
    ensures Value(b) < TWO64
  {
    ValueBound(b);
    assert Pow256(8) == TWO64;
  }

  // ---------- the fields of a decoded frame ----------

  // Reading upper-case hexadecimal.
  function HexValue(c: char): Option<nat> {
    if '0' <= c <= '9' then Some((c - '0') as nat)
    else if 'A' <= c <= 'F' then Some((c - 'A') as nat + 10)
    else None
  }

  function ReadHex(s: string): Option<seq<nat>> {
    if s == "" then Some([])
    else if |s| == 1 then None
    else
      var hi, lo, rest := HexValue(s[0]), HexValue(s[1]), ReadHex(s[2..]);
      if hi.None? || lo.None? || rest.None? then None else Some([16 * hi.value + lo.value] + rest.value)
  }

  /** The hexadecimal text of bytes reads back as the bytes. */
  lemma {:induction false} HexReadsBack(b: seq<Byte>)
    ensures |Hex(b)| == 2 * |b| && ReadHex(Hex(b)) == Some(b)
  {
    if b != [] {
      var hi, lo: nat := b[0] / 16, b[0] % 16;
      HexReadsBack(b[1..]);
      HexDigitReadsBack(hi);
      HexDigitReadsBack(lo);
      assert Hex(b)[2..] == Hex(b[1..]);
      assert 16 * hi + lo == b[0] && [b[0]] + b[1..] == b;
    }
  }

  lemma HexDigitReadsBack(n: nat)
    requires n < 16
    ensures HexValue(HexDigit(n)) == Some(n)
  {
  }

  // The fields that a decoded frame must have, read off the frame that was sent.
  predicate CarriesFieldsOf(r: ParsedFrame, f: Frame)
    requires |f.timestamp| == 8
  {
    var t := Value(f.timestamp);
    && r.id == f.id && r.idUint64 == Value(f.id) && r.crc == Value(f.crc)
    && ReadHex(r.idString) == Some(f.id) && r.filenameSuffix == r.idString + "_" + r.idString
    && r.dataToStore == f.timestamp[5..] + f.id + f.payload
    && (t * 1000 < 0x8000_0000_0000_0000 ==> r.timestampNanos == t * 1000)
    && (-0x8000_0000_0000_0000 <= (t - 0x1_0000_0000_0000_0000) * 1000 ==>
          r.timestampNanos == (t - 0x1_0000_0000_0000_0000) * 1000)
  }

  lemma ReportedFields(f: Frame, last: Byte)
    requires |f.timestamp| == 8 && |f.id| == 6
    ensures CarriesFieldsOf(Report(f, last), f)
  {
    ReportIs(f, last);
    IdIsBigEndian(f.id);
    HexReadsBack(f.id);
    NanosOfTime(f.timestamp);
  }

  lemma NanosOfTime(timestamp: seq<Byte>)
    requires |timestamp| == 8
    ensures var t := Value(timestamp);
            && (t * 1000 < 0x8000_0000_0000_0000 ==> Nanos(timestamp) == t * 1000)
            && (-0x8000_0000_0000_0000 <= (t - 0x1_0000_0000_0000_0000) * 1000 ==>
                  Nanos(timestamp) == (t - 0x1_0000_0000_0000_0000) * 1000)
  {
    FitsInt64(timestamp);
  }

  /** Every decoded frame carries the id, in bytes, as a number and in upper-case hexadecimal, the payload behind the
      end of its head, the checksum and, where it fits an int64, the time of the frame that was sent. */
  lemma DecodedFields(p: Protocol, fs: seq<Frame>, tail: seq<Byte>, i: nat)
    requires HasHead(p) && AllWellFormed(p, fs) && NoHead(p, tail) && (tail == [] || |tail| >= 4) && i < |fs|
    ensures var r := DecodeFrom(p, EncodeAll(p, fs) + tail, 0);
            r.Items? && |r.items| == |fs| && CarriesFieldsOf(r.items[i], fs[i])
  {
    var last := LastByte(EncodeAll(p, fs) + tail);
    DecodeFrames(p, fs, tail);
    ReportsLength(p, fs, last);
    ReportsAt(p, fs, last, i);
    ReportedFields(fs[i], last);
  }

  /** A frame's size field counts the bytes behind it. */
  lemma SizeCountsTheRest(p: Protocol, f: Frame)
    requires HasHead(p) && WellFormed(p, f)
    ensures |Encode(p, f)| >= 8 && Value(Encode(p, f)[4..8]) == |Encode(p, f)| - 8
  {
    FieldsAt(p, f, [], []);
    assert [] + Encode(p, f) + [] == Encode(p, f);
    SizeRead(Encode(p, f)[4..8], |f.payload|);
  }

  // ---------- rejected payloads ----------

  /** A frame whose payload the parser rejects ends the decoding: the frames in front of it are kept, whatever comes
      behind it. */
  lemma RejectedPayloadStops(p: Protocol, fs: seq<Frame>, g: Frame, tail: seq<Byte>)
    requires HasHead(p) && AllWellFormed(p, fs) && LaidOut(g) && !p.accepts(g.payload)
    ensures var data := EncodeAll(p, fs) + (Encode(p, g) + tail);
            DecodeFrom(p, data, 0) == Items(Reports(p, fs, LastByte(data)))
  {
    FramesFirst(p, fs, Encode(p, g) + tail);
    Regrouped(EncodeAll(p, fs), Encode(p, g), tail);
    RejectedBehind(p, EncodeAll(p, fs) + (Encode(p, g) + tail), EncodeAll(p, fs), g, tail);
  }

  lemma Regrouped(a: seq<Byte>, b: seq<Byte>, c: seq<Byte>)
    ensures a + (b + c) == a + b + c
  {
  }

  lemma RejectedBehind(p: Protocol, data: seq<Byte>, before: seq<Byte>, g: Frame, tail: seq<Byte>)
    requires HasHead(p) && LaidOut(g) && !p.accepts(g.payload) && data == before + Encode(p, g) + tail
    ensures |before| < |data| && DecodeFrom(p, data, |before|) == Items([])
  {
    FieldsAt(p, g, before, tail);
    RejectedAt(p, data, |before|, g);
  }

  lemma RejectedAt(p: Protocol, data: seq<Byte>, o: nat, g: Frame)
    requires HasHead(p) && LaidOut(g) && Holds(p, data, o, g) && !p.accepts(g.payload)
    ensures o < |data| && DecodeFrom(p, data, o) == Items([])
  {
    RejectedRound(p, data, o, g);
  }

  lemma RejectedRound(p: Protocol, data: seq<Byte>, o: nat, g: Frame)
    requires HasHead(p) && LaidOut(g) && Holds(p, data, o, g) && !p.accepts(g.payload)
    ensures ParseAt(p, data, o) == Stop
  {
    SizeRead(data[o + 4..o + 8], |g.payload|);
    RejectedBody(p, data, o, |g.payload|);
  }

  lemma RejectedBody(p: Protocol, data: seq<Byte>, o: nat, n: nat)
    requires |data| >= o + 25 + n && Value(data[o + 4..o + 8]) == LENGTH_WITHOUT_DATA + n
    requires !p.accepts(data[o + 22..o + 22 + n])
    ensures ParseBody(p, data, o) == Stop
  {
  }

  // ---------- what the handler gets ----------

  // The buffer handed to the second DataGroup.Decode (pkg/handles.go lines 293 to 294): it has the length
  // of dataToStore and receives dataToStore[9:]. A shorter dataToStore would panic.
  function StoreBuffer(dataToStore: seq<Byte>): seq<Byte>
    requires |dataToStore| >= DEFAULT_HEAD_LENGTH
  {
    dataToStore[DEFAULT_HEAD_LENGTH..] + seq(DEFAULT_HEAD_LENGTH, _ => 0)
  }

  /** The second decode sees the payload followed by nine zero bytes. */
  lemma StoreBufferIsPayload(p: Protocol, f: Frame, last: Byte)
    requires WellFormed(p, f)
    ensures StoreBuffer(Report(f, last).dataToStore) == f.payload + [0, 0, 0, 0, 0, 0, 0, 0, 0]
  {
    assert (f.timestamp[5..] + f.id + f.payload)[DEFAULT_HEAD_LENGTH..] == f.payload;
  }
}
