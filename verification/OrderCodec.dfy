/** The 64-byte order frame: the Python and the C++ side of it. */
module OrderCodec {
  import opened Bytes
  import opened Domain

  /** A binary64 value as its 64 bits (section 3.4 of IEEE 754-2019). */
  type Bits = x: nat | x < 0x1_0000_0000_0000_0000

  const NEGATIVE_ZERO: Bits := 0x8000_0000_0000_0000

  datatype Result<T> = Ok(value: T) | Err(error: string)

  /**
   An order as Python holds it: unbounded integers, text symbols, optional prices, and
   six fields the frame has no room for. Ids are 16 bytes (section 4 of RFC 9562).
   */
  datatype PyOrder = PyOrder(id: seq<Byte>, price: Option<Bits>, quantity: int, filled: int, created: int, processed: int,
                             symbol: seq<int>, side: Side, kind: OrderType, tif: Tif, status: Status,
                             strategy: Option<string>, tag: Option<string>, average: Option<Bits>, received: int, queued: int, acked: int)

  /** An order as C++ holds it: fixed-width fields, raw enumeration bytes. */
  datatype NativeOrder = NativeOrder(id: seq<Byte>, price: Bits, quantity: nat, filled: nat, created: nat, processed: nat,
                                     symbol: seq<Byte>, side: Byte, kind: Byte, tif: Byte, status: Byte)

  predicate Fits(o: NativeOrder) {
    && |o.id| == 16 && |o.symbol| == 6 && o.quantity < Pow(4) && o.filled < Pow(4) && o.created < Pow(8) && o.processed < Pow(8) && o.price < Pow(8)
  }

  /** The layout both sides implement. */
  function Frame(o: NativeOrder): (frame: seq<Byte>)
    requires |o.id| == 16 && |o.symbol| == 6
    ensures |frame| == 64
  {
    o.id + Big(8, o.price) + Big(4, o.quantity) + Big(4, o.filled) + Big(8, o.created) + Big(8, o.processed)
    + o.symbol + [o.side, o.kind, o.tif, o.status] + Zeros(6)
  }

  function Unframe(frame: seq<Byte>): (o: NativeOrder)
    requires |frame| == 64
    ensures Fits(o)
  {
    NumBound(frame[16..24]);
    NumBound(frame[24..28]);
    NumBound(frame[28..32]);
    NumBound(frame[32..40]);
    NumBound(frame[40..48]);
    Pow8();
    NativeOrder(frame[..16], Num(frame[16..24]), Num(frame[24..28]), Num(frame[28..32]), Num(frame[32..40]), Num(frame[40..48]),
                frame[48..54], frame[54], frame[55], frame[56], frame[57])
  }

  lemma {:induction false} Pow8()
    ensures Pow(2) == 0x1_0000 && Pow(4) == 0x1_0000_0000 && Pow(8) == 0x1_0000_0000_0000_0000
  {
    assert Pow(1) == 256;
    assert Pow(3) == 0x100_0000;
    assert Pow(5) == 0x100_0000_0000;
    assert Pow(6) == 0x1_0000_0000_0000;
    assert Pow(7) == 0x100_0000_0000_0000;
  }

  /** A frame's fields are where the layout puts them. */
  lemma {:induction false} FrameFields(o: NativeOrder)
    requires |o.id| == 16 && |o.symbol| == 6
    ensures var f := Frame(o);
            && f[..16] == o.id && f[16..24] == Big(8, o.price) && f[24..28] == Big(4, o.quantity) && f[28..32] == Big(4, o.filled)
            && f[32..40] == Big(8, o.created) && f[40..48] == Big(8, o.processed) && f[48..54] == o.symbol
            && f[54] == o.side && f[55] == o.kind && f[56] == o.tif && f[57] == o.status && f[58..] == Zeros(6)
  {
    hide Big, Zeros;
  }

  lemma {:induction false} UnframeFrame(o: NativeOrder)
    requires Fits(o)
    ensures Unframe(Frame(o)) == o
  {
    FrameFields(o);
    NumBig(8, o.price);
    NumBig(4, o.quantity);
    NumBig(4, o.filled);
    NumBig(8, o.created);
    NumBig(8, o.processed);
    hide Frame, Big, Num, Pow;
  }

  /** Decoding and encoding reproduce a frame exactly when its reserved bytes are zero. */
  lemma {:induction false} FrameUnframeIff(frame: seq<Byte>)
    requires |frame| == 64
    ensures Frame(Unframe(frame)) == frame <==> frame[58..] == Zeros(6)
  {
    var o := Unframe(frame);
    BigNum(frame[16..24]);
    BigNum(frame[24..28]);
    BigNum(frame[28..32]);
    BigNum(frame[32..40]);
    BigNum(frame[40..48]);
    FrameFields(o);
    var f := Frame(o);
    hide Frame, Big, Num, Zeros;
    Pieces(frame);
    Pieces(f);
  }

  lemma {:induction false} Pieces(f: seq<Byte>)
    requires |f| == 64
    ensures f == f[..16] + f[16..24] + f[24..28] + f[28..32] + f[32..40] + f[40..48] + f[48..54] + [f[54], f[55], f[56], f[57]] + f[58..]
  {
  }

  // ---------- the Python side ----------

  /** Text to six bytes: ASCII only, cut at six, padded with NULs. */
  function EncodeSymbol(symbol: seq<int>): (r: Result<seq<Byte>>)
    ensures r.Ok? ==> |r.value| == 6
    ensures r.Ok? <==> forall i :: 0 <= i < |symbol| ==> 0 <= symbol[i] < 128
  {
    if exists i :: 0 <= i < |symbol| && !(0 <= symbol[i] < 128) then Err("not ASCII")
    else
      var cut := if |symbol| <= 6 then symbol else symbol[..6];
      assert forall i :: 0 <= i < |cut| ==> cut[i] == symbol[i];
      Ok(AsBytes(cut) + Zeros(6 - |cut|))
  }

  function AsBytes(text: seq<int>): (bs: seq<Byte>)
    requires forall i :: 0 <= i < |text| ==> 0 <= text[i] < 256
    ensures |bs| == |text| && forall i :: 0 <= i < |text| ==> bs[i] == text[i]
  {
    if text == [] then [] else [text[0]] + AsBytes(text[1..])
  }

  function Strip(raw: seq<Byte>): (bs: seq<Byte>)
    ensures bs <= raw && (bs == [] || bs[|bs| - 1] != 0) && forall i :: |bs| <= i < |raw| ==> raw[i] == 0
  {
    if raw == [] || raw[|raw| - 1] != 0 then raw else Strip(raw[..|raw| - 1])
  }

  function AsText(bs: seq<Byte>): (text: seq<int>)
    ensures |text| == |bs| && forall i :: 0 <= i < |bs| ==> text[i] == bs[i]
  {
    if bs == [] then [] else [bs[0]] + AsText(bs[1..])
  }

  /** Six bytes to text: trailing NULs dropped, the rest ASCII. */
  function DecodeSymbol(raw: seq<Byte>): Result<seq<int>> {
    var bs := Strip(raw);
    if exists i :: 0 <= i < |bs| && bs[i] >= 128 then Err("not ASCII") else Ok(AsText(bs))
  }

  function SideByte(side: Side): Byte { if side.Buy? then 0 else 1 }

  function KindByte(kind: OrderType): Byte { if kind.Limit? then 0 else 1 }

  function TifByte(tif: Tif): Byte { match tif case GTC => 0 case IOC => 1 case FOK => 2 case GTD => 3 }

  function StatusByte(status: Status): Byte {
    match status
    case Pending => 0
    case Open => 1
    case PartiallyFilled => 2
    case Filled => 3
    case Cancelled => 4
    case Rejected => 5
  }

  function ByteSide(b: Byte): Option<Side> { if b == 0 then Some(Buy) else if b == 1 then Some(Sell) else None }

  function ByteKind(b: Byte): Option<OrderType> { if b == 0 then Some(Limit) else if b == 1 then Some(Market) else None }

  function ByteTif(b: Byte): Option<Tif> {
    if b == 0 then Some(GTC) else if b == 1 then Some(IOC) else if b == 2 then Some(FOK) else if b == 3 then Some(GTD) else None
  }

  function ByteStatus(b: Byte): Option<Status> {
    if b == 0 then Some(Pending) else if b == 1 then Some(Open) else if b == 2 then Some(PartiallyFilled)
    else if b == 3 then Some(Filled) else if b == 4 then Some(Cancelled) else if b == 5 then Some(Rejected) else None
  }

  /** What the struct module accepts for an order. */
  predicate InRange(p: PyOrder) {
    && |p.id| == 16 && 0 <= p.quantity < Pow(4) && 0 <= p.filled < Pow(4) && 0 <= p.created < Pow(8) && 0 <= p.processed < Pow(8)
  }

  /** The wire fields of an order that can be encoded. */
  function ToNative(p: PyOrder): NativeOrder
    requires InRange(p) && EncodeSymbol(p.symbol).Ok?
  {
    NativeOrder(p.id, if p.price.Some? then p.price.value else 0, p.quantity, p.filled, p.created, p.processed,
                EncodeSymbol(p.symbol).value, SideByte(p.side), KindByte(p.kind), TifByte(p.tif), StatusByte(p.status))
  }

  function Encode(p: PyOrder): Result<seq<Byte>> {
    if EncodeSymbol(p.symbol).Err? then Err("symbol")
    else if !InRange(p) then Err("out of range")
    else Ok(Frame(ToNative(p)))
  }

  function Decode(data: seq<Byte>, offset: nat): Result<PyOrder> {
    if offset + 64 > |data| then Err("too short")
    else
      var o := Unframe(data[offset..offset + 64]);
      var symbol := DecodeSymbol(o.symbol);
      var side, kind, tif, status := ByteSide(o.side), ByteKind(o.kind), ByteTif(o.tif), ByteStatus(o.status);
      if symbol.Err? || side.None? || kind.None? || tif.None? || status.None? then Err("unknown code")
      else
        Ok(PyOrder(o.id, if o.price == 0 || o.price == NEGATIVE_ZERO then None else Some(o.price), o.quantity, o.filled, o.created, o.processed,
                   symbol.value, side.value, kind.value, tif.value, status.value, None, None, None, 0, 0, 0))
  }

  /** Pack the frame into a caller's buffer; on any error the buffer is left alone. */
  method EncodeInto(p: PyOrder, buffer: array<Byte>, offset: nat) returns (ok: bool)
    modifies buffer
    ensures ok <==> Encode(p).Ok? && offset + 64 <= buffer.Length
    ensures if ok then Wrote(buffer, offset, Encode(p).value) else buffer[..] == old(buffer[..])
  {
    var frame := Encode(p);
    ok := frame.Ok? && offset + 64 <= buffer.Length;
    if ok {
      WriteBytes(buffer, offset, frame.value);
    }
  }

  /** What of a symbol survives the frame. */
  function CanonicalSymbol(symbol: seq<int>): (s: seq<int>)
    decreases |symbol|
  {
    if |symbol| > 6 then CanonicalSymbol(symbol[..6])
    else if symbol == [] || symbol[|symbol| - 1] != 0 then symbol
    else CanonicalSymbol(symbol[..|symbol| - 1])
  }

  /** What of an order survives: a price that is no zero, and no strategy, client tag, average price or latency checkpoint. */
  function Canonical(p: PyOrder): PyOrder {
    p.(symbol := CanonicalSymbol(p.symbol), price := if p.price == Some(0) || p.price == Some(NEGATIVE_ZERO) then None else p.price,
       strategy := None, tag := None, average := None, received := 0, queued := 0, acked := 0)
  }

  /** Nothing is set that the frame has no room for. */
  predicate Bare(p: PyOrder) {
    p.strategy.None? && p.tag.None? && p.average.None? && p.received == 0 && p.queued == 0 && p.acked == 0
  }

  /** Padding is stripped again. */
  lemma {:induction false} StripPadding(bs: seq<Byte>, n: nat)
    ensures Strip(bs + Zeros(n)) == Strip(bs)
  {
    if n > 0 {
      assert (bs + Zeros(n))[..|bs| + n - 1] == bs + Zeros(n - 1);
      StripPadding(bs, n - 1);
    } else {
      assert bs + Zeros(0) == bs;
    }
  }

  lemma {:induction false} TextOfBytes(text: seq<int>)
    requires forall i :: 0 <= i < |text| ==> 0 <= text[i] < 256
    ensures AsText(AsBytes(text)) == text
  {
  }

  /** What stripping keeps of a short text is its canonical form. */
  lemma {:induction false} StripIsCanonical(text: seq<int>)
    requires |text| <= 6 && forall i :: 0 <= i < |text| ==> 0 <= text[i] < 256
    ensures AsText(Strip(AsBytes(text))) == CanonicalSymbol(text)
    decreases |text|
  {
    hide AsBytes, AsText;
    var raw := AsBytes(text);
    if text != [] && text[|text| - 1] == 0 {
      var short := text[..|text| - 1];
      StripIsCanonical(short);
      assert raw[..|raw| - 1] == AsBytes(short);
    } else {
      TextOfBytes(text);
    }
  }

  lemma {:induction false} SymbolRoundTrip(symbol: seq<int>)
    requires EncodeSymbol(symbol).Ok?
    ensures DecodeSymbol(EncodeSymbol(symbol).value) == Ok(CanonicalSymbol(symbol))
  {
    hide AsBytes, AsText, Strip, Zeros, CanonicalSymbol;
    var cut := if |symbol| <= 6 then symbol else symbol[..6];
    assert forall i :: 0 <= i < |cut| ==> cut[i] == symbol[i];
    StripPadding(AsBytes(cut), 6 - |cut|);
    StripIsCanonical(cut);
    CanonicalCut(symbol);
    assert Strip(AsBytes(cut)) <= AsBytes(cut);
  }

  lemma {:induction false} CanonicalCut(symbol: seq<int>)
    ensures |symbol| > 6 ==> CanonicalSymbol(symbol) == CanonicalSymbol(symbol[..6])
  {
  }

  /** A symbol survives exactly when it fits and does not end in NUL. */
  lemma {:induction false} SymbolSurvivesIff(symbol: seq<int>)
    ensures CanonicalSymbol(symbol) == symbol <==> |symbol| <= 6 && (symbol == [] || symbol[|symbol| - 1] != 0)
  {
    CanonicalShorter(symbol);
    if |symbol| > 6 {
      CanonicalShorter(symbol[..6]);
    } else if symbol != [] && symbol[|symbol| - 1] == 0 {
      CanonicalShorter(symbol[..|symbol| - 1]);
    }
  }

  lemma {:induction false} CanonicalShorter(symbol: seq<int>)
    ensures |CanonicalSymbol(symbol)| <= |symbol|
    decreases |symbol|
  {
    if |symbol| > 6 {
      CanonicalShorter(symbol[..6]);
    } else if symbol != [] && symbol[|symbol| - 1] == 0 {
      CanonicalShorter(symbol[..|symbol| - 1]);
    }
  }

  lemma {:induction false} CodesRoundTrip(side: Side, kind: OrderType, tif: Tif, status: Status)
    ensures ByteSide(SideByte(side)) == Some(side) && ByteKind(KindByte(kind)) == Some(kind)
    ensures ByteTif(TifByte(tif)) == Some(tif) && ByteStatus(StatusByte(status)) == Some(status)
  {
  }

  /** Every byte of an encoded order, at its place. */
  lemma {:induction false} BytesOfOrder(p: PyOrder)
    requires Encode(p).Ok?
    ensures var f := Encode(p).value;
            && |f| == 64 && f[..16] == p.id && f[16..24] == Big(8, if p.price.Some? then p.price.value else 0)
            && p.quantity >= 0 && f[24..28] == Big(4, p.quantity) && p.filled >= 0 && f[28..32] == Big(4, p.filled)
            && p.created >= 0 && f[32..40] == Big(8, p.created) && p.processed >= 0 && f[40..48] == Big(8, p.processed)
            && (forall i :: 0 <= i < 6 ==> f[48 + i] == if i < |p.symbol| then p.symbol[i] else 0)
            && (f[54] == 0 <==> p.side.Buy?) && (f[54] == 1 <==> p.side.Sell?)
            && (f[55] == 0 <==> p.kind.Limit?) && (f[55] == 1 <==> p.kind.Market?)
            && (f[56] == 0 <==> p.tif.GTC?) && (f[56] == 1 <==> p.tif.IOC?) && (f[56] == 2 <==> p.tif.FOK?) && (f[56] == 3 <==> p.tif.GTD?)
            && (f[57] == 0 <==> p.status.Pending?) && (f[57] == 1 <==> p.status.Open?) && (f[57] == 2 <==> p.status.PartiallyFilled?)
            && (f[57] == 3 <==> p.status.Filled?) && (f[57] == 4 <==> p.status.Cancelled?) && (f[57] == 5 <==> p.status.Rejected?)
            && forall i :: 58 <= i < 64 ==> f[i] == 0
  {
    hide Big, Frame, AsBytes, EncodeSymbol;
    var f := Encode(p).value;
    FrameFields(ToNative(p));
    BytesOfSymbol(p.symbol);
    assert forall i :: 0 <= i < 6 ==> f[48..54][i] == f[48 + i];
    assert forall i :: 58 <= i < 64 ==> f[58..][i - 58] == f[i];
  }

  lemma {:induction false} BytesOfSymbol(symbol: seq<int>)
    requires EncodeSymbol(symbol).Ok?
    ensures forall i :: 0 <= i < 6 ==> EncodeSymbol(symbol).value[i] == if i < |symbol| then symbol[i] else 0
  {
  }

  lemma {:induction false} WireFits(p: PyOrder)
    requires InRange(p) && EncodeSymbol(p.symbol).Ok?
    ensures Fits(ToNative(p))
  {
    hide EncodeSymbol;
    Pow8();
  }

  /** Decoding an encoded order gives the order in canonical form. */
  lemma {:induction false} RoundTrip(p: PyOrder)
    requires Encode(p).Ok?
    ensures Decode(Encode(p).value, 0) == Ok(Canonical(p))
  {
    hide Frame, Unframe, EncodeSymbol, DecodeSymbol, CanonicalSymbol, Pow, Fits,
         SideByte, KindByte, TifByte, StatusByte, ByteSide, ByteKind, ByteTif, ByteStatus;
    WireFits(p);
    UnframeFrame(ToNative(p));
    SymbolRoundTrip(p.symbol);
    CodesRoundTrip(p.side, p.kind, p.tif, p.status);
    var f := Encode(p).value;
    assert f[0..0 + 64] == f;
  }

  /** Nothing is lost exactly when the symbol fits, the price is not a zero, and nothing is set that the frame has no room for. */
  lemma {:induction false} LosslessIff(p: PyOrder)
    requires Encode(p).Ok?
    ensures Decode(Encode(p).value, 0) == Ok(p) <==>
            && |p.symbol| <= 6 && (p.symbol == [] || p.symbol[|p.symbol| - 1] != 0)
            && p.price != Some(0) && p.price != Some(NEGATIVE_ZERO) && Bare(p)
  {
    RoundTrip(p);
    SymbolSurvivesIff(p.symbol);
    hide Encode, Decode, CanonicalSymbol;
  }

  // ---------- the C++ side ----------

  /** Write the frame field by field into a zeroed buffer. */
  method EncodeOrder(o: NativeOrder) returns (output: array<Byte>)
    requires Fits(o)
    ensures fresh(output) && output[..] == Frame(o)
  {
    hide Big, Holds, Frame, Wrote, Pow;
    output := new Byte[64](i => 0);
    Blank(output[..]);
    WriteBytes(output, 0, o.id);
    ghost var done := [] + o.id;
    WriteU64(output, 16, o.price);
    done := done + Big(8, o.price);
    WriteU32(output, 24, o.quantity);
    done := done + Big(4, o.quantity);
    WriteU32(output, 28, o.filled);
    done := done + Big(4, o.filled);
    assert Holds(output[..], done);
    WriteU64(output, 32, o.created);
    done := done + Big(8, o.created);
    assert Holds(output[..], done);
    WriteU64(output, 40, o.processed);
    done := done + Big(8, o.processed);
    assert Holds(output[..], done);
    WriteBytes(output, 48, o.symbol);
    done := done + o.symbol;
    assert Holds(output[..], done);
    label Codes:
    output[54] := o.side;
    output[55] := o.kind;
    output[56] := o.tif;
    output[57] := o.status;
    Stored@Codes(output, 54, [o.side, o.kind, o.tif, o.status]);
    FilledFrame(o, output[..]);
  }

  lemma {:induction false} FilledFrame(o: NativeOrder, buffer: seq<Byte>)
    requires |o.id| == 16 && |o.symbol| == 6 && |buffer| == 64
    requires Holds(buffer, [] + o.id + Big(8, o.price) + Big(4, o.quantity) + Big(4, o.filled) + Big(8, o.created) + Big(8, o.processed)
                            + o.symbol + [o.side, o.kind, o.tif, o.status])
    ensures buffer == Frame(o)
  {
    hide Big, Zeros;
    assert [] + o.id == o.id;
  }

  /** Only frames of the exact size are read; no code is checked. */
  method DecodeOrder(frame: seq<Byte>) returns (o: Option<NativeOrder>)
    ensures o == if |frame| == 64 then Some(Unframe(frame)) else None
  {
    if |frame| != 64 {
      return None;
    }
    var price := ReadU64(frame, 16);
    var created := ReadU64(frame, 32);
    var processed := ReadU64(frame, 40);
    NumBound(frame[16..24]);
    Pow8();
    o := Some(NativeOrder(frame[..16], price, ReadU32(frame, 24), ReadU32(frame, 28), created, processed,
                          frame[48..54], frame[54], frame[55], frame[56], frame[57]));
  }

  /** C++ reads a Python frame back to its wire fields, and writes those fields as the same frame. */
  lemma {:induction false} NativeAgrees(p: PyOrder)
    requires Encode(p).Ok?
    ensures Fits(ToNative(p)) && Unframe(Encode(p).value) == ToNative(p) && Frame(Unframe(Encode(p).value)) == Encode(p).value
  {
    hide Frame, Unframe, EncodeSymbol, Fits;
    WireFits(p);
    UnframeFrame(ToNative(p));
  }
}
