/** Match results on the wire: an 8-byte header and a 64-byte frame a trade. */
module ResultCodec {
  import opened Bytes
  import opened Domain
  import opened OrderCodec

  /** The fields of a trade frame, as Python's decoder reports them. */
  datatype WireTrade = WireTrade(id: seq<Byte>, price: Bits, quantity: nat, side: Byte, timestamp: nat, sequence: nat, maker: seq<Byte>)

  /** A trade as Python holds it; it has no sequence of its own. */
  datatype PyTrade = PyTrade(id: seq<Byte>, price: Bits, quantity: nat, side: Side, timestamp: nat, maker: seq<Byte>)

  /** A trade as C++ holds it; it has no id of its own. */
  datatype NativeTrade = NativeTrade(sequence: nat, timestamp: nat, price: Bits, quantity: nat, side: Byte, maker: seq<Byte>)

  datatype PyResult = PyResult(status: Status, resting: bool, trades: seq<PyTrade>)

  datatype NativeResult = NativeResult(status: Byte, resting: bool, trades: seq<NativeTrade>)

  /** What Python's decoder returns: everything but the taker. */
  datatype Decoded = Decoded(count: nat, filled: nat, status: Status, resting: bool, trades: seq<WireTrade>)

  // ---------- layout ----------

  predicate IdsFit(t: WireTrade) { |t.id| == 16 && |t.maker| == 16 }

  predicate TradeFits(t: WireTrade) {
    IdsFit(t) && t.quantity < Pow(4) && t.timestamp < Pow(8) && t.sequence < Pow(8)
  }

  function TradeFrame(t: WireTrade): (frame: seq<Byte>)
    requires IdsFit(t)
    ensures |frame| == 64
  {
    t.id + Big(8, t.price) + Big(4, t.quantity) + [t.side] + Zeros(3) + Big(8, t.timestamp) + Big(8, t.sequence) + t.maker
  }

  predicate AllIdsFit(ts: seq<WireTrade>) { forall t :: t in ts ==> IdsFit(t) }

  predicate AllFit(ts: seq<WireTrade>) { forall t :: t in ts ==> TradeFits(t) }

  predicate SidesKnown(ts: seq<WireTrade>) { forall t :: t in ts ==> ByteSide(t.side).Some? }

  function TradeFrames(ts: seq<WireTrade>): (frames: seq<Byte>)
    requires AllIdsFit(ts)
    ensures |frames| == 64 * |ts|
  {
    if ts == [] then [] else TradeFrames(ts[..|ts| - 1]) + TradeFrame(ts[|ts| - 1])
  }

  function Header(count: nat, filled: nat, status: Byte, resting: bool): (header: seq<Byte>)
    ensures |header| == 8
  {
    Big(2, count) + Big(4, filled) + [status, if resting then 1 else 0]
  }

  /** The layout both sides implement; words wider than their field are cut. */
  function Frame(filled: nat, status: Byte, resting: bool, ts: seq<WireTrade>): (frame: seq<Byte>)
    requires AllIdsFit(ts)
    ensures |frame| == 8 + 64 * |ts|
  {
    Header(|ts|, filled, status, resting) + TradeFrames(ts)
  }

  // ---------- reading ----------

  function ReadTrade(data: seq<Byte>, offset: nat): (t: WireTrade)
    requires offset + 64 <= |data|
    ensures TradeFits(t)
  {
    NumBound(data[offset + 16..offset + 24]);
    NumBound(data[offset + 24..offset + 28]);
    NumBound(data[offset + 32..offset + 40]);
    NumBound(data[offset + 40..offset + 48]);
    Pow8();
    WireTrade(data[offset..offset + 16], Num(data[offset + 16..offset + 24]), Num(data[offset + 24..offset + 28]), data[offset + 28],
              Num(data[offset + 32..offset + 40]), Num(data[offset + 40..offset + 48]), data[offset + 48..offset + 64])
  }

  function ReadTrades(data: seq<Byte>, n: nat): (ts: seq<WireTrade>)
    requires 8 + 64 * n <= |data|
    ensures |ts| == n
  {
    if n == 0 then [] else ReadTrades(data, n - 1) + [ReadTrade(data, 8 + 64 * (n - 1))]
  }

  function Decode(data: seq<Byte>): Result<Decoded> {
    if |data| < 8 then Err("no header")
    else
      var count := Num(data[..2]);
      if |data| < 8 + 64 * count then Err("too short")
      else
        var ts := ReadTrades(data, count);
        if !SidesKnown(ts) || ByteStatus(data[6]).None? then Err("unknown code")
        else Ok(Decoded(count, Num(data[2..6]), ByteStatus(data[6]).value, data[7] != 0, ts))
  }

  /** Python decodes trade by trade and stops at the first frame that is cut short or has an unknown side. */
  method DecodeResult(data: seq<Byte>) returns (r: Result<Decoded>)
    ensures r == Decode(data) || (r.Err? && Decode(data).Err?)
  {
    hide ReadTrade, Num, ByteSide, ByteStatus;
    if |data| < 8 {
      return Err("no header");
    }
    var count := Num(data[..2]);
    var ts: seq<WireTrade> := [];
    for i := 0 to count
      invariant 8 + 64 * i <= |data| && ts == ReadTrades(data, i) && SidesKnown(ts)
    {
      var offset := 8 + i * 64;
      if |data| < offset + 64 {
        return Err("too short");
      }
      var t := ReadTrade(data, offset);
      if ByteSide(t.side).None? {
        if |data| >= 8 + 64 * count {
          ReadPrefix(data, i + 1, count);
          assert t == ReadTrades(data, i + 1)[i];
        }
        return Err("unknown code");
      }
      ts := ts + [t];
    }
    if ByteStatus(data[6]).None? {
      return Err("unknown code");
    }
    r := Ok(Decoded(count, Num(data[2..6]), ByteStatus(data[6]).value, data[7] != 0, ts));
  }

  lemma {:induction false} ReadPrefix(data: seq<Byte>, i: nat, n: nat)
    requires i <= n && 8 + 64 * n <= |data|
    ensures ReadTrades(data, i) == ReadTrades(data, n)[..i]
  {
    hide ReadTrade;
    if i < n {
      ReadPrefix(data, i, n - 1);
    }
  }

  // ---------- writing in Python ----------

  /** The frame has no room for the taker, and Python's trades have no sequence: it is written as 0. */
  function ToWire(t: PyTrade): WireTrade {
    WireTrade(t.id, t.price, t.quantity, SideByte(t.side), t.timestamp, 0, t.maker)
  }

  function ToWires(ts: seq<PyTrade>): (ws: seq<WireTrade>)
    ensures |ws| == |ts| && forall i :: 0 <= i < |ts| ==> ws[i] == ToWire(ts[i])
  {
    if ts == [] then [] else ToWires(ts[..|ts| - 1]) + [ToWire(ts[|ts| - 1])]
  }

  function Total(ts: seq<WireTrade>): nat {
    if ts == [] then 0 else Total(ts[..|ts| - 1]) + ts[|ts| - 1].quantity
  }

  function Encode(r: PyResult): Result<seq<Byte>> {
    var ts := ToWires(r.trades);
    if |ts| >= Pow(2) || Total(ts) >= Pow(4) || !AllFit(ts) then Err("cannot pack")
    else
      assert AllIdsFit(ts);
      Ok(Frame(Total(ts), StatusByte(r.status), r.resting, ts))
  }

  /** Python's encoding loses only the takers and decodes to everything else. */
  lemma {:induction false} RoundTrip(r: PyResult, extra: seq<Byte>)
    requires Encode(r).Ok?
    ensures Decode(Encode(r).value + extra) ==
            Ok(Decoded(|r.trades|, Total(ToWires(r.trades)), r.status, r.resting, ToWires(r.trades)))
  {
    hide Frame, Decode, Pow, AllFit, AllIdsFit, Total, SideByte, ByteSide, StatusByte, ByteStatus, TradeFits;
    var ts := ToWires(r.trades);
    CodesRoundTrip(Buy, Limit, GTC, r.status);
    forall t | t in ts
      ensures ByteSide(t.side).Some?
    {
      var i :| 0 <= i < |ts| && ts[i] == t;
      CodesRoundTrip(r.trades[i].side, Limit, GTC, r.status);
    }
    assert AllIdsFit(ts) by { FitIds(ts); }
    FrameDecodes(Total(ts), StatusByte(r.status), r.resting, ts, extra);
  }

  lemma {:induction false} FitIds(ts: seq<WireTrade>)
    requires AllFit(ts)
    ensures AllIdsFit(ts)
  {
  }

  // ---------- writing in C++ ----------

  /** The id on the wire is made of the execution time and the trade sequence. */
  function OnWire(t: NativeTrade): (w: WireTrade)
    ensures |t.maker| == 16 ==> IdsFit(w)
  {
    WireTrade(Big(8, t.timestamp) + Big(8, t.sequence), t.price, t.quantity, t.side, t.timestamp, t.sequence, t.maker)
  }

  predicate NativeFits(r: NativeResult) {
    forall t :: t in r.trades ==> |t.maker| == 16 && t.quantity < Pow(4) && t.timestamp < Pow(8) && t.sequence < Pow(8)
  }

  function OnWires(ts: seq<NativeTrade>): (ws: seq<WireTrade>)
    ensures |ws| == |ts| && forall i :: 0 <= i < |ts| ==> ws[i] == OnWire(ts[i])
  {
    if ts == [] then [] else OnWires(ts[..|ts| - 1]) + [OnWire(ts[|ts| - 1])]
  }

  lemma {:induction false} WiresFit(r: NativeResult)
    requires NativeFits(r)
    ensures AllFit(OnWires(r.trades)) && AllIdsFit(OnWires(r.trades))
  {
    hide Pow;
    var ws := OnWires(r.trades);
    forall w | w in ws
      ensures TradeFits(w)
    {
      var i :| 0 <= i < |ws| && ws[i] == w;
      assert r.trades[i] in r.trades;
    }
  }

  /** The native frame; the filled total is a 32-bit sum, which wraps. */
  function NativeFrame(r: NativeResult): (frame: seq<Byte>)
    requires NativeFits(r)
    ensures |frame| == 8 + 64 * |r.trades|
  {
    WiresFit(r);
    Frame(Total(OnWires(r.trades)) % Pow(4), r.status, r.resting, OnWires(r.trades))
  }

  /** Sum the fills in 32 bits. */
  method TotalFilled(r: NativeResult) returns (total: nat)
    ensures total == Total(OnWires(r.trades)) % Pow(4)
  {
    hide Pow;
    var ws := OnWires(r.trades);
    total := 0;
    for i := 0 to |r.trades|
      invariant total == Total(ws[..i]) % Pow(4)
    {
      assert ws[..i + 1][..i] == ws[..i];
      AddMod(Total(ws[..i]), ws[i].quantity, Pow(4));
      total := (total + r.trades[i].quantity) % Pow(4);
    }
    assert ws[..|ws|] == ws;
  }

  lemma {:induction false} AddMod(a: nat, b: nat, m: nat)
    requires m > 0
    ensures (a % m + b) % m == (a + b) % m
  {
    DivMod(a, m);
    DivMod(a % m + b, m);
    Distribute(a / m, (a % m + b) / m, m);
    Quotient(a + b, m, a / m + (a % m + b) / m, (a % m + b) % m);
  }

  lemma {:induction false} DivMod(x: nat, m: nat)
    requires m > 0
    ensures x == x / m * m + x % m && x / m >= 0
  {
  }

  lemma {:induction false} Distribute(x: nat, y: nat, m: nat)
    ensures (x + y) * m == x * m + y * m
  {
  }

  method WriteTrade(output: array<Byte>, offset: nat, t: NativeTrade, ghost done: seq<Byte>)
    requires offset + 64 <= output.Length && |done| == offset && Holds(output[..], done) && |t.maker| == 16
    modifies output
    ensures Holds(output[..], done + TradeFrame(OnWire(t)))
  {
    hide Big, Holds, Wrote;
    ghost var front := done;
    WriteU64(output, offset, t.timestamp);
    front := front + Big(8, t.timestamp);
    WriteU64(output, offset + 8, t.sequence);
    front := front + Big(8, t.sequence);
    assert Holds(output[..], front);
    WriteU64(output, offset + 16, t.price);
    front := front + Big(8, t.price);
    WriteU32(output, offset + 24, t.quantity);
    front := front + Big(4, t.quantity);
    assert Holds(output[..], front);
    label Side:
    output[offset + 28] := t.side;
    Stored@Side(output, offset + 28, [t.side]);
    front := front + [t.side];
    assert Holds(output[..], front);
    Skip(output[..], front, 3);
    front := front + Zeros(3);
    WriteU64(output, offset + 32, t.timestamp);
    front := front + Big(8, t.timestamp);
    assert Holds(output[..], front);
    WriteU64(output, offset + 40, t.sequence);
    front := front + Big(8, t.sequence);
    WriteBytes(output, offset + 48, t.maker);
    front := front + t.maker;
    assert Holds(output[..], front);
    assert front == done + TradeFrame(OnWire(t));
  }

  method WriteHeader(output: array<Byte>, count: nat, filled: nat, status: Byte, resting: bool)
    requires output.Length >= 8 && Holds(output[..], [])
    modifies output
    ensures Holds(output[..], Header(count, filled, status, resting))
  {
    hide Big, Holds, Wrote;
    WriteU16(output, 0, count);
    WriteU32(output, 2, filled);
    assert Holds(output[..], [] + Big(2, count) + Big(4, filled));
    label Codes:
    output[6] := status;
    output[7] := if resting then 1 else 0;
    Stored@Codes(output, 6, [status, if resting then 1 else 0]);
    assert [] + Big(2, count) + Big(4, filled) + [status, if resting then 1 else 0] == Header(count, filled, status, resting);
  }

  lemma {:induction false} NoneYet(header: seq<Byte>, ws: seq<WireTrade>)
    ensures AllIdsFit(ws[..0]) && header + TradeFrames(ws[..0]) == header
  {
  }

  lemma {:induction false} OneMore(header: seq<Byte>, ws: seq<WireTrade>, k: nat)
    requires k < |ws| && AllIdsFit(ws)
    ensures AllIdsFit(ws[..k]) && AllIdsFit(ws[..k + 1]) && IdsFit(ws[k])
    ensures header + TradeFrames(ws[..k]) + TradeFrame(ws[k]) == header + TradeFrames(ws[..k + 1])
  {
    hide IdsFit;
    assert ws[..k + 1][..k] == ws[..k];
    assert AllIdsFit(ws[..k]) && AllIdsFit(ws[..k + 1]);
  }

  method NativeEncode(r: NativeResult) returns (output: array<Byte>)
    requires NativeFits(r)
    ensures fresh(output) && output[..] == NativeFrame(r)
  {
    hide Holds, Header, TradeFrame, TradeFrames, AllIdsFit, AllFit, OnWire, Pow, Big;
    var total := TotalFilled(r);
    ghost var ws := OnWires(r.trades);
    WiresFit(r);
    output := new Byte[8 + |r.trades| * 64](i => 0);
    Blank(output[..]);
    WriteHeader(output, |r.trades|, total, r.status, r.resting);
    ghost var header := Header(|r.trades|, total, r.status, r.resting);
    NoneYet(header, ws);
    for index := 0 to |r.trades|
      invariant AllIdsFit(ws[..index]) && Holds(output[..], header + TradeFrames(ws[..index]))
    {
      WriteTrade(output, 8 + index * 64, r.trades[index], header + TradeFrames(ws[..index]));
      OneMore(header, ws, index);
    }
    assert ws[..|ws|] == ws;
    HoldsAll(output[..], NativeFrame(r));
  }

  // ---------- what is read back ----------

  lemma {:induction false} TradeFields(t: WireTrade)
    requires IdsFit(t)
    ensures var f := TradeFrame(t);
            && f[..16] == t.id && f[16..24] == Big(8, t.price) && f[24..28] == Big(4, t.quantity) && f[28] == t.side
            && f[32..40] == Big(8, t.timestamp) && f[40..48] == Big(8, t.sequence) && f[48..64] == t.maker
  {
    hide Big, Zeros;
  }

  lemma {:induction false} TradeSurvives(t: WireTrade, data: seq<Byte>, offset: nat)
    requires TradeFits(t) && offset + 64 <= |data| && data[offset..offset + 64] == TradeFrame(t)
    ensures ReadTrade(data, offset) == t
  {
    hide Big, Num, Pow, TradeFrame;
    TradeFields(t);
    SubSlice(data, offset, 64, 0, 16);
    SubSlice(data, offset, 64, 16, 24);
    SubSlice(data, offset, 64, 24, 28);
    SubSlice(data, offset, 64, 32, 40);
    SubSlice(data, offset, 64, 40, 48);
    SubSlice(data, offset, 64, 48, 64);
    assert data[offset..offset + 64][28] == data[offset + 28];
    Pow8();
    NumBig(8, t.price);
    NumBig(4, t.quantity);
    NumBig(8, t.timestamp);
    NumBig(8, t.sequence);
  }

  lemma {:induction false} TradesSurvive(ts: seq<WireTrade>, data: seq<Byte>)
    requires AllFit(ts) && AllIdsFit(ts) && 8 + 64 * |ts| <= |data| && data[8..8 + 64 * |ts|] == TradeFrames(ts)
    ensures ReadTrades(data, |ts|) == ts
  {
    hide TradeFits, ReadTrade, TradeFrame, IdsFit;
    if ts != [] {
      var k := |ts| - 1;
      Cut(data, 8, TradeFrames(ts[..k]), TradeFrame(ts[k]));
      TradesSurvive(ts[..k], data);
      TradeSurvives(ts[k], data, 8 + 64 * k);
    }
  }

  lemma {:induction false} HeaderFields(count: nat, filled: nat, status: Byte, resting: bool, more: seq<Byte>)
    ensures var d := Header(count, filled, status, resting) + more;
            d[..2] == Big(2, count) && d[2..6] == Big(4, filled) && d[6] == status && (d[7] != 0 <==> resting)
  {
    hide Big;
  }

  lemma {:induction false} FrameDecodes(filled: nat, status: Byte, resting: bool, ts: seq<WireTrade>, extra: seq<Byte>)
    requires AllFit(ts) && AllIdsFit(ts) && SidesKnown(ts) && ByteStatus(status).Some? && |ts| < Pow(2) && filled < Pow(4)
    ensures Decode(Frame(filled, status, resting, ts) + extra) == Ok(Decoded(|ts|, filled, ByteStatus(status).value, resting, ts))
  {
    hide Big, Num, Pow, Header, TradeFrames, AllFit, AllIdsFit, SidesKnown, ByteStatus, ReadTrades;
    var d := Frame(filled, status, resting, ts) + extra;
    var h := Header(|ts|, filled, status, resting);
    assert d == h + (TradeFrames(ts) + extra);
    HeaderFields(|ts|, filled, status, resting, TradeFrames(ts) + extra);
    NumBig(2, |ts|);
    NumBig(4, filled);
    assert d[8..8 + 64 * |ts|] == TradeFrames(ts);
    TradesSurvive(ts, d);
  }

  lemma {:induction false} DecodedCount(data: seq<Byte>)
    requires Decode(data).Ok?
    ensures |Decode(data).value.trades| == Decode(data).value.count < Pow(2)
  {
    hide Num, Pow, ReadTrade, SidesKnown;
    NumBound(data[..2]);
  }

  /**
   C++ to Python: all trades come through, with the sequences and makers C++ gave
   them, exactly when the 16-bit count holds their number.
   */
  lemma {:induction false} NativeSurvivesIff(r: NativeResult)
    requires NativeFits(r) && ByteStatus(r.status).Some? && SidesKnown(OnWires(r.trades))
    ensures (Decode(NativeFrame(r)).Ok? && Decode(NativeFrame(r)).value.trades == OnWires(r.trades)) <==> |r.trades| < Pow(2)
    ensures |r.trades| < Pow(2) ==>
              Decode(NativeFrame(r)) == Ok(Decoded(|r.trades|, Total(OnWires(r.trades)) % Pow(4), ByteStatus(r.status).value,
                                                   r.resting, OnWires(r.trades)))
  {
    hide Frame, Decode, Pow, NativeFits, AllFit, AllIdsFit, SidesKnown, ByteStatus, Total;
    var ws := OnWires(r.trades);
    WiresFit(r);
    if |r.trades| < Pow(2) {
      FrameDecodes(Total(ws) % Pow(4), r.status, r.resting, ws, []);
      assert NativeFrame(r) + [] == NativeFrame(r);
    } else if Decode(NativeFrame(r)).Ok? {
      DecodedCount(NativeFrame(r));
    }
  }

  /** The wire trade ids C++ makes are as distinct as its (time, sequence) pairs. */
  lemma {:induction false} NativeIdsDistinct(s: NativeTrade, t: NativeTrade)
    requires s.timestamp < Pow(8) && t.timestamp < Pow(8) && s.sequence < Pow(8) && t.sequence < Pow(8)
    ensures OnWire(s).id == OnWire(t).id <==> s.timestamp == t.timestamp && s.sequence == t.sequence
  {
    hide Big, Num, Pow;
    var a, b := Big(8, s.timestamp) + Big(8, s.sequence), Big(8, t.timestamp) + Big(8, t.sequence);
    NumBig(8, s.timestamp);
    NumBig(8, t.timestamp);
    NumBig(8, s.sequence);
    NumBig(8, t.sequence);
    assert a[..8] == Big(8, s.timestamp) && a[8..] == Big(8, s.sequence);
    assert b[..8] == Big(8, t.timestamp) && b[8..] == Big(8, t.sequence);
  }

  // ---------- the same bytes ----------

  /** A trade frame determines every field. */
  lemma {:induction false} TradeBytesIff(s: WireTrade, t: WireTrade)
    requires TradeFits(s) && TradeFits(t)
    ensures TradeFrame(s) == TradeFrame(t) <==> s == t
  {
    hide TradeFrame, ReadTrade;
    var f := TradeFrame(s);
    assert f[0..64] == f;
    if TradeFrame(s) == TradeFrame(t) {
      TradeSurvives(s, f, 0);
      TradeSurvives(t, f, 0);
    }
  }

  lemma {:induction false} FramesDetermine(ss: seq<WireTrade>, ts: seq<WireTrade>, header: seq<Byte>)
    requires AllFit(ss) && AllFit(ts) && AllIdsFit(ss) && AllIdsFit(ts) && |ss| == |ts| && |header| == 8
    requires TradeFrames(ss) == TradeFrames(ts)
    ensures ss == ts
  {
    hide TradeFrames, AllFit, AllIdsFit, ReadTrades;
    var data := header + TradeFrames(ss);
    assert data[8..8 + 64 * |ss|] == TradeFrames(ss);
    TradesSurvive(ss, data);
    TradesSurvive(ts, data);
  }

  /** A Python and a C++ trade that look alike on the wire: C++ would have to number it 0, and Python to make its id of the time. */
  predicate SameTrade(s: PyTrade, t: NativeTrade) {
    && s.price == t.price && s.quantity == t.quantity && SideByte(s.side) == t.side && s.timestamp == t.timestamp && s.maker == t.maker
    && t.sequence == 0 && s.id == Big(8, t.timestamp) + Big(8, 0)
  }

  predicate SameTrades(ss: seq<PyTrade>, ts: seq<NativeTrade>) {
    |ss| == |ts| && forall i :: 0 <= i < |ss| ==> SameTrade(ss[i], ts[i])
  }

  lemma {:induction false} SameWireIff(s: PyTrade, t: NativeTrade)
    ensures ToWire(s) == OnWire(t) <==> SameTrade(s, t)
  {
    hide Big;
  }

  lemma {:induction false} SameWiresIff(ss: seq<PyTrade>, ts: seq<NativeTrade>)
    ensures ToWires(ss) == OnWires(ts) <==> SameTrades(ss, ts)
  {
    hide ToWire, OnWire, SameTrade;
    var a, b := ToWires(ss), OnWires(ts);
    if |ss| == |ts| {
      forall i | 0 <= i < |ss|
        ensures a[i] == b[i] <==> SameTrade(ss[i], ts[i])
      {
        SameWireIff(ss[i], ts[i]);
      }
    }
  }

  lemma {:induction false} SameCodes(filled: nat, status: Byte, resting: bool, filled': nat, status': Byte, resting': bool,
                                     ss: seq<WireTrade>, ts: seq<WireTrade>)
    requires AllIdsFit(ss) && AllIdsFit(ts) && Frame(filled, status, resting, ss) == Frame(filled', status', resting', ts)
    ensures status == status' && resting == resting' && |ss| == |ts| && TradeFrames(ss) == TradeFrames(ts)
  {
    hide Big, TradeFrames, AllIdsFit, Header;
    HeaderFields(|ss|, filled, status, resting, TradeFrames(ss));
    HeaderFields(|ts|, filled', status', resting', TradeFrames(ts));
    assert Frame(filled, status, resting, ss)[8..] == TradeFrames(ss);
    assert Frame(filled', status', resting', ts)[8..] == TradeFrames(ts);
  }

  /** Both languages write a result as the same bytes exactly when its status, its resting flag and all its trades look alike on the wire. */
  lemma {:induction false} SameBytesIff(r: PyResult, n: NativeResult)
    requires Encode(r).Ok? && NativeFits(n)
    ensures Encode(r).value == NativeFrame(n) <==>
            StatusByte(r.status) == n.status && r.resting == n.resting && SameTrades(r.trades, n.trades)
  {
    hide Frame, Pow, StatusByte, AllFit, AllIdsFit, SameTrades, NativeFits, Total;
    var ss, ts := ToWires(r.trades), OnWires(n.trades);
    WiresFit(n);
    FitIds(ss);
    SameWiresIff(r.trades, n.trades);
    if Encode(r).value == NativeFrame(n) {
      SameCodes(Total(ss), StatusByte(r.status), r.resting, Total(ts) % Pow(4), n.status, n.resting, ss, ts);
      FramesDetermine(ss, ts, Header(0, 0, 0, false));
    } else if ss == ts {
      Small(Total(ss), Pow(4));
    }
  }

  lemma {:induction false} Small(x: nat, m: nat)
    requires x < m
    ensures x % m == x
  {
  }

  lemma {:induction false} NumberedDiffer(ss: seq<PyTrade>, ts: seq<NativeTrade>)
    requires forall t :: t in ts ==> t.sequence >= 1
    ensures SameTrades(ss, ts) <==> ss == [] && ts == []
  {
    hide Big;
    if ts != [] && |ss| == |ts| {
      assert ts[0] in ts;
      assert !SameTrade(ss[0], ts[0]);
    }
  }

  /** C++ numbers its trades from 1, and Python writes 0: the two agree on results without trades and on no other. */
  lemma {:induction false} SameBytesOnlyWithoutTrades(r: PyResult, n: NativeResult)
    requires Encode(r).Ok? && NativeFits(n) && forall t :: t in n.trades ==> t.sequence >= 1
    ensures Encode(r).value == NativeFrame(n) <==>
            StatusByte(r.status) == n.status && r.resting == n.resting && r.trades == [] && n.trades == []
  {
    hide Encode, NativeFrame, NativeFits, StatusByte, SameTrades;
    SameBytesIff(r, n);
    NumberedDiffer(r.trades, n.trades);
  }
}
