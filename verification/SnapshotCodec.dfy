/** Depth snapshots on the wire: a 32-byte header and 16 bytes a level. */
module SnapshotCodec {
  import opened Bytes
  import opened OrderCodec

  datatype WireLevel = WireLevel(price: Bits, quantity: nat, count: nat)

  /** A snapshot as Python holds it: text symbol, unbounded integers. */
  datatype PySnapshot = PySnapshot(symbol: seq<int>, sequence: nat, timestamp: nat, bids: seq<WireLevel>, asks: seq<WireLevel>)

  /** A snapshot as C++ holds it: a six-byte symbol, a 64-bit sequence. */
  datatype NativeSnapshot = NativeSnapshot(symbol: seq<Byte>, sequence: nat, timestamp: nat, bids: seq<WireLevel>, asks: seq<WireLevel>)

  // ---------- layout ----------

  function LevelFrame(l: WireLevel): (frame: seq<Byte>)
    ensures |frame| == 16
  {
    Big(8, l.price) + Big(4, l.quantity) + Big(4, l.count)
  }

  function LevelFrames(ls: seq<WireLevel>): (frames: seq<Byte>)
    ensures |frames| == 16 * |ls|
  {
    if ls == [] then [] else LevelFrames(ls[..|ls| - 1]) + LevelFrame(ls[|ls| - 1])
  }

  function Header(symbol: seq<Byte>, bids: nat, asks: nat, sequence: nat, timestamp: nat): (header: seq<Byte>)
    requires |symbol| == 6
    ensures |header| == 32
  {
    symbol + Big(2, bids) + Big(2, asks) + Zeros(2) + Big(4, sequence) + Big(8, timestamp) + Zeros(8)
  }

  /** What a snapshot looks like on the wire; words wider than their field are cut. */
  function Frame(n: NativeSnapshot): (frame: seq<Byte>)
    requires |n.symbol| == 6
    ensures |frame| == 32 + 16 * (|n.bids| + |n.asks|)
  {
    Header(n.symbol, |n.bids|, |n.asks|, n.sequence, n.timestamp) + LevelFrames(n.bids) + LevelFrames(n.asks)
  }

  predicate LevelFits(l: WireLevel) { l.quantity < Pow(4) && l.count < Pow(4) }

  predicate LevelsFit(ls: seq<WireLevel>) { forall l :: l in ls ==> LevelFits(l) }

  /** The header fields hold the two counts and the sequence without loss. */
  predicate HeaderFits(bids: nat, asks: nat, sequence: nat) { bids < Pow(2) && asks < Pow(2) && sequence < Pow(4) }

  // ---------- reading ----------

  function ReadLevel(data: seq<Byte>, offset: nat): (l: WireLevel)
    requires offset + 16 <= |data|
    ensures LevelFits(l)
  {
    NumBound(data[offset..offset + 8]);
    NumBound(data[offset + 8..offset + 12]);
    NumBound(data[offset + 12..offset + 16]);
    Pow8();
    WireLevel(Num(data[offset..offset + 8]), Num(data[offset + 8..offset + 12]), Num(data[offset + 12..offset + 16]))
  }

  function ReadLevels(data: seq<Byte>, offset: nat, n: nat): (ls: seq<WireLevel>)
    requires offset + 16 * n <= |data|
    ensures |ls| == n
  {
    if n == 0 then [] else ReadLevels(data, offset, n - 1) + [ReadLevel(data, offset + 16 * (n - 1))]
  }

  function Decode(data: seq<Byte>): Result<PySnapshot> {
    if |data| < 32 then Err("no header")
    else
      var bids, asks := Num(data[6..8]), Num(data[8..10]);
      if |data| < 32 + 16 * (bids + asks) then Err("shorter than its level counts")
      else
        var symbol := DecodeSymbol(data[..6]);
        if symbol.Err? then Err("not ASCII")
        else
          Ok(PySnapshot(symbol.value, Num(data[12..16]), Num(data[16..24]),
                        ReadLevels(data, 32, bids), ReadLevels(data, 32 + 16 * bids, asks)))
  }

  /** Python reads the levels one by one behind the header. */
  method DecodeSnapshot(data: seq<Byte>) returns (r: Result<PySnapshot>)
    ensures r == Decode(data)
  {
    hide ReadLevel, Num;
    if |data| < 32 {
      return Err("no header");
    }
    var bidCount, askCount := Num(data[6..8]), Num(data[8..10]);
    if |data| < 32 + (bidCount + askCount) * 16 {
      return Err("shorter than its level counts");
    }
    var offset := 32;
    var bids: seq<WireLevel>, asks: seq<WireLevel> := [], [];
    for k := 0 to bidCount
      invariant offset == 32 + 16 * k && bids == ReadLevels(data, 32, k)
    {
      bids := bids + [ReadLevel(data, offset)];
      offset := offset + 16;
    }
    for k := 0 to askCount
      invariant offset == 32 + 16 * bidCount + 16 * k && asks == ReadLevels(data, 32 + 16 * bidCount, k)
    {
      asks := asks + [ReadLevel(data, offset)];
      offset := offset + 16;
    }
    var symbol := DecodeSymbol(data[..6]);
    if symbol.Err? {
      return Err("not ASCII");
    }
    r := Ok(PySnapshot(symbol.value, Num(data[12..16]), Num(data[16..24]), bids, asks));
  }

  // ---------- writing in Python ----------

  /** What the struct module accepts. */
  predicate Packable(p: PySnapshot) {
    HeaderFits(|p.bids|, |p.asks|, p.sequence) && p.timestamp < Pow(8) && LevelsFit(p.bids) && LevelsFit(p.asks)
  }

  function ToNative(p: PySnapshot): (n: NativeSnapshot)
    requires EncodeSymbol(p.symbol).Ok?
    ensures |n.symbol| == 6
  {
    NativeSnapshot(EncodeSymbol(p.symbol).value, p.sequence, p.timestamp, p.bids, p.asks)
  }

  function Encode(p: PySnapshot): Result<seq<Byte>> {
    if EncodeSymbol(p.symbol).Ok? && Packable(p) then Ok(Frame(ToNative(p))) else Err("cannot pack")
  }

  method EncodeSnapshot(p: PySnapshot) returns (r: Result<seq<Byte>>)
    ensures r == Encode(p)
  {
    hide EncodeSymbol, LevelFits, Header, LevelFrame, HeaderFits, Big, Pow;
    var symbol := EncodeSymbol(p.symbol);
    if symbol.Err? || !HeaderFits(|p.bids|, |p.asks|, p.sequence) || p.timestamp >= Pow(8) {
      return Err("cannot pack");
    }
    var header := Header(symbol.value, |p.bids|, |p.asks|, p.sequence, p.timestamp);
    var levels: seq<Byte> := [];
    for k := 0 to |p.bids|
      invariant levels == LevelFrames(p.bids[..k]) && LevelsFit(p.bids[..k])
    {
      if !LevelFits(p.bids[k]) {
        return Err("cannot pack");
      }
      assert p.bids[..k + 1][..k] == p.bids[..k];
      levels := levels + LevelFrame(p.bids[k]);
    }
    assert p.bids[..|p.bids|] == p.bids;
    ghost var front := levels;
    for k := 0 to |p.asks|
      invariant levels == front + LevelFrames(p.asks[..k]) && LevelsFit(p.asks[..k])
    {
      if !LevelFits(p.asks[k]) {
        return Err("cannot pack");
      }
      assert p.asks[..k + 1][..k] == p.asks[..k];
      levels := levels + LevelFrame(p.asks[k]);
    }
    assert p.asks[..|p.asks|] == p.asks;
    assert header + levels == header + LevelFrames(p.bids) + LevelFrames(p.asks);
    r := Ok(header + levels);
  }

  // ---------- writing in C++ ----------

  /** Append one level at the offset. */
  method WriteLevel(output: array<Byte>, offset: nat, l: WireLevel, ghost done: seq<Byte>)
    requires offset + 16 <= output.Length && |done| == offset && Holds(output[..], done)
    modifies output
    ensures Holds(output[..], done + LevelFrame(l))
  {
    hide Big, Holds, Wrote;
    WriteU64(output, offset, l.price);
    WriteU32(output, offset + 8, l.quantity);
    assert Holds(output[..], done + Big(8, l.price) + Big(4, l.quantity));
    WriteU32(output, offset + 12, l.count);
    assert done + Big(8, l.price) + Big(4, l.quantity) + Big(4, l.count) == done + LevelFrame(l);
  }

  method WriteHeader(output: array<Byte>, n: NativeSnapshot)
    requires |n.symbol| == 6 && output.Length >= 32 && Holds(output[..], [])
    modifies output
    ensures Holds(output[..], Header(n.symbol, |n.bids|, |n.asks|, n.sequence, n.timestamp))
  {
    hide Big, Holds, Wrote;
    WriteBytes(output, 0, n.symbol);
    ghost var done := [] + n.symbol;
    WriteU16(output, 6, |n.bids|);
    done := done + Big(2, |n.bids|);
    WriteU16(output, 8, |n.asks|);
    done := done + Big(2, |n.asks|);
    assert Holds(output[..], done);
    Skip(output[..], done, 2);
    done := done + Zeros(2);
    WriteU32(output, 12, n.sequence);
    done := done + Big(4, n.sequence);
    assert Holds(output[..], done);
    WriteU64(output, 16, n.timestamp);
    done := done + Big(8, n.timestamp);
    Skip(output[..], done, 8);
    assert [] + n.symbol == n.symbol;
  }

  method NativeEncode(n: NativeSnapshot) returns (output: array<Byte>)
    requires |n.symbol| == 6
    ensures fresh(output) && output[..] == Frame(n)
  {
    hide Holds, Header, LevelFrame;
    output := new Byte[32 + (|n.bids| + |n.asks|) * 16](i => 0);
    Blank(output[..]);
    WriteHeader(output, n);
    ghost var header := Header(n.symbol, |n.bids|, |n.asks|, n.sequence, n.timestamp);
    var offset := 32;
    assert header + LevelFrames(n.bids[..0]) == header;
    for k := 0 to |n.bids|
      invariant offset == 32 + 16 * k && Holds(output[..], header + LevelFrames(n.bids[..k]))
    {
      WriteLevel(output, offset, n.bids[k], header + LevelFrames(n.bids[..k]));
      assert n.bids[..k + 1][..k] == n.bids[..k];
      assert header + LevelFrames(n.bids[..k]) + LevelFrame(n.bids[k]) == header + LevelFrames(n.bids[..k + 1]);
      offset := offset + 16;
    }
    assert n.bids[..|n.bids|] == n.bids;
    ghost var front := header + LevelFrames(n.bids);
    assert front + LevelFrames(n.asks[..0]) == front;
    for k := 0 to |n.asks|
      invariant offset == |front| + 16 * k && Holds(output[..], front + LevelFrames(n.asks[..k]))
    {
      WriteLevel(output, offset, n.asks[k], front + LevelFrames(n.asks[..k]));
      assert n.asks[..k + 1][..k] == n.asks[..k];
      assert front + LevelFrames(n.asks[..k]) + LevelFrame(n.asks[k]) == front + LevelFrames(n.asks[..k + 1]);
      offset := offset + 16;
    }
    assert n.asks[..|n.asks|] == n.asks;
    HoldsAll(output[..], Frame(n));
  }

  // ---------- round trips ----------

  lemma {:induction false} LevelSurvives(l: WireLevel, data: seq<Byte>, offset: nat)
    requires LevelFits(l) && offset + 16 <= |data| && data[offset..offset + 16] == LevelFrame(l)
    ensures ReadLevel(data, offset) == l
  {
    hide Big, Num, Pow, LevelFrame;
    var frame := LevelFrame(l);
    LevelFields(l);
    SubSlice(data, offset, 16, 0, 8);
    SubSlice(data, offset, 16, 8, 12);
    SubSlice(data, offset, 16, 12, 16);
    Pow8();
    NumBig(8, l.price);
    NumBig(4, l.quantity);
    NumBig(4, l.count);
  }

  lemma {:induction false} LevelFields(l: WireLevel)
    ensures var f := LevelFrame(l); f[..8] == Big(8, l.price) && f[8..12] == Big(4, l.quantity) && f[12..16] == Big(4, l.count)
  {
    hide Big;
  }

  /** Levels written in a row are read back in a row, wherever they stand. */
  lemma {:induction false} LevelsSurvive(ls: seq<WireLevel>, data: seq<Byte>, offset: nat)
    requires LevelsFit(ls) && offset + 16 * |ls| <= |data| && data[offset..offset + 16 * |ls|] == LevelFrames(ls)
    ensures ReadLevels(data, offset, |ls|) == ls
  {
    hide LevelFits, ReadLevel, LevelFrame;
    if ls != [] {
      var k := |ls| - 1;
      Cut(data, offset, LevelFrames(ls[..k]), LevelFrame(ls[k]));
      LevelsSurvive(ls[..k], data, offset);
      LevelSurvives(ls[k], data, offset + 16 * k);
    }
  }

  lemma {:induction false} HeaderFields(symbol: seq<Byte>, bids: nat, asks: nat, sequence: nat, timestamp: nat)
    requires |symbol| == 6
    ensures var h := Header(symbol, bids, asks, sequence, timestamp);
            && h[..6] == symbol && h[6..8] == Big(2, bids) && h[8..10] == Big(2, asks)
            && h[12..16] == Big(4, sequence) && h[16..24] == Big(8, timestamp)
  {
    hide Big, Zeros;
  }

  /** The frame's header and level blocks, at their places in data that begins with the frame. */
  lemma {:induction false} FrameFields(n: NativeSnapshot, extra: seq<Byte>)
    requires |n.symbol| == 6
    ensures var d := Frame(n) + extra; var b, a := 16 * |n.bids|, 16 * |n.asks|;
            && |d| >= 32 + b + a
            && d[..6] == n.symbol && d[6..8] == Big(2, |n.bids|) && d[8..10] == Big(2, |n.asks|)
            && d[12..16] == Big(4, n.sequence) && d[16..24] == Big(8, n.timestamp)
            && d[32..32 + b] == LevelFrames(n.bids) && d[32 + b..32 + b + a] == LevelFrames(n.asks)
  {
    hide Big, LevelFrames, Header;
    HeaderFields(n.symbol, |n.bids|, |n.asks|, n.sequence, n.timestamp);
    var h := Header(n.symbol, |n.bids|, |n.asks|, n.sequence, n.timestamp);
    var d := Frame(n) + extra;
    assert d[..32] == h;
    assert d[..6] == h[..6] && d[6..8] == h[6..8] && d[8..10] == h[8..10] && d[12..16] == h[12..16] && d[16..24] == h[16..24];
  }

  /** When counts and sequence fit, the frame decodes to the snapshot, whatever follows it. */
  lemma {:induction false} FrameDecodes(n: NativeSnapshot, extra: seq<Byte>)
    requires |n.symbol| == 6 && n.timestamp < Pow(8) && LevelsFit(n.bids) && LevelsFit(n.asks)
    requires HeaderFits(|n.bids|, |n.asks|, n.sequence) && DecodeSymbol(n.symbol).Ok?
    ensures Decode(Frame(n) + extra) == Ok(PySnapshot(DecodeSymbol(n.symbol).value, n.sequence, n.timestamp, n.bids, n.asks))
  {
    hide Big, Num, Pow, Frame, LevelFrames, ReadLevels, LevelsFit, DecodeSymbol;
    var d := Frame(n) + extra;
    FrameFields(n, extra);
    NumBig(2, |n.bids|);
    NumBig(2, |n.asks|);
    NumBig(4, n.sequence);
    NumBig(8, n.timestamp);
    LevelsSurvive(n.bids, d, 32);
    LevelsSurvive(n.asks, d, 32 + 16 * |n.bids|);
  }

  /** Python: decode after encode gives the snapshot back, its symbol in canonical form, for any number of levels. */
  lemma {:induction false} RoundTrip(p: PySnapshot, extra: seq<Byte>)
    requires Encode(p).Ok?
    ensures Decode(Encode(p).value + extra) == Ok(p.(symbol := CanonicalSymbol(p.symbol)))
  {
    hide Frame, EncodeSymbol, DecodeSymbol, Decode, CanonicalSymbol, LevelsFit, HeaderFits;
    SymbolRoundTrip(p.symbol);
    FrameDecodes(ToNative(p), extra);
  }

  /** A sequence that has outgrown the header arrives as its low 32 bits, the rest as it was. */
  lemma {:induction false} NativeDecodes(n: NativeSnapshot, extra: seq<Byte>)
    requires |n.symbol| == 6 && n.timestamp < Pow(8) && LevelsFit(n.bids) && LevelsFit(n.asks)
    requires |n.bids| < Pow(2) && |n.asks| < Pow(2) && DecodeSymbol(n.symbol).Ok?
    ensures Decode(Frame(n) + extra) == Ok(PySnapshot(DecodeSymbol(n.symbol).value, n.sequence % Pow(4), n.timestamp, n.bids, n.asks))
  {
    hide Decode, DecodeSymbol, LevelFrames, LevelsFit, Big, Pow;
    BigWraps(4, n.sequence);
    var cut := n.(sequence := n.sequence % Pow(4));
    assert Frame(cut) == Frame(n);
    FrameDecodes(cut, extra);
  }

  /** Whatever is decoded had counts and a sequence that fit their fields. */
  lemma {:induction false} DecodedFits(data: seq<Byte>)
    requires Decode(data).Ok?
    ensures var p := Decode(data).value; HeaderFits(|p.bids|, |p.asks|, p.sequence)
  {
    hide Num, Pow, ReadLevels, DecodeSymbol;
    NumBound(data[6..8]);
    NumBound(data[8..10]);
    NumBound(data[12..16]);
  }

  /**
   C++ to Python: a native frame decodes to the native snapshot exactly when its
   counts and its sequence fit the header. Beyond that C++ truncates silently.
   */
  lemma {:induction false} NativeSurvivesIff(n: NativeSnapshot)
    requires |n.symbol| == 6 && n.timestamp < Pow(8) && LevelsFit(n.bids) && LevelsFit(n.asks) && DecodeSymbol(n.symbol).Ok?
    ensures Decode(Frame(n)) == Ok(PySnapshot(DecodeSymbol(n.symbol).value, n.sequence, n.timestamp, n.bids, n.asks)) <==>
            HeaderFits(|n.bids|, |n.asks|, n.sequence)
  {
    hide Frame, Decode, DecodeSymbol, LevelsFit, HeaderFits, Pow;
    assert Frame(n) + [] == Frame(n);
    if HeaderFits(|n.bids|, |n.asks|, n.sequence) {
      FrameDecodes(n, []);
    } else if Decode(Frame(n)).Ok? {
      DecodedFits(Frame(n));
    }
  }

  /** A frame cut anywhere is refused, never read short. */
  lemma {:induction false} CutFrameRefused(n: NativeSnapshot, size: nat)
    requires |n.symbol| == 6 && HeaderFits(|n.bids|, |n.asks|, n.sequence) && size < |Frame(n)|
    ensures Decode(Frame(n)[..size]).Err?
  {
    hide Big, Num, Pow, Frame, LevelFrames, ReadLevels, DecodeSymbol;
    var d := Frame(n)[..size];
    FrameFields(n, []);
    assert Frame(n) + [] == Frame(n);
    if size >= 32 {
      assert d[6..8] == Frame(n)[6..8] && d[8..10] == Frame(n)[8..10];
      NumBig(2, |n.bids|);
      NumBig(2, |n.asks|);
    }
  }

  /** Both languages write the same bytes for the same fields: the frame determines them. */
  lemma {:induction false} SameBytesIff(p: PySnapshot, n: NativeSnapshot)
    requires Encode(p).Ok? && |n.symbol| == 6 && n.timestamp < Pow(8) && LevelsFit(n.bids) && LevelsFit(n.asks)
    requires HeaderFits(|n.bids|, |n.asks|, n.sequence)
    ensures Encode(p).value == Frame(n) <==> ToNative(p) == n
  {
    hide Big, Num, Pow, Frame, LevelFrames, EncodeSymbol, LevelsFit;
    if Encode(p).value == Frame(n) {
      FrameDetermines(ToNative(p), n);
    }
  }

  lemma {:induction false} FrameDetermines(m: NativeSnapshot, n: NativeSnapshot)
    requires |m.symbol| == 6 && m.timestamp < Pow(8) && LevelsFit(m.bids) && LevelsFit(m.asks) && HeaderFits(|m.bids|, |m.asks|, m.sequence)
    requires |n.symbol| == 6 && n.timestamp < Pow(8) && LevelsFit(n.bids) && LevelsFit(n.asks) && HeaderFits(|n.bids|, |n.asks|, n.sequence)
    requires Frame(m) == Frame(n)
    ensures m == n
  {
    hide Big, Num, Pow, Frame, LevelFrames, ReadLevels, LevelsFit;
    var d := Frame(m) + [];
    FrameFields(m, []);
    FrameFields(n, []);
    WordsDetermine(m, n);
    LevelsSurvive(m.bids, d, 32);
    LevelsSurvive(n.bids, d, 32);
    LevelsSurvive(m.asks, d, 32 + 16 * |m.bids|);
    LevelsSurvive(n.asks, d, 32 + 16 * |m.bids|);
  }

  lemma {:induction false} WordsDetermine(m: NativeSnapshot, n: NativeSnapshot)
    requires HeaderFits(|m.bids|, |m.asks|, m.sequence) && HeaderFits(|n.bids|, |n.asks|, n.sequence)
    requires m.timestamp < Pow(8) && n.timestamp < Pow(8)
    requires Big(2, |m.bids|) == Big(2, |n.bids|) && Big(2, |m.asks|) == Big(2, |n.asks|)
    requires Big(4, m.sequence) == Big(4, n.sequence) && Big(8, m.timestamp) == Big(8, n.timestamp)
    ensures |m.bids| == |n.bids| && |m.asks| == |n.asks| && m.sequence == n.sequence && m.timestamp == n.timestamp
  {
    hide Big, Num, Pow;
    NumBig(2, |m.bids|);
    NumBig(2, |n.bids|);
    NumBig(2, |m.asks|);
    NumBig(2, |n.asks|);
    NumBig(4, m.sequence);
    NumBig(4, n.sequence);
    NumBig(8, m.timestamp);
    NumBig(8, n.timestamp);
  }
}
