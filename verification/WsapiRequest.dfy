/**
 The record behind every WSAPI request id: 27 bytes, little-endian integers at fixed offsets,
 printed as 36 base64url characters.
 */
module WsapiRequest {
  import opened Wrappers
  import opened Base64Url

  type UInt32 = x: int | 0 <= x < 0x1_0000_0000
  type UInt64 = x: int | 0 <= x < 0x1_0000_0000_0000_0000

  // the values of the type byte
  const UNDEFINED_INTERNAL: Byte := 0
  const UNKNOWN_INTERNAL: Byte := 1
  const SESSION_LOGON: Byte := 2
  const USER_DATA_STREAM_START: Byte := 3
  const USER_DATA_STREAM_PING: Byte := 4
  const ACCOUNT_BALANCE: Byte := 5
  const ACCOUNT_STATUS: Byte := 6
  const ACCOUNT_POSITION: Byte := 7
  const ORDERS_STATUS: Byte := 8
  const OPEN_ORDERS_CANCEL_ALL: Byte := 9
  const ORDER_PLACE: Byte := 10
  const ORDER_CANCEL: Byte := 11
  const ORDER_MODIFY: Byte := 12
  const MY_TRADES: Byte := 13

  datatype Request = Request(
    sequence: UInt32, kind: Byte, userId: Byte, orderId: UInt64, version: UInt32, orderId2: UInt64)

  // little-endian integers

  function Pow256(n: nat): (p: nat)
    ensures p > 0
  {
    if n == 0 then 1 else 256 * Pow256(n - 1)
  }

  lemma Pow256Values()
    ensures Pow256(4) == 0x1_0000_0000
    ensures Pow256(8) == 0x1_0000_0000_0000_0000
  {
    assert Pow256(2) == 0x1_0000;
    assert Pow256(6) == 0x1_0000_0000_0000;
  }

  function LittleEndian(value: nat, width: nat): (b: seq<Byte>)
    ensures |b| == width
  {
    if width == 0 then [] else [value % 256] + LittleEndian(value / 256, width - 1)
  }

  function FromLittleEndian(b: seq<Byte>): (value: nat)
    ensures value < Pow256(|b|)
  {
    if b == [] then 0 else b[0] + 256 * FromLittleEndian(b[1..])
  }

  lemma {:induction false} LittleEndianRoundTrip(value: nat, width: nat)
    requires value < Pow256(width)
    ensures FromLittleEndian(LittleEndian(value, width)) == value
  {
    if width == 0 {
    } else {
      LittleEndianRoundTrip(value / 256, width - 1);
      assert LittleEndian(value, width)[1..] == LittleEndian(value / 256, width - 1);
    }
  }

  lemma LowByte(low: Byte, high: nat)
    ensures (low + 256 * high) % 256 == low && (low + 256 * high) / 256 == high
  {
  }

  lemma {:induction false} LittleEndianSurjective(b: seq<Byte>)
    ensures LittleEndian(FromLittleEndian(b), |b|) == b
  {
    if b == [] {
    } else {
      var low, high := b[0], FromLittleEndian(b[1..]);
      LittleEndianSurjective(b[1..]);
      LowByte(low, high);
      assert LittleEndian(low + 256 * high, |b|) == [low] + LittleEndian(high, |b| - 1);
      assert b == [b[0]] + b[1..];
    }
  }

  function ReadUInt32(b: seq<Byte>): UInt32
    requires |b| == 4
  {
    Pow256Values();
    FromLittleEndian(b)
  }

  function ReadUInt64(b: seq<Byte>): UInt64
    requires |b| == 8
  {
    Pow256Values();
    FromLittleEndian(b)
  }

  // the record

  function Layout(r: Request): (b: seq<Byte>)
    ensures |b| == 27
  {
    LittleEndian(r.sequence, 4) + [r.kind, r.userId] + LittleEndian(r.orderId, 8)
    + LittleEndian(r.version, 4) + LittleEndian(r.orderId2, 8) + [0]
  }

  function Unpack(b: seq<Byte>): Request
    requires |b| == 27
  {
    Request(ReadUInt32(b[0..4]), b[4], b[5], ReadUInt64(b[6..14]), ReadUInt32(b[14..18]), ReadUInt64(b[18..26]))
  }

  function IdOf(r: Request): string {
    Base64Url.Encode(Layout(r))
  }

  function Parse(id: string): Result<Request> {
    if |id| != 36 then Failure(UnexpectedLength)
    else
      match Base64Url.Decode(id)
      case Failure(e) => Failure(e)
      case Success(b) => Success(Unpack(b))
  }

  lemma UnpackLayout(r: Request)
    ensures Unpack(Layout(r)) == r
  {
    Pow256Values();
    LittleEndianRoundTrip(r.sequence, 4);
    LittleEndianRoundTrip(r.orderId, 8);
    LittleEndianRoundTrip(r.version, 4);
    LittleEndianRoundTrip(r.orderId2, 8);
    Slices(LittleEndian(r.sequence, 4), r.kind, r.userId, LittleEndian(r.orderId, 8),
           LittleEndian(r.version, 4), LittleEndian(r.orderId2, 8));
  }

  lemma Slices(s: seq<Byte>, kind: Byte, user: Byte, o: seq<Byte>, v: seq<Byte>, o2: seq<Byte>)
    requires |s| == |v| == 4 && |o| == |o2| == 8
    ensures var b := s + [kind, user] + o + v + o2 + [0];
            b[0..4] == s && b[4] == kind && b[5] == user && b[6..14] == o && b[14..18] == v && b[18..26] == o2
  {
  }

  lemma LayoutUnpack(b: seq<Byte>)
    requires |b| == 27
    ensures Layout(Unpack(b)) == b[..26] + [0]
  {
    LittleEndianSurjective(b[0..4]);
    LittleEndianSurjective(b[6..14]);
    LittleEndianSurjective(b[14..18]);
    LittleEndianSurjective(b[18..26]);
    assert b[..26] == b[0..4] + [b[4], b[5]] + b[6..14] + b[14..18] + b[18..26];
  }

  /** An id always decodes to the record it was made from. */
  lemma RoundTrip(r: Request)
    ensures Parse(IdOf(r)) == Success(r)
  {
    DecodeEncode(Layout(r));
    UnpackLayout(r);
  }

  /** The exchange accepts ^[a-zA-Z0-9-_]{1,36}$: every id has exactly 36 such characters. */
  lemma IdShape(r: Request)
    ensures |IdOf(r)| == 36 && AllInAlphabet(IdOf(r)) && '=' !in IdOf(r)
  {
    EncodeShape(Layout(r));
  }

  /** Exactly the texts of 36 alphabet characters decode to a record. */
  lemma ParseSucceeds(id: string)
    ensures Parse(id).Success? <==> |id| == 36 && AllInAlphabet(id)
  {
  }

  lemma Injective(r: Request, q: Request)
    ensures IdOf(r) == IdOf(q) <==> r == q
  {
    RoundTrip(r);
    RoundTrip(q);
  }

  /** A decodable text is an id this gateway can produce exactly when its unused last byte is zero. */
  lemma ReEncode(id: string)
    requires |id| == 36 && AllInAlphabet(id)
    ensures IdOf(Parse(id).value) == id <==> Base64Url.Decode(id).value[26] == 0
  {
    hide Layout, Unpack, LittleEndian, Base64Url.Encode;
    var b := Base64Url.Decode(id).value;
    EncodeDecode(id, b);
    EncodeDecode(id, Layout(Unpack(b)));
    LayoutUnpack(b);
    hide Base64Url.Decode;
    LastByte(b);
  }

  lemma LastByte(b: seq<Byte>)
    requires |b| == 27
    ensures b == b[..26] + [0] <==> b[26] == 0
  {
    assert b == b[..26] + [b[26]];
  }

  /**
   An id recorded from the exchange, "hoQeAAsCoos3B0UAAAACAAAAAAAAAAAAAAAA", fixes the byte order, the
   offsets and the numbering of the types.
   */
  lemma RecordedId(id: string)
    requires RecordedBlocks(id)
    ensures Parse(id) == Success(Request(2_000_006, ORDER_CANCEL, 2, 0x45_0737_8BA2, 2, 0))
  {
    var b := TheRecordedBytes();
    RecordedText(b);
    SameBlocks(id, Base64Url.Encode(b));
    EncodeDecode(id, b);
    RecordedFields(b);
  }

  ghost predicate RecordedBlocks(id: string) {
    && |id| == 36
    && id[0..4] == "hoQe" && id[4..8] == "AAsC" && id[8..12] == "oos3" && id[12..16] == "B0UA" && id[16..20] == "AAAC"
    && forall i :: 5 <= i < 9 ==> id[4 * i..4 * i + 4] == "AAAA"
  }

  ghost predicate RecordedBytes(b: seq<Byte>) {
    && |b| == 27 && b[0] == 0x86 && b[1] == 0x84 && b[2] == 0x1E && b[3] == 0 && b[4] == ORDER_CANCEL && b[5] == 2
    && b[6] == 0xA2 && b[7] == 0x8B && b[8] == 0x37 && b[9] == 7 && b[10] == 0x45 && b[14] == 2
    && forall i :: 11 <= i < 27 && i != 14 ==> b[i] == 0
  }

  lemma TheRecordedBytes() returns (b: seq<Byte>)
    ensures RecordedBytes(b)
  {
    b := [0x86, 0x84, 0x1E, 0, ORDER_CANCEL, 2, 0xA2, 0x8B, 0x37, 7, 0x45] + [0, 0, 0, 2] + seq(12, _ => 0);
  }

  lemma SameBlocks(s: string, t: string)
    requires RecordedBlocks(s) && RecordedBlocks(t)
    ensures s == t
  {
    forall k | 0 <= k < 36 ensures s[k] == t[k] {
      var i := k / 4;
      assert s[k] == s[4 * i..4 * i + 4][k % 4] && t[k] == t[4 * i..4 * i + 4][k % 4];
    }
  }

  lemma RecordedFields(b: seq<Byte>)
    requires RecordedBytes(b)
    ensures Unpack(b) == Request(2_000_006, ORDER_CANCEL, 2, 0x45_0737_8BA2, 2, 0)
  {
    assert b[0..4] == [0x86, 0x84, 0x1E, 0];
    assert b[6..14] == [0xA2, 0x8B, 0x37, 7, 0x45, 0, 0, 0];
    assert b[14..18] == [2, 0, 0, 0];
    assert b[18..26] == [0, 0, 0, 0, 0, 0, 0, 0];
    RecordedValues();
  }

  lemma RecordedValues()
    ensures FromLittleEndian([0x86, 0x84, 0x1E, 0]) == 2_000_006
    ensures FromLittleEndian([0xA2, 0x8B, 0x37, 7, 0x45, 0, 0, 0]) == 0x45_0737_8BA2
    ensures FromLittleEndian([2, 0, 0, 0]) == 2 && FromLittleEndian([0, 0, 0, 0, 0, 0, 0, 0]) == 0
  {
  }

  lemma RecordedText(b: seq<Byte>)
    requires RecordedBytes(b)
    ensures RecordedBlocks(Base64Url.Encode(b))
  {
    hide Sextets, Text, Base64Url.Encode;
    RecordedSextets();
    EncodeBlock(b, 0);
    EncodeBlock(b, 1);
    EncodeBlock(b, 2);
    EncodeBlock(b, 3);
    EncodeBlock(b, 4);
    forall i | 5 <= i < 9 ensures Base64Url.Encode(b)[4 * i..4 * i + 4] == "AAAA" {
      EncodeBlock(b, i);
    }
  }

  lemma RecordedSextets()
    ensures Text(Sextets(0x86, 0x84, 0x1E)) == "hoQe" && Text(Sextets(0, ORDER_CANCEL, 2)) == "AAsC"
    ensures Text(Sextets(0xA2, 0x8B, 0x37)) == "oos3" && Text(Sextets(7, 0x45, 0)) == "B0UA"
    ensures Text(Sextets(0, 0, 2)) == "AAAC" && Text(Sextets(0, 0, 0)) == "AAAA"
  {
    hide Sextets, Text;
    BlockText(0x86, 0x84, 0x1E, "hoQe");
    BlockText(0, ORDER_CANCEL, 2, "AAsC");
    BlockText(0xA2, 0x8B, 0x37, "oos3");
    BlockText(7, 0x45, 0, "B0UA");
    BlockText(0, 0, 2, "AAAC");
    BlockText(0, 0, 0, "AAAA");
  }

  lemma BlockText(b0: Byte, b1: Byte, b2: Byte, text: string)
    requires |text| == 4 && text[0] == DigitToChar(b0 / 4) && text[1] == DigitToChar(b0 % 4 * 16 + b1 / 16)
    requires text[2] == DigitToChar(b1 % 16 * 4 + b2 / 64) && text[3] == DigitToChar(b2 % 64)
    ensures Text(Sextets(b0, b1, b2)) == text
  {
    hide DigitToChar;
  }

  // the codec, on the fixed array of 27 bytes

  /** A record with some bytes written over it. */
  ghost function Overwrite(record: seq<Byte>, offset: nat, bytes: seq<Byte>): seq<Byte>
    requires offset + |bytes| <= |record|
  {
    record[..offset] + bytes + record[offset + |bytes|..]
  }

  lemma OverwriteNext(record: seq<Byte>, offset: nat, bytes: seq<Byte>, x: Byte)
    requires offset + |bytes| < |record|
    ensures |Overwrite(record, offset, bytes)| == |record|
    ensures Overwrite(record, offset, bytes)[offset + |bytes| := x] == Overwrite(record, offset, bytes + [x])
  {
  }

  lemma OverwriteNothing(record: seq<Byte>, offset: nat)
    requires offset <= |record|
    ensures Overwrite(record, offset, []) == record
  {
  }

  /** memcpy of a little-endian integer to an offset of the record. */
  method CopyInteger(data: array<Byte>, offset: nat, value: nat, width: nat)
    requires offset + width <= data.Length
    modifies data
    ensures data[..] == old(data[..offset]) + LittleEndian(value, width) + old(data[offset + width..])
  {
    ghost var before := data[..];
    WriteBytes(data, offset, value, width);
    assert before[..offset] == old(data[..offset]) && before[offset + width..] == old(data[offset + width..]);
    hide LittleEndian;
  }

  method WriteBytes(data: array<Byte>, offset: nat, value: nat, width: nat)
    requires offset + width <= data.Length
    modifies data
    ensures data[..] == Overwrite(old(data[..]), offset, LittleEndian(value, width))
  {
    hide LittleEndian, Overwrite;
    var rest, i := value, 0;
    ghost var before, written: seq<Byte> := data[..], [];
    OverwriteNothing(before, offset);
    while i < width
      invariant 0 <= i <= width && |written| == i
      invariant data[..] == Overwrite(before, offset, written)
      invariant written + LittleEndian(rest, width - i) == LittleEndian(value, width)
    {
      NextByte(written, rest, width - i);
      OverwriteNext(before, offset, written, rest % 256);
      Put(data, offset + i, rest % 256);
      written := written + [rest % 256];
      rest, i := rest / 256, i + 1;
    }
    assert written + [] == written;
  }

  method Put(data: array<Byte>, at: nat, x: Byte)
    requires at < data.Length
    modifies data
    ensures data[..] == old(data[..])[at := x]
  {
    data[at] := x;
  }

  lemma NextByte(written: seq<Byte>, rest: nat, width: nat)
    requires width > 0
    ensures written + LittleEndian(rest, width) == written + [rest % 256] + LittleEndian(rest / 256, width - 1)
  {
  }

  method Encode(r: Request) returns (id: string)
    ensures id == IdOf(r)
  {
    var data := new Byte[27];
    CopyInteger(data, 0, r.sequence, 4);
    data[4] := r.kind;
    data[5] := r.userId;
    ghost var head := LittleEndian(r.sequence, 4) + [r.kind, r.userId];
    assert data[..6] == head;
    CopyInteger(data, 6, r.orderId, 8);
    head := head + LittleEndian(r.orderId, 8);
    assert data[..14] == head;
    CopyInteger(data, 14, r.version, 4);
    head := head + LittleEndian(r.version, 4);
    assert data[..18] == head;
    CopyInteger(data, 18, r.orderId2, 8);
    head := head + LittleEndian(r.orderId2, 8);
    assert data[..26] == head;
    data[26] := 0;
    assert data[..] == data[..26] + [0];
    id := Base64Url.Encode(data[..]);
  }

  method Decode(buffer: string) returns (r: Result<Request>)
    ensures r == Parse(buffer)
  {
    if |buffer| != 36 {
      return Failure(UnexpectedLength);
    }
    var decoded := Base64Url.Decode(buffer);
    if decoded.Failure? {
      return Failure(decoded.error);
    }
    var data := new Byte[27](i requires 0 <= i < 27 => decoded.value[i]);
    assert data[..] == decoded.value;
    var sequence := ReadUInt32(data[0..4]);
    var kind := data[4];
    var userId := data[5];
    var orderId := ReadUInt64(data[6..14]);
    var version := ReadUInt32(data[14..18]);
    var orderId2 := ReadUInt64(data[18..26]);
    r := Success(Request(sequence, kind, userId, orderId, version, orderId2));
  }
}
