/** The 76-byte-header message format: `pack_message`, `unpack_message`, `make_message`. */
module Codec {
  import opened Bytes

  const MAX_USERNAME_LEN := 32
  const MAX_PAYLOAD_LEN := 1024
  const HEADER_SIZE := 76

  const MSG_REGISTER := 0x01
  const MSG_DISCOVER := 0x02
  const MSG_DISCOVER_RESP := 0x03
  const MSG_VALIDATE := 0x04
  const MSG_LOGIN := 0x10
  const MSG_LOGOUT := 0x11
  const MSG_BROADCAST := 0x20
  const MSG_PRIVATE := 0x21
  const MSG_LIST_USERS := 0x30
  const MSG_USER_LIST := 0x31
  const MSG_ACK := 0x40
  const MSG_ERROR := 0x41
  const MSG_HISTORY_REQ := 0x50
  const MSG_HISTORY_RESP := 0x51
  const MSG_STATUS_CHANGE := 0x52

  /** The `Message` struct, its arrays at their full size. `kind` is the enum value as the
      compiler stores it, which need not fit in the byte sent. */
  datatype RawMessage = Message(
    kind: nat,
    status: Byte,
    sender: seq<Byte>,
    receiver: seq<Byte>,
    timestamp: int,
    payloadLen: int,
    payload: seq<Byte>)

  const TWO_TO_64 := 0x1_0000_0000_0000_0000

  /** Seconds since the epoch, as `time` returns them. */
  type Time = t: int | 0 <= t < TWO_TO_64

  predicate Sized(m: RawMessage) {
    && |m.sender| == MAX_USERNAME_LEN
    && |m.receiver| == MAX_USERNAME_LEN
    && 0 <= m.timestamp < TWO_TO_64
    && 0 <= m.payloadLen < 0x1_0000
    && |m.payload| == MAX_PAYLOAD_LEN
  }

  type Message = m: RawMessage | Sized(m)
    witness RawMessage.Message(0, 0, seq(32, i => 0), seq(32, i => 0), 0, 0, seq(1024, i => 0))

  datatype Option<+T> = None | Some(value: T)

  // ---------- 64-bit and 16-bit big-endian fields ----------

  function U64Bytes(v: int): (b: seq<Byte>)
    requires 0 <= v < TWO_TO_64
    ensures |b| == 8
  {
    [ v / 0x100_0000_0000_0000 % 256,
      v / 0x1_0000_0000_0000 % 256,
      v / 0x100_0000_0000 % 256,
      v / 0x1_0000_0000 % 256,
      v / 0x100_0000 % 256,
      v / 0x1_0000 % 256,
      v / 0x100 % 256,
      v % 256]
  }

  function ReadU64(b: seq<Byte>): (v: int)
    requires |b| == 8
    ensures 0 <= v < TWO_TO_64
  {
    var c: seq<int> := b;
    c[0] * 0x100_0000_0000_0000 + c[1] * 0x1_0000_0000_0000 + c[2] * 0x100_0000_0000 + c[3] * 0x1_0000_0000
    + c[4] * 0x100_0000 + c[5] * 0x1_0000 + c[6] * 0x100 + c[7]
  }

  /** The value of bytes read as a numeral, most significant first. */
  function Numeral(b: seq<Byte>): nat {
    if b == [] then 0 else Numeral(b[..|b| - 1]) * 256 + b[|b| - 1]
  }

  /** The bytes on the wire are the numeral of the value, most significant byte first. */
  lemma U64IsNumeral(v: int, b: seq<Byte>)
    requires 0 <= v < TWO_TO_64
    requires |b| == 8
    ensures Numeral(U64Bytes(v)) == v
    ensures ReadU64(b) == Numeral(b)
  {
    EightDigits(b);
    EightDigits(U64Bytes(v));
    U64RoundTrip(v, b);
  }

  lemma EightDigits(b: seq<Byte>)
    requires |b| == 8
    ensures ReadU64(b) == Numeral(b)
  {
    assert b[..7][..6] == b[..6] && b[..6][..5] == b[..5] && b[..5][..4] == b[..4];
    assert b[..4][..3] == b[..3] && b[..3][..2] == b[..2] && b[..2][..1] == b[..1] && b[..1][..0] == [];
    assert Numeral(b[..1]) == b[0];
    assert Numeral(b[..2]) == Numeral(b[..1]) * 256 + b[1];
    assert Numeral(b[..3]) == Numeral(b[..2]) * 256 + b[2];
    assert Numeral(b[..4]) == Numeral(b[..3]) * 256 + b[3];
    assert Numeral(b[..5]) == Numeral(b[..4]) * 256 + b[4];
    assert Numeral(b[..6]) == Numeral(b[..5]) * 256 + b[5];
    assert Numeral(b[..7]) == Numeral(b[..6]) * 256 + b[6];
  }

  /** Timestamps survive the trip in both directions, for every 64-bit value and every 8 bytes. */
  lemma U64RoundTrip(v: int, b: seq<Byte>)
    requires 0 <= v < TWO_TO_64
    requires |b| == 8
    ensures ReadU64(U64Bytes(v)) == v
    ensures U64Bytes(ReadU64(b)) == b
  {
    DivChain(v);
    BytesOfSum(b);
  }

  lemma DivChain(v: int)
    requires 0 <= v < TWO_TO_64
    ensures ReadU64(U64Bytes(v)) == v
  {
    DivStep(v, 0x100);
    DivStep(v, 0x1_0000);
    DivStep(v, 0x100_0000);
    DivStep(v, 0x1_0000_0000);
    DivStep(v, 0x100_0000_0000);
    DivStep(v, 0x1_0000_0000_0000);
    assert v / 0x100_0000_0000_0000 < 256;
  }

  /** Dividing by 256 once more. */
  lemma DivStep(v: int, k: int)
    requires v >= 0 && k > 0
    ensures v / (k * 256) == v / k / 256
  {
    var q := v / k;
    var r := q / 256;
    assert v == q * k + v % k && q == r * 256 + q % 256;
    assert v == r * (k * 256) + ((q % 256) * k + v % k);
    assert 0 <= (q % 256) * k + v % k < 256 * k;
    DivUnique(v, k * 256, r, (q % 256) * k + v % k);
  }

  lemma DivUnique(v: int, d: int, q: int, rest: int)
    requires d > 0 && v == q * d + rest && 0 <= rest < d
    ensures v / d == q
  {
    var e := v / d;
    assert v == e * d + v % d;
    if e > q {
      AtLeastOnce(e, q, d);
    } else if e < q {
      AtLeastOnce(q, e, d);
    }
  }

  lemma AtLeastOnce(a: int, b: int, d: int)
    requires a > b && d > 0
    ensures a * d >= b * d + d
  {
    var n := a - b - 1;
    assert a * d == b * d + d + n * d;
  }

  lemma BytesOfSum(b: seq<Byte>)
    requires |b| == 8
    ensures U64Bytes(ReadU64(b)) == b
  {
    var c: seq<int> := b;
    var h2 := c[0] * 256 + c[1];
    var h3 := h2 * 256 + c[2];
    var h4 := h3 * 256 + c[3];
    var h5 := h4 * 256 + c[4];
    var h6 := h5 * 256 + c[5];
    var h7 := h6 * 256 + c[6];
    var v := h7 * 256 + c[7];
    assert ReadU64(b) == v;
    assert v / 256 == h7 && h7 / 256 == h6 && h6 / 256 == h5 && h5 / 256 == h4;
    assert h4 / 256 == h3 && h3 / 256 == h2 && h2 / 256 == c[0];
    assert v / 0x1_0000 == h6 && v / 0x100_0000 == h5 && v / 0x1_0000_0000 == h4;
    assert v / 0x100_0000_0000 == h3 && v / 0x1_0000_0000_0000 == h2 && v / 0x100_0000_0000_0000 == c[0];
  }

  // ---------- pack ----------

  function ClippedLen(m: Message): (n: nat)
    ensures n <= MAX_PAYLOAD_LEN
  {
    Min(m.payloadLen, MAX_PAYLOAD_LEN)
  }

  function Header(m: Message): (h: seq<Byte>)
    ensures |h| == HEADER_SIZE
  {
    [m.kind % 256, m.status]
    + Field(m.sender, MAX_USERNAME_LEN)
    + Field(m.receiver, MAX_USERNAME_LEN)
    + U64Bytes(m.timestamp)
    + [ClippedLen(m) / 256, ClippedLen(m) % 256]
  }

  /** The frame of a message. */
  function Pack(m: Message): (w: seq<Byte>)
    ensures |w| == HEADER_SIZE + ClippedLen(m)
  {
    Header(m) + m.payload[..ClippedLen(m)]
  }

  /** `pack_message`: writes the frame at the start of `buf` and nothing past it. */
  method PackMessage(m: Message, buf: array<Byte>) returns (total: nat)
    requires buf.Length >= HEADER_SIZE + ClippedLen(m)
    modifies buf
    ensures total == |Pack(m)|
    ensures buf[..total] == Pack(m)
    ensures forall i :: total <= i < buf.Length ==> buf[i] == old(buf[i])
  {
    hide Header;
    var offset := PackFront(m, buf);
    WriteU64(buf, offset, m.timestamp);
    offset := offset + 8;
    var plen := if m.payloadLen <= MAX_PAYLOAD_LEN then m.payloadLen else MAX_PAYLOAD_LEN;
    PutByte(buf, offset, plen / 256 % 256);
    offset := offset + 1;
    PutByte(buf, offset, plen % 256);
    offset := offset + 1;
    assert buf[..offset] == Header(m) by {
      HeaderParts(m);
    }
    if plen > 0 {
      MemCpy(buf, offset, m.payload[..plen]);
    }
    offset := offset + plen;
    total := offset;
  }

  /** The header up to the names. */
  function Front(m: Message): (f: seq<Byte>)
    ensures |f| == 66
  {
    [m.kind % 256, m.status] + Field(m.sender, MAX_USERNAME_LEN) + Field(m.receiver, MAX_USERNAME_LEN)
  }

  lemma HeaderParts(m: Message)
    ensures Header(m) == Front(m) + U64Bytes(m.timestamp) + [ClippedLen(m) / 256 % 256] + [ClippedLen(m) % 256]
  {
    hide Field, U64Bytes;
  }

  method PackFront(m: Message, buf: array<Byte>) returns (offset: nat)
    requires buf.Length >= HEADER_SIZE
    modifies buf
    ensures offset == 66
    ensures buf[..offset] == Front(m)
    ensures forall i :: offset <= i < buf.Length ==> buf[i] == old(buf[i])
  {
    hide Field;
    offset := 0;
    PutByte(buf, offset, m.kind % 256);
    offset := offset + 1;
    PutByte(buf, offset, m.status);
    offset := offset + 1;
    assert buf[..offset] == [m.kind % 256, m.status];
    PutName(buf, offset, m.sender);
    offset := offset + MAX_USERNAME_LEN;
    PutName(buf, offset, m.receiver);
    offset := offset + MAX_USERNAME_LEN;
  }

  /** `buf[off] = b`. */
  method PutByte(buf: array<Byte>, off: nat, b: Byte)
    requires off < buf.Length
    modifies buf
    ensures buf[..off + 1] == old(buf[..off]) + [b]
    ensures forall i :: off + 1 <= i < buf.Length ==> buf[i] == old(buf[i])
  {
    buf[off] := b;
  }

  /** One name field: cleared, then at most 31 bytes copied into it. */
  method PutName(buf: array<Byte>, off: nat, name: seq<Byte>)
    requires off + MAX_USERNAME_LEN <= buf.Length
    modifies buf
    ensures buf[..off + MAX_USERNAME_LEN] == old(buf[..off]) + Field(name, MAX_USERNAME_LEN)
    ensures forall i :: off + MAX_USERNAME_LEN <= i < buf.Length ==> buf[i] == old(buf[i])
  {
    var n := MAX_USERNAME_LEN;
    MemSet(buf, off, n);
    StrNCpy(buf, off, name, n - 1);
    assert buf[..off + n] == buf[..off + n - 1] + [0];
  }

  /** `memset(buf + off, 0, n)`. */
  method MemSet(buf: array<Byte>, off: nat, n: nat)
    requires off + n <= buf.Length
    modifies buf
    ensures buf[..off] == old(buf[..off])
    ensures forall i :: off <= i < off + n ==> buf[i] == 0
    ensures forall i :: off + n <= i < buf.Length ==> buf[i] == old(buf[i])
  {
    forall i | off <= i < off + n {
      buf[i] := 0;
    }
  }

  /** `write_u64_be`. */
  method WriteU64(buf: array<Byte>, off: nat, v: int)
    requires off + 8 <= buf.Length
    requires 0 <= v < TWO_TO_64
    modifies buf
    ensures buf[..off + 8] == old(buf[..off]) + U64Bytes(v)
    ensures forall i :: off + 8 <= i < buf.Length ==> buf[i] == old(buf[i])
  {
    buf[off] := v / 0x100_0000_0000_0000 % 256;
    buf[off + 1] := v / 0x1_0000_0000_0000 % 256;
    buf[off + 2] := v / 0x100_0000_0000 % 256;
    buf[off + 3] := v / 0x1_0000_0000 % 256;
    buf[off + 4] := v / 0x100_0000 % 256;
    buf[off + 5] := v / 0x1_0000 % 256;
    buf[off + 6] := v / 0x100 % 256;
    buf[off + 7] := v % 256;
    assert buf[..off] == old(buf[..off]);
    assert buf[off..off + 8] == U64Bytes(v);
    assert buf[..off + 8] == buf[..off] + buf[off..off + 8];
  }

  // ---------- unpack ----------

  /** The payload length announced by a header. */
  function PLen(w: seq<Byte>): (n: nat)
    requires |w| >= HEADER_SIZE
    ensures n < 0x1_0000
  {
    (w[74] as int) * 256 + w[75]
  }

  function Unpack(w: seq<Byte>): Option<Message> {
    if |w| < HEADER_SIZE || PLen(w) > MAX_PAYLOAD_LEN || (PLen(w) > 0 && |w| < HEADER_SIZE + PLen(w)) then
      None
    else
      Some(RawMessage.Message(
             w[0], w[1],
             w[2..33] + [0],
             w[34..65] + [0],
             ReadU64(w[66..74]),
             PLen(w),
             w[HEADER_SIZE..HEADER_SIZE + PLen(w)] + Zeros(MAX_PAYLOAD_LEN - PLen(w))))
  }

  lemma Slice(a: seq<Byte>, n: nat, i: nat, j: nat)
    requires i <= j <= n <= |a|
    ensures a[..n][i..j] == a[i..j]
  {
  }

  /** `unpack_message`: the C return code 0 is `Some`, -1 is `None`. */
  method UnpackMessage(buf: array<Byte>, bufLen: nat) returns (r: Option<Message>)
    requires bufLen <= buf.Length
    ensures r == Unpack(buf[..bufLen])
  {
    if bufLen < HEADER_SIZE {
      return None;
    }
    hide ReadU64, Zeros;
    ghost var w := buf[..bufLen];
    Slice(buf[..], bufLen, 2, 33);
    Slice(buf[..], bufLen, 34, 65);
    Slice(buf[..], bufLen, 66, 74);
    var offset := 0;
    var kind := buf[offset];
    offset := offset + 1;
    var status := buf[offset];
    offset := offset + 1;
    var sender := buf[offset..offset + MAX_USERNAME_LEN];
    offset := offset + MAX_USERNAME_LEN;
    var receiver := buf[offset..offset + MAX_USERNAME_LEN];
    offset := offset + MAX_USERNAME_LEN;
    sender := sender[MAX_USERNAME_LEN - 1 := 0];
    receiver := receiver[MAX_USERNAME_LEN - 1 := 0];
    assert sender == buf[2..33] + [0];
    assert receiver == buf[34..65] + [0];
    var timestamp := ReadU64(buf[offset..offset + 8]);
    offset := offset + 8;
    var plen := (buf[offset] as int) * 256 + buf[offset + 1];
    offset := offset + 2;
    if plen > MAX_PAYLOAD_LEN {
      return None;
    }
    var payload := Zeros(MAX_PAYLOAD_LEN);
    if plen > 0 {
      if bufLen < HEADER_SIZE + plen {
        return None;
      }
      payload := buf[offset..offset + plen] + payload[plen..];
      assert buf[offset..offset + plen] == w[HEADER_SIZE..HEADER_SIZE + plen];
    }
    assert payload == w[HEADER_SIZE..HEADER_SIZE + plen] + Zeros(MAX_PAYLOAD_LEN - plen);
    r := Some(RawMessage.Message(kind, status, sender, receiver, timestamp, plen, payload));
  }

  // ---------- what the round trip does to a message ----------

  /** A message all of whose bytes are carried by its frame. */
  predicate Canonical(m: Message) {
    && m.kind < 256
    && Clean(m.sender)
    && Clean(m.receiver)
    && m.payloadLen <= MAX_PAYLOAD_LEN
    && forall i :: m.payloadLen <= i < MAX_PAYLOAD_LEN ==> m.payload[i] == 0
  }

  /** The canonical message with the same visible content. */
  function Normal(m: Message): Message {
    RawMessage.Message(
      m.kind % 256, m.status,
      Field(m.sender, MAX_USERNAME_LEN),
      Field(m.receiver, MAX_USERNAME_LEN),
      m.timestamp,
      ClippedLen(m),
      m.payload[..ClippedLen(m)] + Zeros(MAX_PAYLOAD_LEN - ClippedLen(m)))
  }

  /** Normalising fixes exactly the canonical messages and always yields one. */
  lemma NormalCanonical(m: Message)
    ensures Canonical(Normal(m))
    ensures Normal(m) == m <==> Canonical(m)
    ensures Normal(Normal(m)) == Normal(m)
  {
    NormalFixesCanonical(m);
    var n := Normal(m);
    FieldStable(m.sender, MAX_USERNAME_LEN);
    FieldStable(m.receiver, MAX_USERNAME_LEN);
    CleanIffField(n.sender);
    CleanIffField(n.receiver);
    NormalFixesCanonical(n);
  }

  lemma NormalFixesCanonical(m: Message)
    ensures Normal(m) == m <==> Canonical(m)
  {
    CleanIffField(m.sender);
    CleanIffField(m.receiver);
    var k := ClippedLen(m);
    var p := m.payload[..ClippedLen(m)] + Zeros(MAX_PAYLOAD_LEN - k);
    if Canonical(m) {
      assert p == m.payload;
    }
    if Normal(m) == m {
      assert forall i :: k <= i < MAX_PAYLOAD_LEN ==> p[i] == 0;
    }
  }

  /** Unpacking a packed message gives its normal form, for every message. */
  lemma PackUnpack(m: Message)
    ensures Unpack(Pack(m)) == Some(Normal(m))
  {
    hide Pack, Field, U64Bytes, ReadU64, Zeros;
    var w := Pack(m);
    var k := ClippedLen(m);
    PackParts(m);
    FieldEnds(m.sender, MAX_USERNAME_LEN);
    FieldEnds(m.receiver, MAX_USERNAME_LEN);
    assert w[2..33] == w[2..34][..31] && w[34..65] == w[34..66][..31];
    assert w[74] == w[74..76][0] && w[75] == w[74..76][1];
    assert PLen(w) == k;
    assert w[HEADER_SIZE..HEADER_SIZE + k] == w[76..];
    U64RoundTrip(m.timestamp, w[66..74]);
  }

  lemma FieldEnds(src: seq<Byte>, n: nat)
    requires n > 0
    ensures Field(src, n)[..n - 1] + [0] == Field(src, n)
  {
  }

  /** Packing sees a message only through its normal form. */
  lemma PackNormal(m: Message)
    ensures Pack(Normal(m)) == Pack(m)
  {
    hide Field, U64Bytes;
    FieldStable(m.sender, MAX_USERNAME_LEN);
    FieldStable(m.receiver, MAX_USERNAME_LEN);
    assert Normal(m).payload[..ClippedLen(m)] == m.payload[..ClippedLen(m)];
  }

  /** Two messages have the same frame exactly when they have the same normal form. */
  lemma PackInjective(a: Message, b: Message)
    ensures Pack(a) == Pack(b) <==> Normal(a) == Normal(b)
  {
    PackUnpack(a);
    PackUnpack(b);
    PackNormal(a);
    PackNormal(b);
  }

  /** Re-encoding a received frame gives the same frame exactly when both of its names are
      clean; otherwise it gives the clean frame, and re-encoding that changes nothing more. */
  lemma RepackFrame(w: seq<Byte>)
    requires |w| >= HEADER_SIZE && PLen(w) <= MAX_PAYLOAD_LEN && |w| == HEADER_SIZE + PLen(w)
    ensures Unpack(w).Some?
    ensures Pack(Unpack(w).value) == w <==> Clean(w[2..34]) && Clean(w[34..66])
    ensures Unpack(Pack(Unpack(w).value)) == Some(Normal(Unpack(w).value))
  {
    hide Pack, Clean, Field;
    var v := Pack(Unpack(w).value);
    RepackParts(w);
    RepackName(w[2..34]);
    RepackName(w[34..66]);
    PackUnpack(Unpack(w).value);
    assert w[2..34][..31] == w[2..33] && w[34..66][..31] == w[34..65];
    FrameParts(w);
    FrameParts(v);
  }

  lemma RepackParts(w: seq<Byte>)
    requires |w| >= HEADER_SIZE && PLen(w) <= MAX_PAYLOAD_LEN && |w| == HEADER_SIZE + PLen(w)
    ensures Unpack(w).Some?
    ensures var v := Pack(Unpack(w).value);
            && |v| == |w|
            && v[..2] == w[..2]
            && v[2..34] == Field(w[2..33] + [0], MAX_USERNAME_LEN)
            && v[34..66] == Field(w[34..65] + [0], MAX_USERNAME_LEN)
            && v[66..74] == w[66..74]
            && v[74..76] == w[74..76]
            && v[76..] == w[76..]
  {
    hide Pack, Field, U64Bytes, ReadU64;
    var m := Unpack(w).value;
    var p := PLen(w);
    PackParts(m);
    U64RoundTrip(m.timestamp, w[66..74]);
    assert m.payload[..p] == w[HEADER_SIZE..HEADER_SIZE + p];
    assert p / 256 == w[74] && p % 256 == w[75];
  }

  lemma RepackName(a: seq<Byte>)
    requires |a| == MAX_USERNAME_LEN
    ensures Field(a[..31] + [0], MAX_USERNAME_LEN) == a <==> Clean(a)
  {
    var b := a[..31] + [0];
    CleanIffField(b);
    CleanIffField(a);
    if Clean(a) {
      assert b == a;
    }
    if Field(b, MAX_USERNAME_LEN) == a {
      assert a[31] == 0;
      assert b == a;
    }
  }

  lemma FrameParts(w: seq<Byte>)
    requires |w| >= HEADER_SIZE
    ensures w == w[..2] + (w[2..34] + (w[34..66] + (w[66..74] + (w[74..76] + w[76..]))))
  {
    assert w == w[..2] + w[2..];
    assert w[2..] == w[2..34] + w[34..];
    assert w[34..] == w[34..66] + w[66..];
    assert w[66..] == w[66..74] + w[74..];
    assert w[74..] == w[74..76] + w[76..];
  }

  lemma PackParts(m: Message)
    ensures var w := Pack(m);
            && w[..2] == [m.kind % 256, m.status]
            && w[2..34] == Field(m.sender, MAX_USERNAME_LEN)
            && w[34..66] == Field(m.receiver, MAX_USERNAME_LEN)
            && w[66..74] == U64Bytes(m.timestamp)
            && w[74..76] == [ClippedLen(m) / 256, ClippedLen(m) % 256]
            && w[76..] == m.payload[..ClippedLen(m)]
  {
    hide Field, U64Bytes;
  }

  lemma PLenOfPack(m: Message, rest: seq<Byte>)
    ensures PLen(Pack(m) + rest) == ClippedLen(m)
  {
    var k := ClippedLen(m);
    assert (Pack(m) + rest)[74] == Pack(m)[74] == Header(m)[74] == k / 256;
    assert (Pack(m) + rest)[75] == Pack(m)[75] == Header(m)[75] == k % 256;
  }

  /** No frame is a proper prefix of another. */
  lemma PrefixFree(a: Message, b: Message, x: seq<Byte>, y: seq<Byte>)
    requires Pack(a) + x == Pack(b) + y
    ensures Pack(a) == Pack(b) && x == y && Normal(a) == Normal(b)
  {
    PLenOfPack(a, x);
    PLenOfPack(b, y);
    assert Pack(a) == (Pack(a) + x)[..|Pack(a)|];
    assert Pack(b) == (Pack(b) + y)[..|Pack(b)|];
    assert x == (Pack(a) + x)[|Pack(a)|..];
    assert y == (Pack(b) + y)[|Pack(b)|..];
    PackInjective(a, b);
  }

  // ---------- make_message ----------

  /** `make_message` at time `now`, its arguments being C strings. */
  function MakeMessage(kind: nat, sender: seq<Byte>, receiver: seq<Byte>, payload: seq<Byte>, now: nat): (m: Message)
    requires now < TWO_TO_64
  {
    var n := Min(|payload|, MAX_PAYLOAD_LEN);
    RawMessage.Message(kind, 0, Field(sender, MAX_USERNAME_LEN), Field(receiver, MAX_USERNAME_LEN), now,
                       n, payload[..n] + Zeros(MAX_PAYLOAD_LEN - n))
  }

  /** Whatever `make_message` builds with a one-byte type arrives unchanged. */
  lemma MadeMessageSurvives(kind: nat, sender: seq<Byte>, receiver: seq<Byte>, payload: seq<Byte>, now: nat,
                            status: Byte)
    requires now < TWO_TO_64
    ensures var m: Message := MakeMessage(kind, sender, receiver, payload, now).(status := status);
            Unpack(Pack(m)) == Some(m) <==> kind < 256
  {
    var m: Message := MakeMessage(kind, sender, receiver, payload, now).(status := status);
    FieldStable(sender, MAX_USERNAME_LEN);
    FieldStable(receiver, MAX_USERNAME_LEN);
    CleanIffField(m.sender);
    CleanIffField(m.receiver);
    PackUnpack(m);
    NormalCanonical(m);
  }

  /** The payload string is recovered from the payload array when it fits. */
  lemma PayloadText(kind: nat, sender: seq<Byte>, receiver: seq<Byte>, payload: seq<Byte>, now: nat)
    requires now < TWO_TO_64
    requires NoNul(payload) && |payload| <= MAX_PAYLOAD_LEN
    ensures CStr(MakeMessage(kind, sender, receiver, payload, now).payload) == payload
  {
    CStrOf(payload, Zeros(MAX_PAYLOAD_LEN - |payload|));
    assert payload[..|payload|] == payload;
  }
}
