/** Byte streams and frames: what a stream of bytes means, whoever cuts it up. */
module Framing {
  import opened Bytes
  import opened Codec

  // ---------- the meaning of a stream ----------

  /** The messages of a stream, the bytes after the last complete one, and whether those
      bytes start with a header that announces too long a payload. */
  datatype Parse = Parse(msgs: seq<Message>, rest: seq<Byte>, bad: bool)

  predicate Oversized(s: seq<Byte>) {
    |s| >= HEADER_SIZE && PLen(s) > MAX_PAYLOAD_LEN
  }

  predicate Complete(s: seq<Byte>) {
    |s| >= HEADER_SIZE && PLen(s) <= MAX_PAYLOAD_LEN && |s| >= HEADER_SIZE + PLen(s)
  }

  function FrameLen(s: seq<Byte>): (n: nat)
    requires Complete(s)
    ensures HEADER_SIZE <= n <= |s|
  {
    HEADER_SIZE + PLen(s)
  }

  function FirstMessage(s: seq<Byte>): Message
    requires Complete(s)
  {
    Unpack(s[..FrameLen(s)]).value
  }

  function Decode(s: seq<Byte>): (p: Parse)
    decreases |s|
  {
    if Complete(s) then
      var p := Decode(s[FrameLen(s)..]);
      p.(msgs := [FirstMessage(s)] + p.msgs)
    else
      Parse([], s, Oversized(s))
  }

  /** The bytes of a list of messages sent one after another. */
  function Frames(ms: seq<Message>): seq<Byte> {
    if ms == [] then [] else Frames(ms[..|ms| - 1]) + Pack(ms[|ms| - 1])
  }

  function Normals(ms: seq<Message>): seq<Message> {
    seq(|ms|, i requires 0 <= i < |ms| => Normal(ms[i]))
  }

  /** What is left over is never a whole frame. */
  lemma {:induction false} DecodeRest(s: seq<Byte>)
    ensures var p := Decode(s);
            && !Complete(p.rest)
            && p.bad == Oversized(p.rest)
            && |p.rest| <= |s|
            && (!p.bad ==> |p.rest| < HEADER_SIZE + MAX_PAYLOAD_LEN)
    decreases |s|
  {
    if Complete(s) {
      DecodeRest(s[FrameLen(s)..]);
    }
  }

  lemma CompleteExtends(a: seq<Byte>, b: seq<Byte>)
    ensures Complete(a) ==> Complete(a + b) && FrameLen(a + b) == FrameLen(a) && FirstMessage(a + b) == FirstMessage(a)
    ensures Oversized(a) ==> Oversized(a + b)
  {
    if Complete(a) {
      assert (a + b)[..FrameLen(a)] == a[..FrameLen(a)];
    }
  }

  /** Decoding can be suspended anywhere: only the unconsumed tail matters for what follows. */
  lemma {:induction false} DecodeAppend(a: seq<Byte>, b: seq<Byte>)
    ensures var p := Decode(a);
            Decode(a + b) == if p.bad then p.(rest := p.rest + b)
                             else Decode(p.rest + b).(msgs := p.msgs + Decode(p.rest + b).msgs)
    decreases |a|
  {
    hide Complete, Oversized, FrameLen, FirstMessage;
    CompleteExtends(a, b);
    if Complete(a) {
      var n := FrameLen(a);
      DecodeAppend(a[n..], b);
      assert (a + b)[n..] == a[n..] + b;
      var p := Decode(a[n..]);
      var later := Decode(p.rest + b).msgs;
      assert [FirstMessage(a)] + (p.msgs + later) == ([FirstMessage(a)] + p.msgs) + later;
    } else if Oversized(a) {
      OversizedStops(a + b);
    } else {
      assert [] + Decode(a + b).msgs == Decode(a + b).msgs;
    }
  }

  lemma OversizedStops(s: seq<Byte>)
    requires Oversized(s)
    ensures Decode(s) == Parse([], s, true)
  {
  }

  lemma CompleteFrame(m: Message, rest: seq<Byte>)
    ensures var s := Pack(m) + rest;
            Complete(s) && FrameLen(s) == |Pack(m)| && FirstMessage(s) == Normal(m) && s[FrameLen(s)..] == rest
  {
    PLenOfPack(m, rest);
    PackUnpack(m);
    assert (Pack(m) + rest)[..|Pack(m)|] == Pack(m);
  }

  lemma DecodeEmpty()
    ensures Decode([]) == Parse([], [], false)
  {
  }

  lemma DecodeOne(m: Message)
    ensures Decode(Pack(m)) == Parse([Normal(m)], [], false)
  {
    CompleteFrame(m, []);
    assert Pack(m) + [] == Pack(m);
    assert Decode([]) == Parse([], [], false);
  }

  lemma DecodeAfter(a: seq<Byte>, ms: seq<Message>, b: seq<Byte>)
    requires Decode(a) == Parse(ms, [], false)
    ensures Decode(a + b) == Decode(b).(msgs := ms + Decode(b).msgs)
  {
    hide Decode;
    DecodeAppend(a, b);
    assert [] + b == b;
  }

  lemma NormalsSnoc(ms: seq<Message>)
    requires ms != []
    ensures Normals(ms) == Normals(ms[..|ms| - 1]) + [Normal(ms[|ms| - 1])]
  {
    hide Normal;
  }

  /** A stream of frames decodes to the messages sent, in their normal forms. */
  lemma {:induction false} DecodeFrames(ms: seq<Message>)
    ensures Decode(Frames(ms)) == Parse(Normals(ms), [], false)
  {
    hide Pack, Normal, Complete, Oversized;
    if ms == [] {
      DecodeEmpty();
    } else {
      var k := |ms| - 1;
      DecodeFrames(ms[..k]);
      DecodeAfter(Frames(ms[..k]), Normals(ms[..k]), Pack(ms[k]));
      DecodeOne(ms[k]);
      NormalsSnoc(ms);
    }
  }

  /** Concatenated frames can be cut up in one way only. */
  lemma UniqueDecoding(a: seq<Message>, b: seq<Message>)
    requires Frames(a) == Frames(b)
    ensures |a| == |b|
    ensures forall i :: 0 <= i < |a| ==> Pack(a[i]) == Pack(b[i])
  {
    hide Pack, Normal;
    DecodeFrames(a);
    DecodeFrames(b);
    forall i | 0 <= i < |a|
      ensures Pack(a[i]) == Pack(b[i])
    {
      assert Normals(a)[i] == Normals(b)[i];
      PackInjective(a[i], b[i]);
    }
  }

  lemma FramesAppend(a: seq<Message>, m: Message)
    ensures Frames(a + [m]) == Frames(a) + Pack(m)
  {
    assert (a + [m])[..|a|] == a;
  }

  lemma NoFrames()
    ensures Frames([]) == []
  {
  }

  lemma {:induction false} FramesConcat(a: seq<Message>, b: seq<Message>)
    ensures Frames(a + b) == Frames(a) + Frames(b)
    decreases |b|
  {
    hide Pack, Frames;
    if b == [] {
      assert a + b == a && Frames([]) == [] && Frames(a) + [] == Frames(a) by {
        NoFrames();
      }
    } else {
      var k := |b| - 1;
      FramesConcat(a, b[..k]);
      assert a + b == (a + b[..k]) + [b[k]];
      assert b == b[..k] + [b[k]];
      FramesAppend(a + b[..k], b[k]);
      FramesAppend(b[..k], b[k]);
      var x, y, z := Frames(a), Frames(b[..k]), Pack(b[k]);
      assert (x + y) + z == x + (y + z);
    }
  }

  /** A sender cut off anywhere in its stream has delivered a prefix of its messages,
      and nothing that could be taken for another message. */
  lemma {:induction false} DecodeTruncated(ms: seq<Message>, p: seq<Byte>)
    requires p <= Frames(ms)
    ensures var d := Decode(p);
            && d.msgs <= Normals(ms)
            && !d.bad
            && p == Frames(ms[..|d.msgs|]) + d.rest
            && (p != Frames(ms) ==> |d.msgs| < |ms|)
    decreases |ms|
  {
    hide Pack, Normal, Decode;
    if p == Frames(ms) {
      DecodeFrames(ms);
      assert ms[..|ms|] == ms;
    } else if |p| < |Frames(ms[..|ms| - 1])| {
      var front := ms[..|ms| - 1];
      DecodeTruncated(front, p);
      NormalsSnoc(ms);
      assert front[..|Decode(p).msgs|] == ms[..|Decode(p).msgs|];
    } else {
      var front := ms[..|ms| - 1];
      var tail := p[|Frames(front)|..];
      assert p == Frames(front) + tail;
      TruncatedInLast(front, ms[|ms| - 1], tail);
      NormalsSnoc(ms);
      assert |Normals(front)| == |front|;
    }
  }

  lemma TruncatedInLast(front: seq<Message>, m: Message, tail: seq<Byte>)
    requires tail <= Pack(m) && tail != Pack(m)
    ensures Decode(Frames(front) + tail) == Parse(Normals(front), tail, false)
  {
    hide Pack, Normal, Complete, Oversized;
    DecodeFrames(front);
    DecodeAfter(Frames(front), Normals(front), tail);
    PartialFrame(m, tail);
    assert Normals(front) + [] == Normals(front);
  }

  lemma PartialFrame(m: Message, p: seq<Byte>)
    requires p <= Pack(m) && p != Pack(m)
    ensures Decode(p) == Parse([], p, false)
  {
    PLenOfPack(m, []);
    assert Pack(m) + [] == Pack(m);
    if |p| >= HEADER_SIZE {
      assert PLen(p) == PLen(Pack(m));
    }
  }

  /** The requests a server acts on: everything up to and including the first LOGOUT. */
  function UpToLogout(ms: seq<Message>): seq<Message> {
    if ms == [] then [] else if ms[0].kind == MSG_LOGOUT then [ms[0]] else [ms[0]] + UpToLogout(ms[1..])
  }

  predicate NoLogout(ms: seq<Message>) {
    forall i :: 0 <= i < |ms| ==> ms[i].kind != MSG_LOGOUT
  }

  lemma {:induction false} UpToLogoutAppend(a: seq<Message>, b: seq<Message>)
    requires NoLogout(a)
    ensures UpToLogout(a + b) == a + UpToLogout(b)
  {
    if a == [] {
      assert a + b == b;
    } else {
      UpToLogoutAppend(a[1..], b);
      assert (a + b)[1..] == a[1..] + b;
    }
  }

  lemma UpToLogoutAll(a: seq<Message>)
    requires NoLogout(a)
    ensures UpToLogout(a) == a
  {
    UpToLogoutAppend(a, []);
    assert a + [] == a;
  }

  lemma DecodeFirst(s: seq<Byte>)
    ensures Decode(s).msgs == if Complete(s) then [FirstMessage(s)] + Decode(s[FrameLen(s)..]).msgs else []
  {
    hide FirstMessage;
  }

  lemma UpToLogoutStops(a: seq<Message>, m: Message, rest: seq<Message>)
    requires NoLogout(a) && m.kind == MSG_LOGOUT
    ensures UpToLogout(a + ([m] + rest)) == a + [m]
    ensures UpToLogout(a) == a
  {
    UpToLogoutAppend(a, [m] + rest);
    UpToLogoutAppend(a, []);
    assert a + [] == a;
  }

  // ---------- blocking sockets and pipes ----------

  datatype Io = Moved(n: nat) | Interrupted | Closed

  /** One direction of a blocking descriptor, read by this process. `data` is everything
      that will ever arrive before end-of-file or an error; `interrupts` bounds the signals. */
  class Source {
    const data: seq<Byte>
    var pos: nat
    var interrupts: nat

    constructor (data: seq<Byte>, interrupts: nat)
      ensures this.data == data && pos == 0 && this.interrupts == interrupts
    {
      this.data := data;
      pos := 0;
      this.interrupts := interrupts;
    }

    ghost predicate Valid()
      reads this
    {
      pos <= |data|
    }

    ghost function Ahead(): seq<Byte>
      requires Valid()
      reads this
    {
      data[pos..]
    }

    /** `read(fd, buf + at, room)`: some bytes, or a signal, or (at the end) nothing more. */
    method Read(buf: array<Byte>, at: nat, room: nat) returns (r: Io)
      requires Valid()
      requires at + room <= buf.Length && room > 0
      modifies this, buf
      ensures Valid()
      ensures r.Moved? ==> && 0 < r.n <= room
                           && pos == old(pos) + r.n
                           && interrupts == old(interrupts)
                           && buf[at..at + r.n] == data[old(pos)..pos]
                           && (forall i :: 0 <= i < at ==> buf[i] == old(buf[i]))
      ensures r.Interrupted? ==> pos == old(pos) && interrupts < old(interrupts) && buf[..] == old(buf[..])
      ensures r.Closed? ==> pos == old(pos) == |data| && interrupts == old(interrupts) && buf[..] == old(buf[..])
    {
      var choice: nat := *;
      if interrupts > 0 && choice == 0 {
        interrupts := interrupts - 1;
        return Interrupted;
      }
      if pos == |data| {
        return Closed;
      }
      var n := 1 + choice % Min(room, |data| - pos);
      forall i | 0 <= i < n {
        buf[at + i] := data[pos + i];
      }
      pos := pos + n;
      r := Moved(n);
    }
  }

  /** A read loop of `recv_message` or `pipe_recv`: `want` more bytes after the first `at`.
      A pipe has no retry on signals, so `retry` tells the two apart. */
  method ReadFully(src: Source, buf: array<Byte>, at: nat, want: nat, retry: bool) returns (ok: bool)
    requires src.Valid()
    requires at + want <= buf.Length
    modifies src, buf
    ensures src.Valid()
    ensures src.interrupts <= old(src.interrupts)
    ensures ok ==> src.pos == old(src.pos) + want
    ensures ok ==> buf[..at + want] == old(buf[..at]) + src.data[old(src.pos)..src.pos]
    ensures retry || old(src.interrupts) == 0 ==> (ok <==> |old(src.Ahead())| >= want)
  {
    var received := 0;
    ghost var start, head := src.pos, buf[..at];
    while received < want
      invariant src.Valid()
      invariant 0 <= received <= want
      invariant src.pos == start + received
      invariant src.interrupts <= old(src.interrupts)
      invariant buf[..at + received] == head + src.data[start..start + received]
      decreases want - received + src.interrupts
    {
      ghost var before := buf[..];
      var r := src.Read(buf, at + received, want - received);
      match r {
        case Interrupted =>
          if !retry {
            return false;
          }
        case Closed =>
          return false;
        case Moved(n) =>
          BufferGrows(before, buf[..], head, src.data, start, received, n);
          received := received + n;
      }
    }
    ok := true;
  }

  /** Bytes read behind those read before continue the run of bytes of the source. */
  lemma BufferGrows(before: seq<Byte>, after: seq<Byte>, head: seq<Byte>, data: seq<Byte>,
                    start: nat, received: nat, n: nat)
    requires |after| == |before| && start + received + n <= |data|
    requires var k := |head| + received;
             && k + n <= |before|
             && before[..k] == head + data[start..start + received]
             && (forall i :: 0 <= i < k ==> after[i] == before[i])
             && after[k..k + n] == data[start + received..start + received + n]
    ensures after[..|head| + received + n] == head + data[start..start + received + n]
  {
    var k := |head| + received;
    assert after[..k] == before[..k];
    assert after[..k + n] == after[..k] + after[k..k + n];
    assert data[start..start + received + n]
        == data[start..start + received] + data[start + received..start + received + n];
  }

  lemma Spliced(data: seq<Byte>, pos: nat, n: nat, m: nat)
    requires pos + n + m <= |data|
    ensures data[pos..][..n + m] == data[pos..pos + n] + data[pos + n..pos + n + m]
  {
  }

  /** What a header and as many bytes as it announces amount to. */
  lemma FrameRead(ahead: seq<Byte>, w: seq<Byte>, plen: nat)
    requires |ahead| >= HEADER_SIZE + plen && plen == PLen(ahead) && plen <= MAX_PAYLOAD_LEN
    requires w == ahead[..HEADER_SIZE + plen]
    ensures Complete(ahead) && FrameLen(ahead) == HEADER_SIZE + plen
    ensures Unpack(w) == Some(FirstMessage(ahead))
  {
  }

  /** `recv_message`: succeeds exactly when a complete frame of legal size lies ahead, and
      then takes exactly that frame. */
  method RecvMessage(src: Source) returns (r: Option<Message>)
    requires src.Valid()
    modifies src
    ensures src.Valid()
    ensures r.Some? <==> Complete(old(src.Ahead()))
    ensures r.Some? ==> r.value == FirstMessage(old(src.Ahead()))
    ensures r.Some? ==> src.pos == old(src.pos) + FrameLen(old(src.Ahead()))
  {
    hide Unpack, FirstMessage;
    ghost var ahead, start := src.Ahead(), src.pos;
    var header := new Byte[HEADER_SIZE];
    var ok := ReadFully(src, header, 0, HEADER_SIZE, true);
    if !ok {
      return None;
    }
    ghost var h := header[..];
    assert h == ahead[..HEADER_SIZE];
    assert header[74] == h[74] == ahead[74] && header[75] == h[75] == ahead[75];
    var plen := (header[74] as int) * 256 + header[75];
    if plen > MAX_PAYLOAD_LEN {
      return None;
    }
    var buf := new Byte[HEADER_SIZE + MAX_PAYLOAD_LEN];
    MemCpy(buf, 0, header[..]);
    assert buf[..HEADER_SIZE] == h;
    ok := ReadFully(src, buf, HEADER_SIZE, plen, true);
    if !ok {
      return None;
    }
    Spliced(src.data, start, HEADER_SIZE, plen);
    FrameRead(ahead, buf[..HEADER_SIZE + plen], plen);
    r := UnpackMessage(buf, HEADER_SIZE + plen);
  }

  /** `pipe_recv`: no length check before the payload is read, so it may only be used on a
      pipe whose next header is honest; then it takes the same frame as `recv_message`.
      A signal makes it give up. */
  method PipeRecv(src: Source) returns (r: Option<Message>)
    requires src.Valid()
    requires !Oversized(src.Ahead())
    modifies src
    ensures src.Valid()
    ensures r.Some? ==> Complete(old(src.Ahead()))
    ensures old(src.interrupts) == 0 && Complete(old(src.Ahead())) ==> r.Some?
    ensures r.Some? ==> r.value == FirstMessage(old(src.Ahead()))
    ensures r.Some? ==> src.pos == old(src.pos) + FrameLen(old(src.Ahead()))
  {
    hide Unpack, FirstMessage;
    ghost var ahead, start := src.Ahead(), src.pos;
    var header := new Byte[HEADER_SIZE];
    var ok := ReadFully(src, header, 0, HEADER_SIZE, false);
    if !ok {
      return None;
    }
    ghost var h := header[..];
    assert h == ahead[..HEADER_SIZE];
    assert header[74] == h[74] == ahead[74] && header[75] == h[75] == ahead[75];
    var plen := (header[74] as int) * 256 + header[75];
    var wire := new Byte[HEADER_SIZE + MAX_PAYLOAD_LEN];
    MemCpy(wire, 0, header[..]);
    assert wire[..HEADER_SIZE] == h;
    ok := ReadFully(src, wire, HEADER_SIZE, plen, false);
    if !ok {
      return None;
    }
    Spliced(src.data, start, HEADER_SIZE, plen);
    FrameRead(ahead, wire[..HEADER_SIZE + plen], plen);
    r := UnpackMessage(wire, HEADER_SIZE + plen);
  }

  /** The receive loop of a client thread: it acts on exactly the decoded messages of the
      stream up to and including the first LOGOUT. */
  method RecvLoop(src: Source) returns (handled: seq<Message>)
    requires src.Valid()
    modifies src
    ensures handled == UpToLogout(Decode(old(src.Ahead())).msgs)
  {
    hide FirstMessage, Oversized, UpToLogout, Decode;
    handled := [];
    ghost var all := src.Ahead();
    while true
      invariant src.Valid()
      invariant NoLogout(handled)
      invariant Decode(all).msgs == handled + Decode(src.Ahead()).msgs
      decreases |src.data| - src.pos
    {
      ghost var ahead := src.Ahead();
      var r := RecvMessage(src);
      if r.None? {
        DecodeFirst(ahead);
        UpToLogoutAll(handled);
        assert handled + [] == handled;
        return;
      }
      DecodeFirst(ahead);
      ghost var later := Decode(src.Ahead()).msgs;
      assert src.Ahead() == ahead[FrameLen(ahead)..];
      assert handled + ([r.value] + later) == (handled + [r.value]) + later;
      if r.value.kind == MSG_LOGOUT {
        UpToLogoutStops(handled, r.value, later);
        handled := handled + [r.value];
        return;
      }
      handled := handled + [r.value];
    }
  }

  /** The far end of a blocking descriptor written by this process. Once a write has failed
      every later one fails. */
  class Sink {
    var sent: seq<Byte>
    var broken: bool
    var interrupts: nat

    constructor (interrupts: nat)
      ensures sent == [] && !broken && this.interrupts == interrupts
    {
      sent := [];
      broken := false;
      this.interrupts := interrupts;
    }

    /** `write(fd, buf + lo, hi - lo)`. */
    method Write(buf: array<Byte>, lo: nat, hi: nat) returns (r: Io)
      requires lo < hi <= buf.Length
      modifies this
      ensures r.Moved? ==> && 0 < r.n <= hi - lo && !old(broken) && !broken
                           && sent == old(sent) + buf[lo..lo + r.n] && interrupts == old(interrupts)
      ensures r.Interrupted? ==> sent == old(sent) && broken == old(broken) && interrupts < old(interrupts)
      ensures r.Closed? ==> sent == old(sent) && broken
    {
      var choice: nat := *;
      if interrupts > 0 && choice == 0 {
        interrupts := interrupts - 1;
        return Interrupted;
      }
      if broken || choice == 1 {
        broken := true;
        return Closed;
      }
      var n := 1 + choice % (hi - lo);
      sent := sent + buf[lo..lo + n];
      r := Moved(n);
    }
  }

  /** `send_message`: the whole frame, or a proper prefix of it and then nothing ever again. */
  method SendMessage(sink: Sink, m: Message) returns (ok: bool)
    modifies sink
    ensures ok ==> sink.sent == old(sink.sent) + Pack(m) && !sink.broken
    ensures !ok ==> && sink.broken
                    && old(sink.sent) <= sink.sent
                    && sink.sent < old(sink.sent) + Pack(m)
    ensures old(sink.broken) ==> sink.sent == old(sink.sent)
  {
    hide Header;
    var buf := new Byte[HEADER_SIZE + MAX_PAYLOAD_LEN];
    var total := PackMessage(m, buf);
    var sent := 0;
    while sent < total
      invariant 0 <= sent <= total
      invariant total <= buf.Length && forall i :: 0 <= i < total ==> buf[i] == Pack(m)[i]
      invariant sink.sent == old(sink.sent) + Pack(m)[..sent]
      invariant sent > 0 ==> !old(sink.broken)
      invariant sink.broken == old(sink.broken)
      decreases total - sent + sink.interrupts
    {
      var r := sink.Write(buf, sent, total);
      match r {
        case Interrupted =>
        case Closed =>
          return false;
        case Moved(n) =>
          assert buf[sent..sent + n] == Pack(m)[sent..sent + n];
          assert Pack(m)[..sent] + Pack(m)[sent..sent + n] == Pack(m)[..sent + n];
          sent := sent + n;
      }
    }
    assert Pack(m)[..total] == Pack(m);
    ok := true;
  }
}
