/** The I/O half of a client slot of the epoll server: its buffers and its connection. */
module SlotIo {
  import opened Bytes
  import opened Codec
  import opened Framing
  import opened ChatSpec
  import opened Delivery
  import opened Chronicles

  const SBUF_SIZE := 65536
  const RBUF_SIZE := HEADER_SIZE + MAX_PAYLOAD_LEN + 16

  /** What a non-blocking `read` or `write` reports. */
  datatype Outcome = Done(n: nat) | Again | Eof | Failed

  /** How a drain ends: with no data, at end of file, or with an error. */
  type Ending = o: Outcome | !o.Done? witness Again

  /** The kernel's side of the descriptor a slot holds: the bytes it has taken, the bytes it
      will yield before it reports `ending`, and whether EPOLLOUT is registered. A connection
      whose write has failed for good never takes another byte. */
  class Link {
    ghost var sent: seq<Byte>
    /** How many writes the full socket has refused, and how many have failed. */
    ghost var stalls: nat
    ghost var failures: nat
    var broken: bool
    var pollOut: bool
    var incoming: seq<Byte>
    var ending: Ending

    constructor ()
      ensures sent == [] && !broken && !pollOut && incoming == []
    {
      sent, broken, pollOut, incoming, ending := [], false, false, [], Again;
      stalls, failures := 0, 0;
    }

    method Write(buf: array<Byte>, lo: nat, hi: nat) returns (r: Outcome)
      requires lo < hi <= buf.Length
      modifies this`sent, this`broken, this`stalls, this`failures
      ensures r.Done? || r.Again? || r.Failed?
      ensures stalls == old(stalls) + if r.Again? then 1 else 0
      ensures failures == old(failures) + if r.Failed? then 1 else 0
      ensures r.Done? ==> 0 < r.n <= hi - lo && sent == old(sent) + buf[lo..lo + r.n]
      ensures !r.Done? ==> sent == old(sent)
      ensures broken == (old(broken) || r.Failed?)
      ensures old(broken) ==> r.Failed?
    {
      var choice: nat := *;
      if broken || choice == 0 {
        broken := true;
        failures := failures + 1;
        return Failed;
      }
      if choice == 1 {
        stalls := stalls + 1;
        return Again;
      }
      var n := 1 + choice % (hi - lo);
      sent := sent + buf[lo..lo + n];
      r := Done(n);
    }

    method Read(buf: array<Byte>, at: nat, room: nat) returns (r: Outcome)
      requires at + room <= buf.Length && room > 0
      modifies this`incoming, buf
      ensures forall i :: 0 <= i < at ==> buf[i] == old(buf[i])
      ensures if old(incoming) == [] then r == ending && incoming == []
              else && r.Done? && 0 < r.n <= room && r.n <= |old(incoming)|
                   && buf[at..at + r.n] == old(incoming)[..r.n]
                   && incoming == old(incoming)[r.n..]
    {
      if incoming == [] {
        return ending;
      }
      var choice: nat := *;
      var n := 1 + choice % Min(room, |incoming|);
      forall i | 0 <= i < n {
        buf[at + i] := incoming[i];
      }
      incoming := incoming[n..];
      r := Done(n);
    }
  }

  /** The per-client send queue. */
  class SendBuf {
    const buf: array<Byte>
    var head: nat
    var tail: nat

    constructor ()
      ensures Valid() && Queue() == [] && fresh(buf)
    {
      buf := new Byte[SBUF_SIZE](_ => 0);
      head, tail := 0, 0;
    }

    ghost predicate Valid()
      reads this
    {
      buf.Length == SBUF_SIZE && head <= tail <= SBUF_SIZE
    }

    ghost function Queue(): seq<Byte>
      requires Valid()
      reads this, buf
    {
      buf[head..tail]
    }

    /** `sb_push` of `d[lo..hi)`: all of it or nothing, and nothing exactly when it cannot
        fit behind what is queued, wherever that lies in the buffer. */
    method Push(d: array<Byte>, lo: nat, hi: nat) returns (ok: bool)
      requires Valid() && lo <= hi <= d.Length && d != buf
      modifies this, buf
      ensures Valid()
      ensures ok <==> |old(Queue())| + (hi - lo) <= SBUF_SIZE
      ensures Queue() == if ok then old(Queue()) + d[lo..hi] else old(Queue())
    {
      var n := hi - lo;
      if tail + n > SBUF_SIZE {
        Compact();
      }
      if tail + n > SBUF_SIZE {
        return false;
      }
      Append(d, lo, hi);
      ok := true;
    }

    /** The `memmove` of `sb_push`. */
    method Compact()
      requires Valid()
      modifies this, buf
      ensures Valid() && head == 0
      ensures Queue() == old(Queue())
    {
      var used := tail - head;
      forall i | 0 <= i < used {
        buf[i] := buf[head + i];
      }
      head, tail := 0, used;
    }

    /** The `memcpy` of `sb_push`. */
    method Append(d: array<Byte>, lo: nat, hi: nat)
      requires Valid() && lo <= hi <= d.Length && d != buf
      requires tail + (hi - lo) <= SBUF_SIZE
      modifies this`tail, buf
      ensures Valid()
      ensures Queue() == old(Queue()) + d[lo..hi]
    {
      var n := hi - lo;
      ghost var queue := Queue();
      forall j | 0 <= j < n {
        buf[tail + j] := d[lo + j];
      }
      assert buf[head..tail] == queue;
      assert forall j :: 0 <= j < n ==> buf[tail..tail + n][j] == d[lo..hi][j];
      assert buf[head..tail + n] == buf[head..tail] + buf[tail..tail + n];
      tail := tail + n;
    }

    lemma Moved(out: seq<Byte>, lo: nat, n: nat, hi: nat)
      requires lo + n <= hi <= buf.Length
      ensures (out + buf[lo..lo + n]) + buf[lo + n..hi] == out + buf[lo..hi]
    {
      assert buf[lo..hi] == buf[lo..lo + n] + buf[lo + n..hi];
    }

    /** `sb_flush`: 0 when everything went out, 1 when the socket would take no more for now,
        -1 when it failed. Not a byte is lost, repeated or reordered. */
    method Flush(link: Link) returns (ret: int)
      requires Valid()
      modifies this, link`sent, link`broken, link`stalls, link`failures
      ensures Valid()
      ensures link.sent + Queue() == old(link.sent) + old(Queue())
      ensures ret == 0 || ret == 1 || ret == -1
      ensures ret == 0 <==> Queue() == []
      ensures link.stalls == old(link.stalls) + if ret == 1 then 1 else 0
      ensures link.failures == old(link.failures) + if ret == -1 then 1 else 0
      ensures ret == 1 ==> !link.broken
      ensures ret != 0 ==> old(Queue()) != []
      ensures link.broken == (old(link.broken) || ret == -1)
      ensures old(link.broken) ==> link.sent == old(link.sent)
    {
      ghost var all := link.sent + Queue();
      while head < tail
        invariant Valid()
        invariant link.sent + Queue() == all && link.sent == all[..|all| - (tail - head)]
        invariant link.broken == old(link.broken)
        invariant link.stalls == old(link.stalls) && link.failures == old(link.failures)
        invariant old(link.broken) ==> link.sent == old(link.sent)
        decreases tail - head
      {
        var r := link.Write(buf, head, tail);
        if r.Done? {
          Moved(all[..|all| - (tail - head)], head, r.n, tail);
          head := head + r.n;
          continue;
        }
        return if r.Again? then 1 else -1;
      }
      head, tail := 0, 0;
      ret := 0;
    }
  }

  /** What became of a message given to `slot_send`, with the length of the queue it met: it
      was written or queued, it was dropped for lack of room, or the connection had failed. */
  datatype Fate = Taken(queued: nat) | NoRoom(queued: nat) | Dead

  /** A frame of `size` bytes that meets `queued` bytes is dropped exactly when there are some
      and it does not fit behind them, or there are none and the connection has failed. */
  function FateOf(queued: nat, size: nat, broken: bool): Fate {
    if queued == 0 then (if broken then Dead else Taken(0))
    else if queued + size > SBUF_SIZE then NoRoom(queued)
    else Taken(queued)
  }

  /** What is possible for a frame of `size` bytes on a connection that has accepted `carried`
      bytes in all before it, and that has failed by now if `broken`. */
  predicate FateFits(fate: Fate, size: nat, carried: nat, broken: bool) {
    match fate
    case Taken(queued) => queued == 0 || (queued <= carried && queued + size <= SBUF_SIZE)
    case NoRoom(queued) => 0 < queued <= carried && queued + size > SBUF_SIZE
    case Dead => broken
  }

  /** Every message handed over has met its fate by the rule, and after the first that met a
      failed connection all do. */
  predicate Fated(handed: seq<Tagged>, fates: seq<Fate>, broken: bool) {
    && |fates| == |handed|
    && (forall k :: 0 <= k < |handed| ==>
          FateFits(fates[k], |Pack(handed[k].msg)|, Carried(handed[..k], fates[..k]), broken))
    && (forall j, k :: 0 <= j < k < |fates| && fates[j].Dead? ==> fates[k].Dead?)
  }

  /** The bytes of the messages that were not dropped. */
  function Carried(handed: seq<Tagged>, fates: seq<Fate>): nat {
    |Frames(Msgs(Undropped(handed, fates)))|
  }

  predicate NoneDead(fates: seq<Fate>) {
    forall k :: 0 <= k < |fates| ==> !fates[k].Dead?
  }

  /** The messages that were not dropped. */
  function Undropped(handed: seq<Tagged>, fates: seq<Fate>): seq<Tagged> {
    if handed == [] || |fates| != |handed| then []
    else
      var n := |handed| - 1;
      Undropped(handed[..n], fates[..n]) + if fates[n].Taken? then [handed[n]] else []
  }

  lemma UndroppedAppend(handed: seq<Tagged>, fates: seq<Fate>, t: Tagged, fate: Fate)
    requires |fates| == |handed|
    ensures Undropped(handed + [t], fates + [fate]) == Undropped(handed, fates) + if fate.Taken? then [t] else []
  {
    assert (handed + [t])[..|handed|] == handed && (fates + [fate])[..|fates|] == fates;
  }

  lemma FatedAppend(handed: seq<Tagged>, fates: seq<Fate>, t: Tagged, queued: nat, broken: bool, later: bool)
    requires Fated(handed, fates, broken) && (broken ==> later)
    requires queued <= Carried(handed, fates)
    requires NoneDead(fates) || (queued == 0 && broken)
    ensures Fated(handed + [t], fates + [FateOf(queued, |Pack(t.msg)|, broken)], later)
    ensures NoneDead(fates + [FateOf(queued, |Pack(t.msg)|, broken)]) || (queued == 0 && broken)
  {
    hide Pack, Undropped, Frames, Msgs;
    var h, f := handed + [t], fates + [FateOf(queued, |Pack(t.msg)|, broken)];
    forall k | 0 <= k < |h|
      ensures FateFits(f[k], |Pack(h[k].msg)|, Carried(h[..k], f[..k]), later)
    {
      if k == |handed| {
        assert h[..k] == handed && f[..k] == fates;
      } else {
        assert h[..k] == handed[..k] && f[..k] == fates[..k];
      }
    }
  }

  lemma FatedBroken(handed: seq<Tagged>, fates: seq<Fate>, broken: bool, later: bool)
    requires Fated(handed, fates, broken) && (broken ==> later)
    ensures Fated(handed, fates, later)
  {
    hide Pack, Carried;
  }

  /** A session as it was when its connection was closed, with what was still queued. */
  datatype Session = Session(slot: nat, received: seq<Byte>, requests: seq<Message>, handed: seq<Tagged>,
                             fates: seq<Fate>, sent: seq<Byte>, queue: seq<Byte>, broken: bool)

  /** What is true of every session at its end: it acted on a prefix of the requests the bytes
      received spell out, nothing after a LOGOUT; and the bytes sent and queued are the frames
      of the messages it was handed that were not dropped. */
  predicate SessionOk(x: Session) {
    && x.requests <= UpToLogout(Decode(x.received).msgs)
    && Fated(x.handed, x.fates, x.broken)
    && Conveyed(x.sent, x.queue, x.broken, Msgs(Undropped(x.handed, x.fates)))
  }

  lemma {:induction false} UndroppedInOrder(handed: seq<Tagged>, fates: seq<Fate>, now: nat)
    requires InOrder(handed, now)
    ensures InOrder(Undropped(handed, fates), now)
    ensures forall t :: t in Undropped(handed, fates) ==> t in handed
  {
    if handed != [] && |fates| == |handed| {
      var n := |handed| - 1;
      var last := handed[n].step;
      UndroppedInOrder(handed[..n], fates[..n], last);
      InOrderAppend(Undropped(handed[..n], fates[..n]), last, handed[n].msg);
      assert handed[n] == Tagged(last, handed[n].msg);
    }
  }

  /** What a connection has taken and what is queued for it are the frames of the accepted
      messages; if a write failed with nothing queued, part of the last frame is lost. */
  predicate Conveyed(sent: seq<Byte>, queue: seq<Byte>, broken: bool, ms: seq<Message>) {
    if broken && queue == [] then
      ms != [] && Frames(ms[..|ms| - 1]) <= sent && sent < Frames(ms)
    else
      sent + queue == Frames(ms)
  }

  lemma ConveyedPrefix(sent: seq<Byte>, queue: seq<Byte>, broken: bool, ms: seq<Message>)
    requires Conveyed(sent, queue, broken, ms)
    ensures sent <= Frames(ms)
  {
    hide Frames;
    if !(broken && queue == []) {
      assert sent <= sent + queue;
    }
  }

  /** One more accepted message: its frame follows, or is cut off by a failing write. */
  lemma ConveyedMore(sent: seq<Byte>, queue: seq<Byte>, broken: bool, ms: seq<Message>, m: Message,
                     sent2: seq<Byte>, queue2: seq<Byte>, broken2: bool)
    requires Conveyed(sent, queue, broken, ms)
    requires queue == [] ==> !broken
    requires if broken2 && !broken then queue == queue2 == [] && sent <= sent2 && sent2 < sent + Pack(m)
             else sent2 + queue2 == sent + queue + Pack(m) && broken2 == broken && (broken ==> queue2 != [])
    ensures Conveyed(sent2, queue2, broken2, ms + [m])
  {
    hide Pack, Frames;
    FramesAppend(ms, m);
    assert (ms + [m])[..|ms|] == ms;
    if broken2 && !broken {
      assert sent + [] == sent;
    }
  }

  /** The bytes a drain reads: as many as there is room for. */
  function Taking(rest: seq<Byte>, incoming: seq<Byte>): (b: seq<Byte>)
    ensures b <= incoming
    ensures |rest| + |incoming| <= RBUF_SIZE ==> b == incoming
  {
    if |rest| <= RBUF_SIZE then incoming[..Min(|incoming|, RBUF_SIZE - |rest|)] else []
  }

  lemma TakenAll(rest: seq<Byte>, incoming: seq<Byte>, taken: seq<Byte>, left: seq<Byte>)
    requires taken + left == incoming && |rest| + |taken| <= RBUF_SIZE
    requires left == [] || |rest| + |taken| == RBUF_SIZE
    ensures Taking(rest, incoming) == taken
  {
  }

  lemma MovedOver(kept: seq<Byte>, ahead: seq<Byte>, n: nat)
    requires n <= |ahead|
    ensures (kept + ahead[..n]) + ahead[n..] == kept + ahead
  {
  }

  class Channel {
    var fd: int
    var inUse: bool
    const rbuf: array<Byte>
    var rbufLen: int
    const sbuf: SendBuf
    const link: Link

    /** The current session: bytes read, requests acted on, messages given to `slot_send`,
        and what became of them. */
    ghost var received: seq<Byte>
    ghost var requests: seq<Message>
    ghost var handed: seq<Tagged>
    ghost var fates: seq<Fate>

    constructor ()
      ensures !inUse && rbuf.Length == RBUF_SIZE && sbuf.Valid()
      ensures fresh(rbuf) && fresh(sbuf) && fresh(sbuf.buf) && fresh(link) && rbuf != sbuf.buf
      ensures handed == [] && SendOk() && RecvOk()
    {
      fd, inUse, rbufLen := 0, false, 0;
      var r := new Byte[RBUF_SIZE](_ => 0);
      var s := new SendBuf();
      rbuf := r;
      sbuf := s;
      link := new Link();
      received, requests, handed, fates := [], [], [], [];
    }

    /** The bytes waiting for the rest of their frame. */
    ghost function Rest(): seq<Byte>
      reads this`inUse, this`rbufLen, rbuf
    {
      if inUse && 0 <= rbufLen <= rbuf.Length then rbuf[..rbufLen] else []
    }

    ghost function Accepted(): seq<Tagged>
      reads this`handed, this`fates
    {
      Undropped(handed, fates)
    }

    /** Bytes taken by the kernel and bytes queued are the frames of the accepted messages;
        EPOLLOUT is registered exactly while something is queued; the fates are by the rule. */
    ghost predicate SendOk()
      reads this`inUse, this`handed, this`fates, link`sent, link`broken, link`pollOut, sbuf, sbuf.buf
    {
      && sbuf.Valid()
      && (inUse ==>
            && Integrity()
            && (link.pollOut <==> sbuf.Queue() != [])
            && Fated(handed, fates, link.broken)
            && (sbuf.Queue() != [] ==> NoneDead(fates)))
    }

    lemma SendMeans()
      requires SendOk()
      ensures sbuf.Valid()
      ensures inUse ==>
                && Conveyed(link.sent, sbuf.Queue(), link.broken, Msgs(Accepted()))
                && (link.pollOut <==> sbuf.Queue() != [])
                && Fated(handed, fates, link.broken)
    {
      hide Frames, Msgs, Fated, Undropped, Conveyed;
    }

    ghost predicate Integrity()
      requires sbuf.Valid()
      reads this`handed, this`fates, link`sent, link`broken, sbuf, sbuf.buf
    {
      Conveyed(link.sent, sbuf.Queue(), link.broken, Msgs(Accepted()))
    }

    /** Everything received is accounted for: acted on, or the unfinished frame in `rbuf`. */
    ghost predicate RecvOk()
      reads this`inUse, this`rbufLen, this`received, this`requests, rbuf
    {
      && rbuf.Length == RBUF_SIZE
      && (inUse ==>
            && 0 <= rbufLen < HEADER_SIZE + MAX_PAYLOAD_LEN
            && Decode(received) == Parse(requests, rbuf[..rbufLen], false)
            && NoLogout(requests))
    }

    /** `memset(c, 0, sizeof(Client))`, this half of it. */
    method Clear()
      requires SendOk() && rbuf.Length == RBUF_SIZE
      modifies this`fd, this`inUse, this`rbufLen, rbuf, sbuf, link
      ensures !inUse && fd == 0 && rbufLen == 0
      ensures SendOk() && RecvOk()
      ensures link.stalls == old(link.stalls) && link.failures == old(link.failures)
      ensures sbuf.Queue() == [] && !link.broken && !link.pollOut && link.sent == [] && link.incoming == []
    {
      fd, inUse, rbufLen := 0, false, 0;
      forall i | 0 <= i < rbuf.Length {
        rbuf[i] := 0;
      }
      sbuf.head, sbuf.tail := 0, 0;
      link.sent, link.broken, link.pollOut, link.incoming := [], false, false, [];
    }

    /** The queue is flushed; once it is empty EPOLLOUT is no longer asked for. */
    method FlushOut() returns (ret: int)
      requires inUse && SendOk()
      modifies link`sent, link`broken, link`stalls, link`failures, link`pollOut, sbuf
      ensures SendOk()
      ensures link.sent + sbuf.Queue() == old(link.sent) + old(sbuf.Queue())
      ensures ret == 0 || ret == 1 || ret == -1
      ensures ret == 0 <==> sbuf.Queue() == []
      ensures link.stalls == old(link.stalls) + if ret == 1 then 1 else 0
      ensures link.failures == old(link.failures) + if ret == -1 then 1 else 0
      ensures ret == -1 ==> link.broken
      ensures ret == 1 ==> !link.broken
    {
      hide Frames, Msgs, Fated, Undropped, SendBuf.Queue;
      ghost var before, queue, broken := link.sent, sbuf.Queue(), link.broken;
      ret := sbuf.Flush(link);
      if queue == [] {
        EmptyFlush(before, link.sent, sbuf.Queue());
      }
      FatedBroken(handed, fates, broken, link.broken);
      assert |link.sent + sbuf.Queue()| == |before + queue|;
      if ret == 0 {
        link.pollOut := false;
      }
    }

    lemma EmptyFlush(before: seq<Byte>, after: seq<Byte>, queue: seq<Byte>)
      requires after + queue == before + []
      ensures queue == [] ==> after == before
    {
      assert before + [] == before && after + [] == after;
    }

    /** A new connection in a cleared slot. */
    method Open(fd: int)
      requires SendOk() && rbuf.Length == RBUF_SIZE
      modifies this, rbuf, sbuf, link
      ensures inUse && this.fd == fd && SendOk() && RecvOk()
      ensures rbufLen == 0 && received == [] && requests == [] && handed == [] && fates == []
      ensures link.sent == [] && !link.broken && sbuf.Queue() == []
    {
      hide Frames, Msgs, Decode, Undropped, Fated;
      Clear();
      received, requests, handed, fates := [], [], [], [];
      NothingYet();
      this.fd, inUse := fd, true;
      assert rbuf[..0] == [];
      assert link.sent + sbuf.Queue() == [];
    }

    lemma NothingYet()
      ensures Msgs([]) == [] && Frames([]) == [] && Fated([], [], false) && Undropped([], []) == []
      ensures Decode([]) == Parse([], [], false)
    {
      assert Msgs([]) == [];
    }

    /** The read loop of `handle_read`, ending in EAGAIN or in a reason to drop the connection:
        no room left, end of file, or an error. */
    method Fill() returns (again: bool)
      requires rbuf.Length == RBUF_SIZE && 0 <= rbufLen < RBUF_SIZE
      modifies this`rbufLen, this`received, link`incoming, rbuf
      ensures var total := old(rbuf[..rbufLen]) + old(link.incoming);
              && (again <==> |total| < RBUF_SIZE && old(link.ending) == Again)
              && (again ==> && 0 <= rbufLen <= RBUF_SIZE && rbuf[..rbufLen] == total
                            && received == old(received) + old(link.incoming))
      ensures received == old(received) + Taking(old(rbuf[..rbufLen]), old(link.incoming))
    {
      ghost var total := rbuf[..rbufLen] + link.incoming;
      hide Taking;
      ghost var w, taken: seq<Byte> := rbuf[..rbufLen], [];
      while true
        invariant 0 <= rbufLen <= RBUF_SIZE
        invariant link.ending == old(link.ending)
        invariant rbuf[..rbufLen] + link.incoming == total
        invariant received == old(received) + taken && taken + link.incoming == old(link.incoming)
        invariant |taken| == rbufLen - old(rbufLen)
        decreases RBUF_SIZE - rbufLen
      {
        var room := RBUF_SIZE - rbufLen;
        if room <= 0 {
          TakenAll(w, old(link.incoming), taken, link.incoming);
          return false;
        }
        ghost var kept, ahead := rbuf[..rbufLen], link.incoming;
        var r := ReadOnce(room);
        if r.Done? {
          MovedOver(kept, ahead, r.n);
          MovedOver(taken, ahead, r.n);
          assert (old(received) + taken) + ahead[..r.n] == old(received) + (taken + ahead[..r.n]);
          taken := taken + ahead[..r.n];
          continue;
        }
        assert kept + [] == kept && taken + [] == taken;
        TakenAll(w, old(link.incoming), taken, link.incoming);
        return r.Again?;
      }
    }

    /** One `read` of that loop. */
    method ReadOnce(room: nat) returns (r: Outcome)
      requires rbuf.Length == RBUF_SIZE && 0 <= rbufLen && room == RBUF_SIZE - rbufLen > 0
      modifies this`rbufLen, this`received, link`incoming, rbuf
      ensures r.Done? ==>
                && 0 < r.n <= |old(link.incoming)| && link.incoming == old(link.incoming)[r.n..]
                && rbufLen == old(rbufLen) + r.n <= RBUF_SIZE
                && rbuf[..rbufLen] == old(rbuf[..rbufLen]) + old(link.incoming)[..r.n]
                && received == old(received) + old(link.incoming)[..r.n]
      ensures !r.Done? ==>
                && r == link.ending && old(link.incoming) == link.incoming == []
                && rbufLen == old(rbufLen) && rbuf[..rbufLen] == old(rbuf[..rbufLen]) && received == old(received)
    {
      ghost var kept, ahead := rbuf[..rbufLen], link.incoming;
      r := link.Read(rbuf, rbufLen, room);
      if r.Done? {
        assert rbuf[..rbufLen + r.n] == kept + ahead[..r.n];
        received := received + ahead[..r.n];
        rbufLen := rbufLen + r.n;
      }
    }

    /** One whole frame is moved out of the front of the buffer. */
    method Shift(total: nat)
      requires rbuf.Length == RBUF_SIZE && total > 0
      requires rbufLen <= RBUF_SIZE
      modifies this`rbufLen, rbuf
      ensures rbufLen == old(rbufLen) - total
      ensures rbufLen >= 0 ==> rbuf[..rbufLen] == old(rbuf[..rbufLen])[total..]
    {
      rbufLen := rbufLen - total;
      if rbufLen > 0 {
        forall i | 0 <= i < rbufLen {
          rbuf[i] := rbuf[total + i];
        }
      }
    }

    /** The session as it stands, in slot `s`. */
    ghost function AsSession(s: nat): Session
      requires sbuf.Valid()
      reads this`received, this`requests, this`handed, this`fates, link`sent, link`broken, sbuf, sbuf.buf
    {
      Session(s, received, requests, handed, fates, link.sent, sbuf.Queue(), link.broken)
    }

    /** A connection may be closed at any moment at which its requests are accounted for. */
    lemma EndsWell(s: nat)
      requires inUse && SendOk()
      requires requests <= UpToLogout(Decode(received).msgs)
      ensures SessionOk(AsSession(s))
    {
      hide Fated, Undropped, Frames, Msgs, UpToLogout, Decode, Conveyed;
    }

    /** `slot_send` on this channel. Bytes come to be queued behind nothing only because the
        socket refused them. */
    method Send(m: Message, ghost step: nat)
      requires inUse && SendOk()
      modifies this`handed, this`fates, link`sent, link`broken, link`stalls, link`failures, link`pollOut
      modifies sbuf, sbuf.buf
      ensures SendOk()
      ensures handed == old(handed) + [Tagged(step, m)]
      ensures fates == old(fates) + [FateOf(|old(sbuf.Queue())|, |Pack(m)|, old(link.broken))]
      ensures old(sbuf.Queue()) == [] ==> (sbuf.Queue() != [] <==> link.stalls == old(link.stalls) + 1)
    {
      hide Pack, Frames, Msgs, Fated, Undropped, Carried, NoneDead, SendBuf.Queue, Conveyed;
      ghost var t := Tagged(step, m);
      ghost var sent, queue, broken, ms := link.sent, sbuf.Queue(), link.broken, Msgs(Accepted());
      ghost var fate := FateOf(|queue|, |Pack(m)|, broken);
      FatedSizes(handed, fates, broken);
      QueueCarried(sent, queue, broken);
      UndroppedAppend(handed, fates, t, fate);
      MsgsAppend(Accepted(), t);
      var wire := new Byte[HEADER_SIZE + MAX_PAYLOAD_LEN];
      var len := PackMessage(m, wire);
      QueueLength();
      var taken := Transmit(wire, len);
      FatedAppend(handed, fates, t, |queue|, broken, link.broken);
      if taken {
        ConveyedMore(sent, queue, broken, ms, m, link.sent, sbuf.Queue(), link.broken);
      }
      assert Undropped(handed, fates) + [] == Undropped(handed, fates);
      handed, fates := handed + [t], fates + [fate];
    }

    lemma FatedSizes(handed: seq<Tagged>, fates: seq<Fate>, broken: bool)
      requires Fated(handed, fates, broken)
      ensures |fates| == |handed|
      ensures NoneDead(fates) || broken
    {
      hide Pack, Carried;
    }

    lemma QueueCarried(sent: seq<Byte>, queue: seq<Byte>, broken: bool)
      requires Conveyed(sent, queue, broken, Msgs(Accepted()))
      ensures |queue| <= Carried(handed, fates)
    {
      hide Frames, Msgs, Undropped;
    }

    lemma QueueLength()
      requires sbuf.Valid()
      ensures |sbuf.Queue()| == sbuf.tail - sbuf.head
    {
    }

    /** The frame `wire[..len]`, written, queued or both; false when it is dropped whole. */
    method Transmit(wire: array<Byte>, len: nat) returns (taken: bool)
      requires sbuf.Valid() && 0 < len <= wire.Length && len < SBUF_SIZE && wire != sbuf.buf
      requires link.pollOut <==> sbuf.Queue() != []
      modifies link`sent, link`broken, link`stalls, link`failures, link`pollOut
      modifies sbuf, sbuf.buf
      ensures sbuf.Valid()
      ensures taken <==> if old(sbuf.Queue()) == [] then !old(link.broken) else |old(sbuf.Queue())| + len <= SBUF_SIZE
      ensures !taken ==> && link.sent == old(link.sent) && sbuf.Queue() == old(sbuf.Queue())
                         && link.broken == old(link.broken)
      ensures taken && link.broken && !old(link.broken) ==>
                && old(sbuf.Queue()) == [] && sbuf.Queue() == []
                && old(link.sent) <= link.sent && link.sent < old(link.sent) + old(wire[..len])
      ensures taken && !(link.broken && !old(link.broken)) ==>
                && link.sent + sbuf.Queue() == old(link.sent) + old(sbuf.Queue()) + old(wire[..len])
                && (old(sbuf.Queue()) != [] ==> sbuf.Queue() != [])
      ensures old(link.broken) ==> link.broken && link.sent == old(link.sent)
      ensures link.pollOut <==> sbuf.Queue() != []
      ensures if old(sbuf.Queue()) == [] then sbuf.Queue() != [] <==> link.stalls == old(link.stalls) + 1
              else link.stalls == old(link.stalls) && link.failures == old(link.failures)
    {
      hide SendBuf.Queue;
      QueueLength();
      if sbuf.head == sbuf.tail {
        taken := TransmitDirect(wire, len);
        return;
      }
      taken := sbuf.Push(wire, 0, len);
      assert wire[0..len] == wire[..len];
      assert (link.sent + old(sbuf.Queue())) + wire[..len] == link.sent + (old(sbuf.Queue()) + wire[..len]);
      link.pollOut := true;
    }

    /** The same when nothing is queued: what `write` does not take is queued and, the queue
        being empty, always fits. */
    method TransmitDirect(wire: array<Byte>, len: nat) returns (taken: bool)
      requires sbuf.Valid() && 0 < len <= wire.Length && len < SBUF_SIZE && wire != sbuf.buf
      requires sbuf.Queue() == [] && !link.pollOut
      modifies link`sent, link`broken, link`stalls, link`failures, link`pollOut
      modifies sbuf, sbuf.buf
      ensures sbuf.Valid()
      ensures taken == !old(link.broken)
      ensures link.broken ==> sbuf.Queue() == []
      ensures link.broken && !old(link.broken) ==>
                old(link.sent) <= link.sent && link.sent < old(link.sent) + old(wire[..len])
      ensures old(link.broken) ==> link.broken && link.sent == old(link.sent)
      ensures !link.broken ==> link.sent + sbuf.Queue() == old(link.sent) + old(wire[..len])
      ensures link.pollOut <==> sbuf.Queue() != []
      ensures sbuf.Queue() != [] <==> link.stalls == old(link.stalls) + 1
    {
      hide SendBuf.Queue;
      taken := !link.broken;
      ghost var before, frame := link.sent, wire[..len];
      var sent, end := SendDirect(wire, len);
      Joined(before, frame, sent);
      assert wire[..sent] == frame[..sent] && wire[sent..len] == frame[sent..];
      if end.Failed? || sent == len {
        return;
      }
      var ok := sbuf.Push(wire, sent, len);
      assert [] + wire[sent..len] == wire[sent..len];
      link.pollOut := true;
    }

    lemma Joined(before: seq<Byte>, frame: seq<Byte>, sent: nat)
      requires sent <= |frame|
      ensures (before + frame[..sent]) + frame[sent..] == before + frame
      ensures before <= before + frame[..sent] <= before + frame
      ensures sent < |frame| ==> before + frame[..sent] < before + frame
    {
      assert frame[..sent] + frame[sent..] == frame;
    }

    /** The write loop of `slot_send`: it stops when all is written, when the socket refuses a
        write, or at a failure, which leaves the connection broken. */
    method SendDirect(wire: array<Byte>, len: nat) returns (sent: nat, end: Outcome)
      requires 0 < len <= wire.Length
      modifies link`sent, link`broken, link`stalls, link`failures
      ensures sent <= len
      ensures link.sent == old(link.sent) + wire[..sent]
      ensures old(link.broken) ==> link.broken && sent == 0
      ensures sent == len <==> end.Done?
      ensures link.broken <==> end.Failed?
      ensures end.Done? || end.Again? || end.Failed?
      ensures link.stalls == old(link.stalls) + if end.Again? then 1 else 0
      ensures link.failures == old(link.failures) + if end.Failed? then 1 else 0
    {
      sent, end := 0, Done(0);
      while sent < len
        invariant 0 <= sent <= len
        invariant link.sent == old(link.sent) + wire[..sent]
        invariant link.broken == old(link.broken)
        invariant link.stalls == old(link.stalls) && link.failures == old(link.failures)
        invariant old(link.broken) ==> sent == 0
        invariant end.Done? && (sent == len ==> !link.broken)
        decreases len - sent
      {
        end := link.Write(wire, sent, len);
        if end.Done? {
          assert wire[..sent] + wire[sent..sent + end.n] == wire[..sent + end.n];
          sent := sent + end.n;
          continue;
        }
        return;
      }
    }
  }
}
