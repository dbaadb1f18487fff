/** What the epoll server's loop does, on values: what a drain of a readable socket amounts to,
    and what any sequence of events does to the connections and to the service. */
module EpollLoop {
  import opened Bytes
  import opened Codec
  import opened Framing
  import opened ChatSpec
  import opened SlotIo

  // ---------- what a drain of a readable socket amounts to ----------

  /** The requests a drain leads to, whether the connection survives it, and what is then
      left in the buffer. */
  datatype Drain = Drain(requests: seq<Message>, live: bool, rest: seq<Byte>)

  /** `total` is the buffer's old content followed by everything the socket yielded before
      reporting `ending`. How the bytes were cut up does not matter. */
  function Drained(total: seq<Byte>, ending: Ending): Drain {
    if |total| >= RBUF_SIZE || ending != Again then Drain([], false, []) else Parsed(Decode(total))
  }

  function Parsed(p: Parse): Drain {
    Drain(UpToLogout(p.msgs), NoLogout(p.msgs) && !p.bad, p.rest)
  }

  /** A client with at most one frame outstanding is never cut off for lack of room. */
  lemma OneFrameFits(m: Message, total: seq<Byte>)
    requires total <= Pack(m)
    ensures Drained(total, Again) == if total != Pack(m) then Drain([], true, total)
                                     else Drain([Normal(m)], m.kind % 256 != MSG_LOGOUT, [])
  {
    hide Pack, Decode, Normal;
    FrameSize(m);
    if total == Pack(m) {
      DecodeOne(m);
      NormalKind(m);
      UpToLogoutHead(Normal(m), []);
      UpToLogoutNone();
      assert [Normal(m)] + [] == [Normal(m)];
      assert UpToLogout([Normal(m)]) == [Normal(m)];
    } else {
      assert UpToLogout([]) == [];
      PartialFrame(m, total);
    }
  }

  lemma FrameSize(m: Message)
    ensures |Pack(m)| <= HEADER_SIZE + MAX_PAYLOAD_LEN
  {
  }

  lemma NormalKind(m: Message)
    ensures Normal(m).kind == m.kind % 256
  {
  }

  /** The service after a drain of slot `s`: its requests, then its loss if it has gone. */
  function DrainEffect(c: Chat, s: nat, d: Drain, world: World, k: nat): Effect
    requires s < |c.slots|
  {
    var e := Serve(c, s, d.requests, world, k, false);
    if d.live then e
    else
      var l := Leave(e.chat, s, world(k + |d.requests|).now);
      Effect(l.chat, e.outs + l.outs)
  }

  /** The same as events of the service. */
  function DrainEvents(s: nat, d: Drain, world: World, k: nat): seq<Event> {
    Requests(s, d.requests, world, k) + if d.live then [] else [Gone(s, world(k + |d.requests|).now)]
  }

  lemma DrainIsRun(c: Chat, s: nat, d: Drain, world: World, k: nat)
    requires s < |c.slots|
    ensures Within(DrainEvents(s, d, world, k), |c.slots|)
    ensures Run(c, DrainEvents(s, d, world, k), false) == DrainEffect(c, s, d, world, k)
  {
    hide Run, Serve, Leave;
    ServeIsRun(c, s, d.requests, world, k, false);
    var reqs := Requests(s, d.requests, world, k);
    if d.live {
      assert reqs + [] == reqs;
    } else {
      RunOne(c, reqs, Gone(s, world(k + |d.requests|).now), false);
    }
  }

  // ---------- the parsing loop, on values ----------

  /** `done` has been taken out of the buffer; `w` is still in it. */
  predicate Consumed(p: Parse, done: seq<Message>, w: seq<Byte>) {
    p == Parse(done + Decode(w).msgs, Decode(w).rest, Decode(w).bad)
  }

  lemma ConsumedStep(p: Parse, done: seq<Message>, w: seq<Byte>)
    requires Consumed(p, done, w) && Complete(w)
    ensures Consumed(p, done + [FirstMessage(w)], w[FrameLen(w)..])
    ensures p.msgs == done + ([FirstMessage(w)] + Decode(w[FrameLen(w)..]).msgs)
  {
    hide Complete;
    var rest := Decode(w[FrameLen(w)..]).msgs;
    assert done + ([FirstMessage(w)] + rest) == (done + [FirstMessage(w)]) + rest;
  }

  lemma ConsumedEnd(p: Parse, done: seq<Message>, w: seq<Byte>)
    requires Consumed(p, done, w) && !Complete(w)
    ensures p == Parse(done, w, Oversized(w))
  {
    assert done + [] == done;
  }

  lemma NextAllowed(before: seq<Message>, done: seq<Message>, m: Message, rest: seq<Message>)
    requires NoLogout(before) && NoLogout(done)
    ensures (before + done) + [m] <= UpToLogout(before + (done + ([m] + rest)))
  {
    hide UpToLogout;
    assert NoLogout(before + done);
    assert before + (done + ([m] + rest)) == (before + done) + ([m] + rest);
    UpToLogoutAppend(before + done, [m] + rest);
    UpToLogoutHead(m, rest);
  }

  lemma WholeIsAllowed(before: seq<Message>, done: seq<Message>)
    requires NoLogout(before) && NoLogout(done)
    ensures UpToLogout(before + done) == before + done
  {
    hide UpToLogout;
    assert NoLogout(before + done);
    UpToLogoutAppend(before + done, []);
    assert (before + done) + [] == before + done;
    UpToLogoutNone();
  }

  lemma RequestsSize(s: nat, reqs: seq<Message>, world: World, k: nat)
    ensures |Requests(s, reqs, world, k)| == |reqs|
  {
  }

  /** The events of one request more, and of the loss that may follow it. */
  lemma OneRequestMore(log: seq<Event>, s: nat, done: seq<Message>, m: Message, world: World)
    ensures var k, n := |log|, |log| + |done|;
            var before, req := log + Requests(s, done, world, k), Request(s, m, world(n));
            var gone := Gone(s, world(n + 1).now);
            && |before| == n
            && before + [req] + [] == log + Requests(s, done + [m], world, k)
            && before + [req] + [gone] == log + (Requests(s, done + [m], world, k) + [gone])
  {
    var k, n := |log|, |log| + |done|;
    assert Requests(s, done + [m], world, k) == Requests(s, done, world, k) + [Request(s, m, world(n))];
  }

  lemma UpToLogoutNone()
    ensures UpToLogout([]) == []
  {
  }

  lemma IncompleteIsShort(w: seq<Byte>)
    requires !Complete(w) && !Oversized(w)
    ensures |w| < HEADER_SIZE + MAX_PAYLOAD_LEN
    ensures Decode(w) == Parse([], w, false)
  {
  }

  lemma NotComplete(w: seq<Byte>)
    requires |w| < HEADER_SIZE || (PLen(w) <= MAX_PAYLOAD_LEN && |w| < HEADER_SIZE + PLen(w))
    ensures !Complete(w) && !Oversized(w)
  {
  }

  lemma YesComplete(w: seq<Byte>)
    requires |w| >= HEADER_SIZE && PLen(w) <= MAX_PAYLOAD_LEN && |w| >= HEADER_SIZE + PLen(w)
    ensures Complete(w)
  {
  }

  lemma UpToLogoutHead(m: Message, rest: seq<Message>)
    ensures [m] <= UpToLogout([m] + rest)
  {
    assert ([m] + rest)[1..] == rest;
  }

  /** An event of the loop: a connection waiting, an error or hang-up, or readiness with what
      the socket will yield and how it will end. */
  datatype IoEvent =
    | Connect(fd: int)
    | Trouble(fd: int)
    | Ready(fd: int, readable: bool, incoming: seq<Byte>, ending: Ending, writable: bool)

  // ---------- the event loop, on values ----------

  /** What the loop knows of its connections: the descriptor of every slot in use, the bytes
      that wait there for the rest of their frame, all the bytes read in its session, those
      read in the sessions that have ended, and the number of events of the service so far. */
  datatype View = View(fds: seq<Option<int>>, rests: seq<seq<Byte>>, read: seq<seq<Byte>>,
                       ended: seq<seq<Byte>>, step: nat)

  /** What an event leads to: the view after it, and what it is to the service. */
  datatype Reaction = Reaction(view: View, news: seq<Event>)

  predicate ViewOk(v: View) {
    |v.fds| == |v.rests| == |v.read| == MAX_CLIENTS
  }

  /** The slot that holds `fd`, at or above `i`; -1 if there is none. */
  function Holder(fds: seq<Option<int>>, fd: int, i: nat): (s: int)
    requires i <= |fds|
    ensures if s == -1 then Some(fd) !in fds[i..] else i <= s < |fds| && fds[s] == Some(fd)
    decreases |fds| - i
  {
    if i == |fds| then -1 else if fds[i] == Some(fd) then i else Holder(fds, fd, i + 1)
  }

  /** The first slot not in use, at or above `i`; -1 if there is none. */
  function FirstFree(fds: seq<Option<int>>, i: nat): (s: int)
    requires i <= |fds|
    ensures s == -1 <==> None !in fds[i..]
    ensures s != -1 ==> i <= s < |fds| && fds[s] == None && None !in fds[i..s]
    decreases |fds| - i
  {
    if i == |fds| then -1 else if fds[i] == None then i else FirstFree(fds, i + 1)
  }

  /** The session of slot `s`, in which `read` was read in all, is over. */
  function Ceasing(v: View, s: nat, read: seq<Byte>, step: nat): (w: View)
    requires ViewOk(v) && s < MAX_CLIENTS
    ensures ViewOk(w)
  {
    View(v.fds[s := None], v.rests[s := []], v.read[s := []], v.ended + [read], step)
  }

  /** Slot `s` is dropped. */
  function Dropping(v: View, s: nat, world: World): (r: Reaction)
    requires ViewOk(v) && s < MAX_CLIENTS
    ensures ViewOk(r.view)
  {
    Reaction(Ceasing(v, s, v.read[s], v.step + 1), [Gone(s, world(v.step).now)])
  }

  /** Slot `s` is drained. */
  function Draining(v: View, s: nat, incoming: seq<Byte>, ending: Ending, world: World): (r: Reaction)
    requires ViewOk(v) && s < MAX_CLIENTS
    ensures ViewOk(r.view)
  {
    var d := Drained(v.rests[s] + incoming, ending);
    var read := v.read[s] + Taking(v.rests[s], incoming);
    var news := DrainEvents(s, d, world, v.step);
    Reaction(if d.live then View(v.fds, v.rests[s := d.rest], v.read[s := read], v.ended, v.step + |news|)
             else Ceasing(v, s, read, v.step + |news|), news)
  }

  lemma DrainingFds(v: View, s: int, ev: IoEvent, world: World)
    requires ViewOk(v) && ev.Ready? && -1 <= s < MAX_CLIENTS
    ensures s != -1 ==>
              var w := Draining(v, s, ev.incoming, ev.ending, world).view;
              w.fds == v.fds || w.fds == v.fds[s := None]
  {
    hide Drained, Taking, DrainEvents;
  }

  /** EPOLLIN, if it was reported, on slot `s`. */
  function Reading(v: View, s: nat, ev: IoEvent, world: World): (r: Reaction)
    requires ViewOk(v) && s < MAX_CLIENTS && ev.Ready?
    ensures ViewOk(r.view)
  {
    if ev.readable then Draining(v, s, ev.incoming, ev.ending, world) else Reaction(v, [])
  }

  /** One event; `fails` says whether a write it leads to in `handle_write` fails for good. */
  function React(v: View, ev: IoEvent, fails: bool, world: World): (r: Reaction)
    requires ViewOk(v)
    ensures ViewOk(r.view)
  {
    var s := Holder(v.fds, ev.fd, 0);
    match ev
    case Connect(fd) =>
      var free := FirstFree(v.fds, 0);
      if s != -1 || free == -1 then Reaction(v, [])
      else Reaction(v.(fds := v.fds[free := Some(fd)], step := v.step + 1), [Filled(free)])
    case Trouble(_) =>
      if s == -1 then Reaction(v, []) else Dropping(v, s, world)
    case Ready(_, _, _, _, writable) =>
      if s == -1 then Reaction(v, [])
      else
        var r := Reading(v, s, ev, world);
        if writable && fails && r.view.fds[s].Some? then
          var x := Dropping(r.view, s, world);
          Reaction(x.view, r.news + x.news)
        else r
  }

  /** All the events, one after the other. */
  function Reacting(v: View, evs: seq<IoEvent>, fails: seq<bool>, world: World): (r: Reaction)
    requires ViewOk(v) && |fails| == |evs|
    ensures ViewOk(r.view)
  {
    if evs == [] then Reaction(v, [])
    else
      var n := |evs| - 1;
      var r := Reacting(v, evs[..n], fails[..n], world);
      var x := React(r.view, evs[n], fails[n], world);
      Reaction(x.view, r.news + x.news)
  }

  lemma NoEventsYet(v: View, world: World)
    requires ViewOk(v)
    ensures Reacting(v, [], [], world) == Reaction(v, []) && Count([]) == 0
  {
  }

  lemma ReactingMore(v: View, evs: seq<IoEvent>, fails: seq<bool>, ev: IoEvent, fail: bool, world: World)
    requires ViewOk(v) && |fails| == |evs|
    ensures var r := Reacting(v, evs, fails, world);
            var x := React(r.view, ev, fail, world);
            Reacting(v, evs + [ev], fails + [fail], world) == Reaction(x.view, r.news + x.news)
  {
    hide React;
    assert (evs + [ev])[..|evs|] == evs && (fails + [fail])[..|evs|] == fails;
  }

  predicate OneEach(fds: seq<Option<int>>) {
    forall i, j :: 0 <= i < j < |fds| && fds[i].Some? ==> fds[i] != fds[j]
  }

  lemma SameOrGone(before: seq<Option<int>>, now: seq<Option<int>>, fd: int)
    requires OneEach(before)
    requires var s := Holder(before, fd, 0); now == before || (s != -1 && now == before[s := None])
    ensures now != before ==> Holder(now, fd, 0) == -1
  {
  }

  /** Chunking independence: what two readiness events in a row deliver to a connection might
      as well have come with one, so long as the buffer has room for it. Only what a session that
      the first one ends did not live to read makes a difference. */
  lemma OneReadOrTwo(v: View, fd: int, a: seq<Byte>, b: seq<Byte>, world: World)
    requires ViewOk(v) && OneEach(v.fds)
    requires var s := Holder(v.fds, fd, 0); s != -1 ==> |v.rests[s] + a + b| < RBUF_SIZE
    ensures var first, second := Ready(fd, true, a, Again, false), Ready(fd, true, b, Again, false);
            var r := React(v, first, false, world);
            var x := React(r.view, second, false, world);
            var y := React(v, Ready(fd, true, a + b, Again, false), false, world);
            && r.news + x.news == y.news
            && x.view.(ended := []) == y.view.(ended := [])
            && |x.view.ended| == |y.view.ended|
            && forall k :: 0 <= k < |x.view.ended| ==> x.view.ended[k] <= y.view.ended[k]
  {
    hide Drained, Decode, DrainEvents, Holder;
    var s := Holder(v.fds, fd, 0);
    if s != -1 {
      var w := v.rests[s];
      assert w + (a + b) == (w + a) + b && (v.read[s] + a) + b == v.read[s] + (a + b);
      var d := Drained(w + a, Again);
      TwoDrains(w + a, b);
      SameHolder(v.fds, fd, d.live);
      if d.live {
        var e := Drained(d.rest + b, Again);
        RestShorter(w + a, Again);
        TwoDrainsEvents(s, d, e, world, v.step);
      } else {
        SameRequests(s, d, Drained(w + a + b, Again), world, v.step);
        assert v.read[s] + a <= v.read[s] + (a + b);
      }
    }
  }

  lemma RestShorter(w: seq<Byte>, ending: Ending)
    ensures Drained(w, ending).live ==> |Drained(w, ending).rest| <= |w|
  {
    hide Decode;
    DecodedSize(w);
  }

  lemma SameHolder(fds: seq<Option<int>>, fd: int, live: bool)
    requires OneEach(fds) && Holder(fds, fd, 0) != -1
    ensures var s := Holder(fds, fd, 0);
            Holder(if live then fds else fds[s := None], fd, 0) == if live then s else -1
  {
    var s := Holder(fds, fd, 0);
    SameOrGone(fds, if live then fds else fds[s := None], fd);
  }

  /** A drain cut in two. */
  lemma TwoDrains(w: seq<Byte>, b: seq<Byte>)
    requires |w + b| < RBUF_SIZE
    ensures var d, all := Drained(w, Again), Drained(w + b, Again);
            if d.live then
              var e := Drained(d.rest + b, Again);
              all == Drain(d.requests + e.requests, e.live, e.rest) && NoLogout(d.requests)
            else
              !all.live && all.requests == d.requests
  {
    hide Decode, UpToLogout;
    DecodeAppend(w, b);
    var p := Decode(w);
    if NoLogout(p.msgs) && !p.bad {
      var q := Decode(p.rest + b);
      DecodedSize(w);
      UpToLogoutAppend(p.msgs, q.msgs);
      WholeIsAllowed([], p.msgs);
      assert [] + p.msgs == p.msgs;
      assert forall i :: 0 <= i < |q.msgs| ==> (p.msgs + q.msgs)[|p.msgs| + i] == q.msgs[i];
    } else if !p.bad {
      UpToLogoutSame(p.msgs, Decode(p.rest + b).msgs);
    }
  }

  lemma {:induction false} UpToLogoutSame(a: seq<Message>, b: seq<Message>)
    requires !NoLogout(a)
    ensures UpToLogout(a + b) == UpToLogout(a) && !NoLogout(a + b)
  {
    assert (a + b)[0] == a[0] && (a + b)[1..] == a[1..] + b;
    if a[0].kind != MSG_LOGOUT {
      assert !NoLogout(a[1..]) by {
        var i :| 0 <= i < |a| && a[i].kind == MSG_LOGOUT;
        assert a[1..][i - 1] == a[i];
      }
      UpToLogoutSame(a[1..], b);
    }
    var i :| 0 <= i < |a| && a[i].kind == MSG_LOGOUT;
    assert (a + b)[i] == a[i];
  }

  lemma {:induction false} DecodedSize(w: seq<Byte>)
    ensures |Decode(w).rest| <= |w|
    decreases |w|
  {
    hide Oversized, FirstMessage;
    if Complete(w) {
      DecodedSize(w[FrameLen(w)..]);
    }
  }

  lemma TwoDrainsEvents(s: nat, d: Drain, e: Drain, world: World, k: nat)
    requires d.live && NoLogout(d.requests)
    ensures var all := Drain(d.requests + e.requests, e.live, e.rest);
            && DrainEvents(s, all, world, k)
               == DrainEvents(s, d, world, k) + DrainEvents(s, e, world, k + |DrainEvents(s, d, world, k)|)
  {
    var x, y := d.requests, e.requests;
    assert Requests(s, x + y, world, k) == Requests(s, x, world, k) + Requests(s, y, world, k + |x|);
  }

  lemma SameRequests(s: nat, d: Drain, all: Drain, world: World, k: nat)
    requires !d.live && !all.live && all.requests == d.requests
    ensures DrainEvents(s, all, world, k) == DrainEvents(s, d, world, k)
  {
  }

  /** A readiness event ends a session exactly if the bytes outgrow the buffer, the socket does
      not end the drain with EAGAIN, they hold a LOGOUT or a header announcing too much, or the
      flush meets a failed write. Then its loss is the last thing that happens to the service, and
      before it come the requests decoded; trouble ends a session always. */
  lemma WhoIsLost(v: View, ev: IoEvent, fails: bool, world: World)
    requires ViewOk(v) && (ev.Ready? || ev.Trouble?) && Holder(v.fds, ev.fd, 0) != -1
    ensures var s, r := Holder(v.fds, ev.fd, 0), React(v, ev, fails, world);
            var lost := || ev.Trouble?
                        || (ev.readable && Ends(v.rests[s] + ev.incoming, ev.ending))
                        || (ev.writable && fails);
            && (forall i :: 0 <= i < MAX_CLIENTS && i != s ==>
                              r.view.fds[i] == v.fds[i] && r.view.rests[i] == v.rests[i])
            && if lost then
                 && r.view.fds[s] == None && r.view.ended != [] && v.ended <= r.view.ended
                 && |r.view.ended| == |v.ended| + 1
                 && r.news != [] && r.news[|r.news| - 1].Gone? && r.news[|r.news| - 1].s == s
                 && forall k :: 0 <= k < |r.news| - 1 ==> r.news[k].Request? && r.news[k].s == s
               else
                 && r.view.fds == v.fds && r.view.ended == v.ended
                 && forall k :: 0 <= k < |r.news| ==> r.news[k].Request? && r.news[k].s == s
  {
    hide Decode, Taking, Holder, UpToLogout;
    var s := Holder(v.fds, ev.fd, 0);
    assert v.fds[s] == Some(ev.fd);
  }

  /** What ends a session while it is drained. */
  predicate Ends(total: seq<Byte>, ending: Ending) {
    |total| >= RBUF_SIZE || ending != Again || !NoLogout(Decode(total).msgs) || Decode(total).bad
  }

  // ---------- one connection among others ----------

  /** All that readiness events deliver on descriptor `fd`. */
  function Incoming(evs: seq<IoEvent>, fd: int): seq<Byte> {
    if evs == [] then []
    else
      var ev := evs[|evs| - 1];
      Incoming(evs[..|evs| - 1], fd) + if ev.Ready? && ev.readable && ev.fd == fd then ev.incoming else []
  }

  /** The requests of a session so far, and whether it is over. */
  datatype Course = Course(requests: seq<Message>, lost: bool)

  function Onward(c: Course, ev: Event, s: nat): Course {
    if c.lost || ev.s != s then c
    else if ev.Request? then c.(requests := c.requests + [ev.req])
    else c.(lost := ev.Gone?)
  }

  /** The session of slot `s` through these events, until its loss. */
  function CourseOf(c: Course, news: seq<Event>, s: nat): Course {
    if news == [] then c else Onward(CourseOf(c, news[..|news| - 1], s), news[|news| - 1], s)
  }

  lemma CourseOne(c: Course, news: seq<Event>, ev: Event, s: nat)
    ensures CourseOf(c, news + [ev], s) == Onward(CourseOf(c, news, s), ev, s)
    ensures CourseOf(c, [], s) == c
  {
    assert (news + [ev])[..|news|] == news;
  }

  lemma {:induction false} CourseConcat(c: Course, a: seq<Event>, b: seq<Event>, s: nat)
    ensures CourseOf(c, a + b, s) == CourseOf(CourseOf(c, a, s), b, s)
    decreases |b|
  {
    if b == [] {
      assert a + b == a;
    } else {
      var n := |b| - 1;
      CourseConcat(c, a, b[..n], s);
      assert a + b == (a + b[..n]) + [b[n]] && b == b[..n] + [b[n]];
      CourseOne(c, a + b[..n], b[n], s);
      CourseOne(CourseOf(c, a, s), b[..n], b[n], s);
    }
  }

  /** Once over, or left alone, a session stays as it is. */
  lemma {:induction false} CourseStill(c: Course, news: seq<Event>, s: nat)
    requires c.lost || forall k :: 0 <= k < |news| ==> news[k].s != s
    ensures CourseOf(c, news, s) == c
  {
    if news != [] {
      CourseStill(c, news[..|news| - 1], s);
    }
  }

  lemma {:induction false} CourseRequests(c: Course, s: nat, reqs: seq<Message>, world: World, k: nat)
    requires !c.lost
    ensures CourseOf(c, Requests(s, reqs, world, k), s) == c.(requests := c.requests + reqs)
    decreases |reqs|
  {
    if reqs == [] {
      assert c.requests + [] == c.requests;
    } else {
      var n := |reqs| - 1;
      CourseRequests(c, s, reqs[..n], world, k);
      assert Requests(s, reqs, world, k) == Requests(s, reqs[..n], world, k) + [Request(s, reqs[n], world(k + n))];
      CourseOne(c, Requests(s, reqs[..n], world, k), Request(s, reqs[n], world(k + n)), s);
      assert c.requests + reqs == (c.requests + reqs[..n]) + [reqs[n]];
    }
  }

  lemma CourseDrain(c: Course, s: nat, d: Drain, world: World, k: nat)
    requires !c.lost
    ensures CourseOf(c, DrainEvents(s, d, world, k), s) == Course(c.requests + d.requests, !d.live)
  {
    hide Requests, CourseOf;
    var reqs := Requests(s, d.requests, world, k);
    CourseRequests(c, s, d.requests, world, k);
    if d.live {
      assert reqs + [] == reqs;
    } else {
      CourseOne(c, reqs, Gone(s, world(k + |d.requests|).now), s);
    }
  }

  /** A session on slot `s` that began with `w` in the buffer and has since been delivered
      `got`: still there, it has acted on exactly what these bytes spell out and holds the rest;
      over, it acted on a prefix of that, nothing after a LOGOUT. */
  predicate Accounted(v: View, c: Course, s: nat, fd: int, w: seq<Byte>, got: seq<Byte>)
    requires ViewOk(v) && s < MAX_CLIENTS
  {
    var p := Decode(w + got);
    if c.lost then c.requests <= UpToLogout(p.msgs)
    else v.fds[s] == Some(fd) && p == Parse(c.requests, v.rests[s], false) && NoLogout(p.msgs)
  }

  lemma UpToLogoutGrows(a: seq<Message>, b: seq<Message>)
    ensures UpToLogout(a) <= UpToLogout(a + b)
  {
    if NoLogout(a) {
      UpToLogoutAppend(a, b);
      UpToLogoutAppend(a, []);
      UpToLogoutNone();
      assert a + [] == a;
    } else {
      UpToLogoutSame(a, b);
    }
  }

  lemma LostAccounted(v: View, c: Course, s: nat, fd: int, w: seq<Byte>, got: seq<Byte>, more: seq<Byte>, v2: View)
    requires ViewOk(v) && ViewOk(v2) && s < MAX_CLIENTS && c.lost && Accounted(v, c, s, fd, w, got)
    ensures Accounted(v2, c, s, fd, w, got + more)
  {
    hide Decode, UpToLogout;
    assert w + (got + more) == (w + got) + more;
    DecodeAppend(w + got, more);
    var p := Decode(w + got);
    UpToLogoutGrows(p.msgs, if p.bad then [] else Decode(p.rest + more).msgs);
    assert p.msgs + [] == p.msgs;
  }

  /** A live session loses its connection. */
  lemma LossAccounted(v: View, c: Course, s: nat, fd: int, w: seq<Byte>, got: seq<Byte>, more: seq<Byte>, v2: View)
    requires ViewOk(v) && ViewOk(v2) && s < MAX_CLIENTS && !c.lost && Accounted(v, c, s, fd, w, got)
    ensures Accounted(v2, c.(lost := true), s, fd, w, got + more)
  {
    hide Decode, UpToLogout;
    WholeIsAllowed([], c.requests);
    assert [] + c.requests == c.requests;
    LostAccounted(v, c.(lost := true), s, fd, w, got, more, v2);
  }

  /** A live session is drained. */
  lemma DrainAccounted(v: View, c: Course, s: nat, fd: int, w: seq<Byte>, got: seq<Byte>, incoming: seq<Byte>,
                       ending: Ending, v2: View)
    requires ViewOk(v) && ViewOk(v2) && s < MAX_CLIENTS && !c.lost && Accounted(v, c, s, fd, w, got)
    requires var d := Drained(v.rests[s] + incoming, ending);
             d.live ==> v2.fds[s] == v.fds[s] && v2.rests[s] == d.rest
    ensures var d := Drained(v.rests[s] + incoming, ending);
            Accounted(v2, Course(c.requests + d.requests, !d.live), s, fd, w, got + incoming)
  {
    hide Decode, UpToLogout;
    var total := v.rests[s] + incoming;
    if |total| >= RBUF_SIZE || ending != Again {
      LossAccounted(v, c, s, fd, w, got, incoming, v2);
      assert c.requests + [] == c.requests;
    } else {
      assert w + (got + incoming) == (w + got) + incoming;
      DecodeAppend(w + got, incoming);
      var q := Decode(total);
      UpToLogoutAppend(c.requests, q.msgs);
      if NoLogout(q.msgs) {
        WholeIsAllowed([], q.msgs);
        assert [] + q.msgs == q.msgs;
      }
    }
  }

  /** One event of the loop, on this connection or on another. */
  lemma ReactAccounted(v: View, ev: IoEvent, fails: bool, world: World, c: Course, s: nat, fd: int, w: seq<Byte>,
                       got: seq<Byte>)
    requires ViewOk(v) && OneEach(v.fds) && s < MAX_CLIENTS && Accounted(v, c, s, fd, w, got)
    ensures var r := React(v, ev, fails, world);
            && OneEach(r.view.fds)
            && Accounted(r.view, CourseOf(c, r.news, s), s, fd, w, got + Incoming([ev], fd))
  {
    hide Accounted, CourseOf, Drained, DrainEvents, Taking, Requests, Holder, FirstFree;
    var r := React(v, ev, fails, world);
    ReactKeepsApart(v, ev, fails, world);
    IncomingOne([], ev, fd);
    assert [] + Incoming([ev], fd) == Incoming([ev], fd) && got + [] == got;
    var more := Incoming([ev], fd);
    if c.lost {
      CourseStill(c, r.news, s);
      LostAccounted(v, c, s, fd, w, got, more, r.view);
    } else {
      LiveHolder(v, c, s, fd, w, got, ev.fd);
      if ev.fd == fd {
        OwnAccounted(v, ev, fails, world, c, s, fd, w, got);
      } else {
        ElseAccounted(v, ev, fails, world, c, s, fd, w, got);
      }
    }
  }

  lemma IncomingOne(evs: seq<IoEvent>, ev: IoEvent, fd: int)
    ensures Incoming(evs + [ev], fd)
         == Incoming(evs, fd) + if ev.Ready? && ev.readable && ev.fd == fd then ev.incoming else []
    ensures Incoming([ev], fd) == if ev.Ready? && ev.readable && ev.fd == fd then ev.incoming else []
  {
    assert (evs + [ev])[..|evs|] == evs && [ev][..0] == [];
  }

  lemma ReactKeepsApart(v: View, ev: IoEvent, fails: bool, world: World)
    requires ViewOk(v) && OneEach(v.fds)
    ensures OneEach(React(v, ev, fails, world).view.fds)
  {
    hide Drained, DrainEvents, Taking;
  }

  lemma LiveHolder(v: View, c: Course, s: nat, fd: int, w: seq<Byte>, got: seq<Byte>, of: int)
    requires ViewOk(v) && OneEach(v.fds) && s < MAX_CLIENTS && !c.lost && Accounted(v, c, s, fd, w, got)
    ensures v.fds[s] == Some(fd)
    ensures of == fd ==> Holder(v.fds, of, 0) == s
    ensures of != fd ==> Holder(v.fds, of, 0) != s
  {
    hide Decode, UpToLogout;
    assert v.fds[0..] == v.fds;
  }

  lemma OwnAccounted(v: View, ev: IoEvent, fails: bool, world: World, c: Course, s: nat, fd: int, w: seq<Byte>,
                     got: seq<Byte>)
    requires ViewOk(v) && s < MAX_CLIENTS && !c.lost && Accounted(v, c, s, fd, w, got)
    requires ev.fd == fd && Holder(v.fds, fd, 0) == s && v.fds[s] == Some(fd)
    ensures var r := React(v, ev, fails, world);
            Accounted(r.view, CourseOf(c, r.news, s), s, fd, w, got + Incoming([ev], fd))
  {
    hide Accounted, CourseOf, Drained, DrainEvents, Taking, Requests, Holder, FirstFree;
    var r := React(v, ev, fails, world);
    IncomingOne([], ev, fd);
    CourseStill(c, [], s);
    match ev {
      case Connect(_) =>
        assert got + [] == got;
        SameAccounted(v, r.view, c, s, fd, w, got);
      case Trouble(_) =>
        CourseOne(c, [], r.news[0], s);
        assert [] + [r.news[0]] == r.news;
        LossAccounted(v, c, s, fd, w, got, [], r.view);
      case Ready(_, readable, incoming, ending, _) =>
        var r1 := Reading(v, s, ev, world);
        var c1 := CourseOf(c, r1.news, s);
        if readable {
          CourseDrain(c, s, Drained(v.rests[s] + incoming, ending), world, v.step);
          DrainAccounted(v, c, s, fd, w, got, incoming, ending, r1.view);
        } else {
          assert got + [] == got;
          SameAccounted(v, r1.view, c, s, fd, w, got);
        }
        var got1 := got + Incoming([ev], fd);
        if r != r1 {
          var x := Dropping(r1.view, s, world);
          CourseConcat(c, r1.news, x.news, s);
          CourseOne(c1, [], x.news[0], s);
          assert [] + [x.news[0]] == x.news;
          LossAccounted(r1.view, c1, s, fd, w, got1, [], r.view);
          assert got1 + [] == got1;
        }
    }
  }

  lemma SameAccounted(v: View, v2: View, c: Course, s: nat, fd: int, w: seq<Byte>, got: seq<Byte>)
    requires ViewOk(v) && ViewOk(v2) && s < MAX_CLIENTS && Accounted(v, c, s, fd, w, got)
    requires v2.fds[s] == v.fds[s] && v2.rests[s] == v.rests[s]
    ensures Accounted(v2, c, s, fd, w, got)
  {
    hide Decode, UpToLogout;
  }

  lemma ElseAccounted(v: View, ev: IoEvent, fails: bool, world: World, c: Course, s: nat, fd: int, w: seq<Byte>,
                      got: seq<Byte>)
    requires ViewOk(v) && s < MAX_CLIENTS && !c.lost && Accounted(v, c, s, fd, w, got)
    requires ev.fd != fd && Holder(v.fds, ev.fd, 0) != s && v.fds[s] == Some(fd)
    ensures var r := React(v, ev, fails, world);
            Accounted(r.view, CourseOf(c, r.news, s), s, fd, w, got + Incoming([ev], fd))
  {
    hide Accounted, CourseOf, Drained, Taking, Requests, Holder, FirstFree;
    var r := React(v, ev, fails, world);
    IncomingOne([], ev, fd);
    assert got + [] == got;
    ElseNews(v, ev, fails, world, s);
    CourseStill(c, r.news, s);
    SameAccounted(v, r.view, c, s, fd, w, got);
  }

  lemma ElseNews(v: View, ev: IoEvent, fails: bool, world: World, s: nat)
    requires ViewOk(v) && s < MAX_CLIENTS && v.fds[s].Some? && Holder(v.fds, ev.fd, 0) != s
    ensures var r := React(v, ev, fails, world);
            && r.view.fds[s] == v.fds[s] && r.view.rests[s] == v.rests[s]
            && forall k :: 0 <= k < |r.news| ==> r.news[k].s != s
  {
    hide Drained, Taking, Holder;
  }

  /** Chunking independence over whole runs: whatever events of other connections lie between
      them, and however they cut up the bytes, the readiness events of a connection lead to
      exactly the requests that all their bytes together spell out; or, if the connection is lost
      on the way, to a prefix of these, nothing after a LOGOUT. */
  lemma {:induction false} OneConnection(v: View, evs: seq<IoEvent>, fails: seq<bool>, world: World, s: nat, fd: int)
    requires ViewOk(v) && OneEach(v.fds) && |fails| == |evs|
    requires s < MAX_CLIENTS && v.fds[s] == Some(fd) && Decode(v.rests[s]) == Parse([], v.rests[s], false)
    ensures var r := Reacting(v, evs, fails, world);
            var c := CourseOf(Course([], false), r.news, s);
            var p := Decode(v.rests[s] + Incoming(evs, fd));
            && OneEach(r.view.fds)
            && if c.lost then c.requests <= UpToLogout(p.msgs)
               else v.fds[s] == r.view.fds[s] && p == Parse(c.requests, r.view.rests[s], false) && NoLogout(p.msgs)
    decreases |evs|
  {
    hide React, Decode, UpToLogout;
    var start, w := Course([], false), v.rests[s];
    if evs == [] {
      assert w + [] == w;
    } else {
      var n := |evs| - 1;
      OneConnection(v, evs[..n], fails[..n], world, s, fd);
      var r := Reacting(v, evs[..n], fails[..n], world);
      var x := React(r.view, evs[n], fails[n], world);
      var c := CourseOf(start, r.news, s);
      ReactAccounted(r.view, evs[n], fails[n], world, c, s, fd, w, Incoming(evs[..n], fd));
      CourseConcat(start, r.news, x.news, s);
      assert evs == evs[..n] + [evs[n]];
      IncomingOne(evs[..n], evs[n], fd);
    }
  }

  /** A readiness event is what the drain, if there is one, and the flush make of it. */
  lemma ReactReady(v: View, ev: IoEvent, fails: bool, world: World, r: Reaction, x: Reaction)
    requires ViewOk(v) && OneEach(v.fds) && ev.Ready?
    requires var s := Holder(v.fds, ev.fd, 0);
             r == if ev.readable && s != -1 then Draining(v, s, ev.incoming, ev.ending, world) else Reaction(v, [])
    requires var s := Holder(r.view.fds, ev.fd, 0);
             && (fails ==> ev.writable && s != -1)
             && x == if fails then Dropping(r.view, s, world) else Reaction(r.view, [])
    ensures React(v, ev, fails, world) == Reaction(x.view, r.news + x.news)
  {
    hide Draining, Dropping, Holder;
    var s := Holder(v.fds, ev.fd, 0);
    if ev.readable {
      DrainingFds(v, s, ev, world);
    }
    SameOrGone(v.fds, r.view.fds, ev.fd);
  }

  lemma ReactConnect(v: View, ev: IoEvent, world: World)
    requires ViewOk(v) && ev.Connect?
    ensures var free := FirstFree(v.fds, 0);
            React(v, ev, false, world)
            == if Holder(v.fds, ev.fd, 0) != -1 || free == -1 then Reaction(v, [])
               else Reaction(v.(fds := v.fds[free := Some(ev.fd)], step := v.step + 1), [Filled(free)])
  {
  }

  lemma FirstFreeIs(fds: seq<Option<int>>, s: int)
    requires s == -1 <==> None !in fds
    requires s != -1 ==> 0 <= s < |fds| && fds[s] == None && None !in fds[..s]
    ensures FirstFree(fds, 0) == s
  {
    var f := FirstFree(fds, 0);
    assert fds[0..] == fds && (f != -1 ==> fds[0..f] == fds[..f]);
  }

  lemma FilledIs(c: Chat, free: int)
    ensures 0 <= free < |c.slots| ==> Apply(c, Filled(free), false) == Effect(c.(slots := c.slots[free := FREE]), [])
  {
  }

  /** How many of the flags are set. */
  function Count(flags: seq<bool>): nat {
    if flags == [] then 0 else Count(flags[..|flags| - 1]) + if flags[|flags| - 1] then 1 else 0
  }

  lemma CountMore(flags: seq<bool>, flag: bool)
    ensures Count(flags + [flag]) == Count(flags) + if flag then 1 else 0
  {
    assert (flags + [flag])[..|flags|] == flags;
  }

  lemma EventsCut(earlier: seq<Event>, news: seq<Event>)
    requires Within(earlier + news, MAX_CLIENTS)
    ensures Within(earlier, MAX_CLIENTS) && Within(news, MAX_CLIENTS) && earlier <= earlier + news
  {
    assert forall i :: 0 <= i < |news| ==> (earlier + news)[|earlier| + i] == news[i];
    assert forall i :: 0 <= i < |earlier| ==> (earlier + news)[i] == earlier[i];
  }

  lemma StillAllowed(received: seq<Byte>, requests: seq<Message>, w: seq<Byte>, now: seq<Byte>)
    requires Decode(received) == Parse(requests, w, false) && NoLogout(requests)
    requires received <= now
    ensures requests <= UpToLogout(Decode(now).msgs)
  {
    hide Decode, UpToLogout;
    var more := now[|received|..];
    assert now == received + more;
    DecodeAppend(received, more);
    UpToLogoutAppend(requests, Decode(w + more).msgs);
  }

  lemma DroppedDrain(s: nat, total: seq<Byte>, ending: Ending, k: nat)
    requires !(|total| < RBUF_SIZE && ending == Again)
    ensures Drained(total, ending) == Drain([], false, [])
    ensures forall world: World :: DrainEvents(s, Drained(total, ending), world, k) == [Gone(s, world(k).now)]
  {
  }
}
