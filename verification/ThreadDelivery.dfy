/** What arrives at the clients of the threaded server under every interleaving: whole frames,
    in the order of the locks, each thread's requests in the order it got them. */
module ThreadDelivery {
  import opened Bytes
  import opened Codec
  import opened Framing
  import opened History
  import opened Scanf
  import opened ChatSpec
  import opened ThreadProtocol
  import opened ThreadLocks
  import opened ThreadTable

  function LetterMsgs(letters: seq<Letter>): seq<Message> {
    seq(|letters|, i requires 0 <= i < |letters| => letters[i].msg)
  }

  /** A frame some thread is in the middle of writing: `off` of its bytes are out. */
  datatype Part = Part(msg: Message, off: nat)

  /** The frame being written to connection `c`, by the holder of its slot's lock or, while
      there is no slot yet, by the accepting thread. */
  function PartAt(st: State, c: nat): Option<Part>
    requires c < |st.peers|
  {
    var home := st.peers[c].home;
    if home == MAX_CLIENTS then
      if st.main.Refuse? && st.main.c == c then Some(Part(st.main.msg, st.main.off)) else None
    else
      match st.sendLock[home]
      case Client(u) =>
        if u < |st.peers| && st.peers[u].pc.Write? && st.peers[u].pc.conn == c then
          Some(Part(st.peers[u].pc.msg, st.peers[u].pc.off))
        else None
      case _ => None
  }

  /** A connection has taken whole frames, in the order handed, and the beginning of the frame
      being written; once broken it has taken a prefix of what was handed. */
  predicate Wire(handed: seq<Letter>, sent: seq<Byte>, broken: bool, part: Option<Part>) {
    && sent <= Frames(LetterMsgs(handed))
    && (!broken ==>
          match part
          case None => sent == Frames(LetterMsgs(handed))
          case Some(Part(m, off)) =>
            && handed != []
            && handed[|handed| - 1].msg == m
            && off < |Pack(m)|
            && sent == Frames(LetterMsgs(handed[..|handed| - 1])) + Pack(m)[..off])
  }

  predicate WireAt(st: State, c: nat)
    requires c < |st.peers|
  {
    Wire(st.peers[c].handed, st.peers[c].sent, st.peers[c].broken, PartAt(st, c))
  }

  ghost predicate WiresOk(st: State) {
    && (forall c :: 0 <= c < |st.peers| ==> WireAt(st, c))
    && (forall t :: 0 <= t < |st.peers| && st.peers[t].pc.Write? ==>
          st.peers[t].pc.conn < |st.peers| && st.peers[st.peers[t].pc.conn].home == st.peers[t].pc.dst)
  }

  lemma LetterMsgsAppend(handed: seq<Letter>, l: Letter)
    ensures LetterMsgs(handed + [l]) == LetterMsgs(handed) + [l.msg]
    ensures Frames(LetterMsgs(handed + [l])) == Frames(LetterMsgs(handed)) + Pack(l.msg)
  {
    hide Pack;
    assert LetterMsgs(handed + [l]) == LetterMsgs(handed) + [l.msg];
    FramesAppend(LetterMsgs(handed), l.msg);
  }

  lemma WireBegins(handed: seq<Letter>, sent: seq<Byte>, broken: bool, l: Letter)
    requires Wire(handed, sent, broken, None)
    ensures Wire(handed + [l], sent, broken, Some(Part(l.msg, 0)))
  {
    hide Frames, LetterMsgs;
    LetterMsgsAppend(handed, l);
    assert (handed + [l])[..|handed|] == handed;
    PackSize(l.msg);
    hide Pack;
    assert sent + [] == sent;
  }

  lemma PackSize(m: Message)
    ensures |Pack(m)| > 0
  {
  }

  lemma WireGrows(handed: seq<Letter>, sent: seq<Byte>, m: Message, off: nat, upto: nat)
    requires Wire(handed, sent, false, Some(Part(m, off)))
    requires off < upto <= |Pack(m)|
    ensures Wire(handed, sent + Pack(m)[off..upto], false, if upto == |Pack(m)| then None else Some(Part(m, upto)))
  {
    hide Pack, Frames, LetterMsgs;
    var front := handed[..|handed| - 1];
    assert handed == front + [handed[|handed| - 1]];
    LetterMsgsAppend(front, handed[|handed| - 1]);
    var all := Frames(LetterMsgs(front));
    assert sent + Pack(m)[off..upto] == all + (Pack(m)[..off] + Pack(m)[off..upto]);
    assert Pack(m)[..off] + Pack(m)[off..upto] == Pack(m)[..upto];
    if upto == |Pack(m)| {
      assert Pack(m)[..upto] == Pack(m);
    }
  }

  lemma WireBreaks(handed: seq<Letter>, sent: seq<Byte>, broken: bool, part: Option<Part>, part2: Option<Part>)
    requires Wire(handed, sent, broken, part)
    ensures Wire(handed, sent, true, part2)
  {
  }

  // ---------- steps that write nothing ----------

  predicate SameWires(st: State, st2: State) {
    && |st2.peers| == |st.peers|
    && forall c :: 0 <= c < |st.peers| ==> && st2.peers[c].handed == st.peers[c].handed
                                           && st2.peers[c].sent == st.peers[c].sent
                                           && st2.peers[c].broken == st.peers[c].broken
  }

  lemma QuietWires(st: State, st2: State, t: nat)
    requires WiresOk(st) && t < |st.peers| && OnlyPc(st, st2, t) && SameWires(st, st2)
    requires st2.sendLock == st.sendLock
    requires !st.peers[t].pc.Write? && !st2.peers[t].pc.Write?
    ensures WiresOk(st2)
  {
    hide Wire;
    forall c | 0 <= c < |st2.peers|
      ensures WireAt(st2, c)
    {
      assert WireAt(st, c);
      assert PartAt(st2, c) == PartAt(st, c);
    }
  }

  predicate Writes(pc: Pc, begun: bool) {
    pc.Write? || pc.Drop? || pc.Close? || (pc.Next? && begun)
  }

  /** Whether the next step of a thread takes a `send_lock`. */
  predicate Begins(st: State, pc: Pc) {
    pc.Next? && pc.todo != [] && pc.todo[0].One? && st.sendLock[pc.todo[0].dst].Free?
  }

  lemma QuietThread(st: State, t: nat, ch: Choice)
    requires Runs(st, t) && !Writes(st.peers[t].pc, Begins(st, st.peers[t].pc))
    ensures var st2 := ActThread(st, t, ch);
            SameWires(st, st2) && st2.sendLock == st.sendLock && !st2.peers[t].pc.Write?
  {
    hide Start, AfterSection, NextPhase, Touch, Saved;
    if st.peers[t].pc.Recv? && ch.msg.Some? {
      StartCalm(st.peers[t].home, st.slots[st.peers[t].home], st.logs, ch.msg.value, ch.now);
    } else if st.peers[t].pc.Hold? && st.peers[t].pc.phase.End? {
      AfterCalm(st.peers[t].pc.phase.result, st.peers[t].home, Current(st.peers[t]), ch);
    }
  }

  lemma StartCalm(s: Index, me: Slot, logs: Logs, m: Message, now: Time)
    ensures !Start(s, me, logs, m, now).Write?
  {
    hide ScanLogin, CStr, Say, Refusal, LogOf, Lit, AskedStatus, History.Reply;
  }

  lemma AfterCalm(result: Result, s: Index, req: Message, ch: Choice)
    ensures !AfterSection(result, s, req, ch).Write?
  {
    hide CStr, Say, Refusal, SnPrintf, CopiedName, Lit, Left;
  }

  // ---------- the steps of slot_send ----------

  lemma BeginEffect(st: State, t: nat)
    requires Runs(st, t) && Begins(st, st.peers[t].pc)
    ensures var dst, m, st2 := st.peers[t].pc.todo[0].dst, st.peers[t].pc.todo[0].msg, Begin(st, t);
            var conn := st.seats[dst].conn;
            && OnlyPc(st, st2, t)
            && st2.sendLock == st.sendLock[dst := Client(t)]
            && Sends(st2.peers[t].pc, dst)
            && (st2.peers[t].pc.Write? ==> && conn == Some(st2.peers[t].pc.conn)
                                           && st2.peers[t].pc.msg == m && st2.peers[t].pc.off == 0)
            && (conn.Some? ==> st2.peers[t].pc.Write?)
            && (forall c :: 0 <= c < |st.peers| ==>
                  && st2.peers[c].sent == st.peers[c].sent
                  && st2.peers[c].broken == st.peers[c].broken
                  && (conn != Some(c) ==> st2.peers[c].handed == st.peers[c].handed)
                  && (conn == Some(c) ==> |st2.peers[c].handed| == |st.peers[c].handed| + 1
                                          && st2.peers[c].handed[|st.peers[c].handed|].msg == m
                                          && st2.peers[c].handed[..|st.peers[c].handed|] == st.peers[c].handed))
  {
  }

  lemma BeginWires(st: State, t: nat)
    requires LocksOk(st) && SeatsOk(st) && WiresOk(st)
    requires Runs(st, t) && Begins(st, st.peers[t].pc)
    ensures WiresOk(Begin(st, t))
  {
    hide Wire, Begin;
    BeginEffect(st, t);
    var dst := st.peers[t].pc.todo[0].dst;
    var conn := st.seats[dst].conn;
    var st2 := Begin(st, t);
    forall c | 0 <= c < |st2.peers|
      ensures WireAt(st2, c)
    {
      assert WireAt(st, c);
      if conn == Some(c) {
        assert PartAt(st, c) == None;
        var h := st2.peers[c].handed;
        assert h == st.peers[c].handed + [h[|st.peers[c].handed|]];
        WireBegins(st.peers[c].handed, st.peers[c].sent, st.peers[c].broken, h[|st.peers[c].handed|]);
      } else {
        assert PartAt(st2, c) == PartAt(st, c);
      }
    }
  }

  lemma UnlockWires(st: State, t: nat)
    requires LocksOk(st) && WiresOk(st) && Runs(st, t) && st.peers[t].pc.Drop?
    ensures WiresOk(Unlock(st, t))
  {
    hide Wire;
    var st2 := Unlock(st, t);
    assert Sends(st.peers[t].pc, st.peers[t].pc.dst);
    forall c | 0 <= c < |st2.peers|
      ensures WireAt(st2, c)
    {
      assert WireAt(st, c);
      assert PartAt(st2, c) == PartAt(st, c);
    }
  }

  lemma ShutWires(st: State, t: nat)
    requires WiresOk(st) && Runs(st, t) && st.peers[t].pc.Close?
    ensures WiresOk(Shut(st, t))
  {
    hide Wire;
    var st2 := Shut(st, t);
    forall c | 0 <= c < |st2.peers|
      ensures WireAt(st2, c)
    {
      assert WireAt(st, c);
      assert PartAt(st2, c) == PartAt(st, c);
      WireBreaks(st.peers[c].handed, st.peers[c].sent, st.peers[c].broken, PartAt(st, c), PartAt(st2, c));
    }
  }

  lemma PushEffect(st: State, t: nat, ch: Choice)
    requires Runs(st, t) && st.peers[t].pc.Write?
    ensures var pc, st2 := st.peers[t].pc, Push(st, t, ch);
            && st2.sendLock == st.sendLock && st2.main == st.main
            && (st2.peers[t].pc.Drop? || (st2.peers[t].pc.Write? && st2.peers[t].pc.conn == pc.conn))
            && st2.peers[t].pc.dst == pc.dst
            && (forall c :: 0 <= c < |st.peers| && c != pc.conn ==>
                  && st2.peers[c].handed == st.peers[c].handed
                  && st2.peers[c].sent == st.peers[c].sent
                  && st2.peers[c].broken == st.peers[c].broken)
  {
    hide Pack;
  }

  lemma PushWires(st: State, t: nat, ch: Choice)
    requires LocksOk(st) && WiresOk(st) && Runs(st, t) && st.peers[t].pc.Write?
    ensures WiresOk(Push(st, t, ch))
  {
    hide Wire, Push;
    var pc := st.peers[t].pc;
    var st2 := Push(st, t, ch);
    assert Sends(pc, pc.dst);
    PushedWire(st, t, ch);
    PushEffect(st, t, ch);
    PushPcs(st, t, ch);
    forall c | 0 <= c < |st2.peers|
      ensures WireAt(st2, c)
    {
      assert WireAt(st, c);
      if c != pc.conn {
        assert PartAt(st2, c) == PartAt(st, c);
      }
    }
  }

  lemma PushedWire(st: State, t: nat, ch: Choice)
    requires LocksOk(st) && WiresOk(st) && Runs(st, t) && st.peers[t].pc.Write?
    ensures WireAt(Push(st, t, ch), st.peers[t].pc.conn)
  {
    hide Wire, Pack;
    var pc := st.peers[t].pc;
    var c := pc.conn;
    var st2 := Push(st, t, ch);
    assert WireAt(st, c);
    assert Sends(pc, pc.dst);
    var p := st.peers[c];
    assert PartAt(st, c) == Some(Part(pc.msg, pc.off));
    if ch.n == 0 {
    } else if p.broken || !ch.ok || pc.off >= |Pack(pc.msg)| {
      WireBreaks(p.handed, p.sent, p.broken, PartAt(st, c), PartAt(st2, c));
    } else {
      WireGrows(p.handed, p.sent, pc.msg, pc.off, Min(pc.off + ch.n, |Pack(pc.msg)|));
    }
  }

  // ---------- the accepting thread ----------

  /** A step of the accepting thread that concerns no connection but `main.c`. */
  ghost predicate OthersSame(st: State, st2: State, c: nat) {
    && |st2.peers| >= |st.peers|
    && forall u :: 0 <= u < |st.peers| && u != c ==> st2.peers[u] == st.peers[u]
  }

  lemma MainOthers(st: State, ch: Choice)
    requires ThreadsOk(st)
    ensures var st2 := ActMain(st, ch);
            && st2.sendLock == st.sendLock
            && (if st.main.Idle? then st2.peers == st.peers + [NewPeer()]
                else |st2.peers| == |st.peers| && OthersSame(st, st2, st.main.c))
            && (!st.main.Idle? && !st.main.Install? ==> st2.peers[st.main.c].home == st.peers[st.main.c].home)
            && (st2.main.Refuse? ==> (st.main.Refuse? || st.main.LeaveFull?) && st2.main.c == st.main.c)
  {
    hide Pack, Refusal, Lit;
  }

  lemma MainWires(st: State, ch: Choice)
    requires LocksOk(st) && ThreadsOk(st) && SeatsOk(st) && WiresOk(st)
    ensures WiresOk(ActMain(st, ch))
  {
    hide Wire, ActMain, LocksOk;
    var st2 := ActMain(st, ch);
    MainOthers(st, ch);
    MainCalm(st, ch);
    forall c | 0 <= c < |st2.peers|
      ensures WireAt(st2, c)
    {
      if st.main.Idle? && c == |st.peers| {
        NewWire(st2);
      } else {
        assert WireAt(st, c);
        if st.main.Idle? || c != st.main.c {
          assert PartAt(st2, c) == PartAt(st, c);
        } else {
          MainWire(st, ch);
        }
      }
    }
  }

  lemma NewWire(st2: State)
    requires !st2.main.Refuse? && |st2.peers| > 0 && st2.peers[|st2.peers| - 1] == NewPeer()
    ensures WireAt(st2, |st2.peers| - 1)
  {
    assert LetterMsgs([]) == [];
  }

  /** The wire of the connection being accepted. */
  lemma MainWire(st: State, ch: Choice)
    requires LocksOk(st) && ThreadsOk(st) && SeatsOk(st) && WiresOk(st) && !st.main.Idle?
    ensures var st2 := ActMain(st, ch); st.main.c < |st2.peers| && WireAt(st2, st.main.c)
  {
    hide Wire, Pack, Refusal, Lit;
    var c := st.main.c;
    var p := st.peers[c];
    assert WireAt(st, c);
    match st.main {
      case LeaveFull(_) =>
        WireBegins(p.handed, p.sent, p.broken, Letter(c, 0, Note, Refusal([], Lit("Server full"), ch.now)));
      case Refuse(_, m, off) =>
        MainPush(st, ch);
      case Install(_, _) =>
        InstallWire(st, ch);
      case Spawn(_, _) =>
        WireBreaks(p.handed, p.sent, p.broken, PartAt(st, c), PartAt(ActMain(st, ch), c));
      case HangUp(_) =>
        WireBreaks(p.handed, p.sent, p.broken, PartAt(st, c), PartAt(ActMain(st, ch), c));
      case _ =>
    }
  }

  lemma MainPush(st: State, ch: Choice)
    requires SeatsOk(st) && WiresOk(st) && st.main.Refuse?
    ensures var st2 := ActMain(st, ch); st.main.c < |st2.peers| && WireAt(st2, st.main.c)
  {
    hide Wire, Pack;
    var Refuse(c, m, off) := st.main;
    var p := st.peers[c];
    assert WireAt(st, c);
    if ch.n == 0 {
    } else if p.broken || !ch.ok || off >= |Pack(m)| {
      WireBreaks(p.handed, p.sent, p.broken, PartAt(st, c), PartAt(ActMain(st, ch), c));
    } else {
      WireGrows(p.handed, p.sent, m, off, Min(off + ch.n, |Pack(m)|));
    }
  }

  /** Nobody was writing to a connection before it got its slot. */
  lemma InstallWire(st: State, ch: Choice)
    requires LocksOk(st) && ThreadsOk(st) && SeatsOk(st) && WiresOk(st) && st.main.Install?
    ensures WireAt(ActMain(st, ch), st.main.c)
  {
    hide Wire;
    var c := st.main.c;
    var st2 := ActMain(st, ch);
    assert WireAt(st, c);
    assert PartAt(st, c) == None;
    if st.sendLock[st.main.slot].Client? {
      var u := st.sendLock[st.main.slot].t;
      assert !(st.peers[u].pc.Write? && st.peers[u].pc.conn == c);
    }
  }

  lemma WiresKept(st: State, a: Action)
    requires LocksOk(st) && ThreadsOk(st) && SeatsOk(st) && WiresOk(st)
    ensures WiresOk(Act(st, a))
  {
    match a {
      case Main(ch) =>
        hide LocksOk, ThreadsOk, SeatsOk, WiresOk, ActMain;
        MainWires(st, ch);
      case Thread(t, ch) =>
        hide LocksOk, ThreadsOk, SeatsOk, WiresOk, ActThread;
        if Runs(st, t) {
          ThreadWires(st, t, ch);
        }
    }
  }

  lemma ThreadWires(st: State, t: nat, ch: Choice)
    requires LocksOk(st) && SeatsOk(st) && WiresOk(st) && Runs(st, t)
    ensures WiresOk(ActThread(st, t, ch))
  {
    hide LocksOk, SeatsOk, WiresOk, Begin, Unlock, Shut, Push, Receive, Enter, Work, Release, OnlyPc, SameWires;
    var pc := st.peers[t].pc;
    if !Writes(pc, Begins(st, pc)) {
      PcsKept(st, t, ch);
      QuietThread(st, t, ch);
      QuietWires(st, ActThread(st, t, ch), t);
    } else if pc.Next? {
      BeginWires(st, t);
    } else if pc.Write? {
      PushWires(st, t, ch);
    } else if pc.Drop? {
      UnlockWires(st, t);
    } else {
      ShutWires(st, t);
    }
  }

  // ---------- every interleaving ----------

  lemma InitWires()
    ensures WiresOk(Init()) && SeatsOk(Init())
  {
  }

  lemma {:induction false} AfterWires(acts: seq<Action>)
    ensures WiresOk(After(acts)) && SeatsOk(After(acts))
  {
    hide WiresOk, SeatsOk, LocksOk, ThreadsOk, Act, Init;
    if acts == [] {
      InitWires();
    } else {
      AfterWires(acts[..|acts| - 1]);
      AfterLocks(acts[..|acts| - 1]);
      SeatsKept(After(acts[..|acts| - 1]), acts[|acts| - 1]);
      WiresKept(After(acts[..|acts| - 1]), acts[|acts| - 1]);
    }
  }

  /** Frame atomicity: in every reachable state a connection's receiver, whose loop decodes the
      bytes taken so far, gets exactly the first messages handed to the connection, in the
      order in which its slot's lock was acquired for them, and nothing else; the rest is part
      of one frame. If the connection is whole and nobody is writing to it, it gets them all. */
  lemma FrameAtomicity(acts: seq<Action>, c: nat)
    requires c < |After(acts).peers|
    ensures var p, d := After(acts).peers[c], Decode(After(acts).peers[c].sent);
            var msgs := LetterMsgs(p.handed);
            && !d.bad
            && d.msgs <= Normals(msgs)
            && p.sent == Frames(msgs[..|d.msgs|]) + d.rest
            && (!p.broken && PartAt(After(acts), c).None? ==> d == Parse(Normals(msgs), [], false))
            && (!p.broken && PartAt(After(acts), c).Some? ==> msgs != [] && d.msgs == Normals(msgs[..|msgs| - 1]))
  {
    hide After, Decode, Frames, Pack, Normals;
    AfterWires(acts);
    var st := After(acts);
    var p := st.peers[c];
    var msgs := LetterMsgs(p.handed);
    assert WireAt(st, c);
    DecodeTruncated(msgs, p.sent);
    if !p.broken {
      match PartAt(st, c) {
        case None => DecodeFrames(msgs);
        case Some(Part(m, off)) =>
          assert LetterMsgs(p.handed[..|p.handed| - 1]) == msgs[..|msgs| - 1];
          TruncatedInLast(msgs[..|msgs| - 1], m, Pack(m)[..off]);
      }
    }
  }
}
