/** The single-threaded epoll server. Events may arrive in any order and for any descriptor;
    sockets may take or yield any number of bytes at a time, stall or fail. */
module EpollServer {
  import opened Bytes
  import opened Codec
  import opened Framing
  import opened History
  import opened Scanf
  import opened ChatSpec
  import opened Delivery
  import opened Chronicles
  import opened SlotIo
  import opened EpollLoop

  ghost predicate Separate(cs: seq<Channel>) {
    forall i, j :: 0 <= i < j < |cs| ==>
                     && cs[i] != cs[j] && cs[i].link != cs[j].link && cs[i].sbuf != cs[j].sbuf
                     && cs[i].sbuf.buf != cs[j].sbuf.buf && cs[i].rbuf != cs[j].rbuf
  }

  /** A session: that of a connection still open, or one that has ended. */
  datatype Who = Live(slot: nat) | Closed(k: nat)

  /** Where a drain began: the events and the ended sessions so far, the requests of the session
      and the bytes read in it, and the meaning of the bytes to be parsed. */
  datatype Parsing = Parsing(log: seq<Event>, closed: seq<Session>, before: seq<Message>,
                             received: seq<Byte>, p: Parse)

  /** The sessions closed are those the chronicle says have ended. */
  predicate OverWith(closed: seq<Session>, over: seq<Finished>) {
    && |closed| == |over|
    && forall k :: 0 <= k < |closed| ==> && closed[k].slot == over[k].slot
                                         && Life(closed[k].requests, closed[k].handed) == over[k].life
  }

  lemma OverGrows(before: seq<Session>, after: seq<Session>, over: seq<Finished>, ev: Event, life: Life)
    requires OverWith(before, over)
    requires if ev.Gone? then
               && |after| == |before| + 1 && after[..|before|] == before
               && after[|before|].slot == ev.s
               && Life(after[|before|].requests, after[|before|].handed) == life
             else after == before
    ensures OverWith(after, if ev.Gone? then over + [Finished(ev.s, life)] else over)
  {
    if ev.Gone? {
      assert forall k :: 0 <= k < |before| ==> after[..|before|][k] == after[k];
    }
  }

  lemma ToldIs(x: Chronicle, ev: Event, k: nat)
    requires Full(x) && ev.s < MAX_CLIENTS
    ensures var y := Told(x, ev, k, false);
            && y.chat == Apply(x.chat, ev, false).chat
            && y.over == if ev.Gone? then x.over + [Finished(ev.s, x.lives[ev.s])] else x.over
  {
    hide Apply, LifeAfter;
  }

  /** What was read in each of these sessions. */
  function AllReceived(closed: seq<Session>): seq<seq<Byte>> {
    seq(|closed|, k requires 0 <= k < |closed| => closed[k].received)
  }

  /** A session of slot `s` cut off by a failed write: of `all` the bytes some were not sent. */
  predicate CutOff(x: Session, s: nat, all: seq<Byte>) {
    x.slot == s && x.broken && x.queue != [] && x.sent + x.queue == all
  }

  /** One session has ended, and in it `received` was read. */
  predicate OneMore(before: seq<Session>, after: seq<Session>, received: seq<Byte>) {
    |after| == |before| + 1 && before <= after && after[|before|].received == received
  }

  class Server {
    const slots: array<Slot>
    const chans: seq<Channel>
    var logs: Logs
    const world: World

    /** The number of the present event, whose outputs so far are `outs`; what every slot had
        been handed before it; the sessions that have ended. */
    var step: nat
    ghost var outs: seq<Out>
    ghost var base: seq<seq<Tagged>>
    ghost var closed: seq<Session>
    /** All that has happened to the service. */
    ghost var events: seq<Event>
    /** How many failed writes `handle_write` has met. */
    ghost var flushFailures: nat

    // ---------- footprint ----------

    ghost const links: set<Link>
    ghost const sendBufs: set<SendBuf>
    ghost const queues: set<array<Byte>>
    ghost const recvBufs: set<array<Byte>>

    /** No two slots share storage. */
    ghost predicate Apart() {
      && slots.Length == |chans| == MAX_CLIENTS
      && (forall i :: 0 <= i < |chans| ==>
                        && chans[i].link in links
                        && chans[i].sbuf in sendBufs
                        && chans[i].sbuf.buf in queues
                        && chans[i].rbuf in recvBufs
                        && chans[i].rbuf.Length == RBUF_SIZE)
      && queues !! recvBufs
      && Separate(chans)
    }

    ghost function Handed(): (h: seq<seq<Tagged>>)
      reads chans
      ensures |h| == |chans|
      ensures forall i :: 0 <= i < |chans| ==> h[i] == chans[i].handed
    {
      seq(|chans|, i requires 0 <= i < |chans| reads chans => chans[i].handed)
    }

    /** The descriptors in use, slot by slot. */
    ghost function Fds(): (f: seq<Option<int>>)
      reads chans
      ensures |f| == |chans|
      ensures forall i :: 0 <= i < |chans| ==> f[i] == if chans[i].inUse then Some(chans[i].fd) else None
    {
      seq(|chans|, i requires 0 <= i < |chans| reads chans =>
            if chans[i].inUse then Some(chans[i].fd) else None)
    }

    /** The bytes waiting in the receive buffers, slot by slot. */
    ghost function Rests(): (r: seq<seq<Byte>>)
      reads chans, set c | c in chans :: c.rbuf
      ensures |r| == |chans|
      ensures forall i :: 0 <= i < |chans| ==> r[i] == chans[i].Rest()
    {
      seq(|chans|, i requires 0 <= i < |chans| reads chans, set c | c in chans :: c.rbuf => chans[i].Rest())
    }

    /** The bytes read in the sessions of the slots in use. */
    ghost function Reads(): (r: seq<seq<Byte>>)
      reads chans
      ensures |r| == |chans|
      ensures forall i :: 0 <= i < |chans| ==> r[i] == if chans[i].inUse then chans[i].received else []
    {
      seq(|chans|, i requires 0 <= i < |chans| reads chans => if chans[i].inUse then chans[i].received else [])
    }

    ghost function Endings(): (r: seq<seq<Byte>>)
      reads this`closed
    {
      AllReceived(closed)
    }

    ghost function CurrentView(): View
      reads this`step, this`closed, chans, set c | c in chans :: c.rbuf
    {
      View(Fds(), Rests(), Reads(), Endings(), step)
    }

    ghost function State(): Chat
      reads this`logs, slots
    {
      Chat(slots[..], logs)
    }

    /** The chronicle of the events so far is the state: table and logs are those of the run of
        the service; each session in use has acted on the requests, and been handed the messages,
        that the run says; and so had those that have ended. */
    ghost predicate Story()
      reads this`events, this`step, this`logs, this`closed, slots, chans`inUse, chans`requests, chans`handed
    {
      && Within(events, MAX_CLIENTS)
      && step == |events|
      && State() == Chronicled(events, false).chat
      && Lived(Chronicled(events, false))
      && OverWith(closed, Chronicled(events, false).over)
    }

    ghost predicate Lived(x: Chronicle)
      reads chans`inUse, chans`requests, chans`handed
    {
      && |chans| == |x.lives|
      && forall i :: 0 <= i < |chans| ==>
                       chans[i].inUse ==> Life(chans[i].requests, chans[i].handed) == x.lives[i]
    }

    // ---------- invariants ----------

    ghost predicate SendSide()
      reads chans`inUse, chans`handed, chans`fates, links`sent, links`broken, links`pollOut, sendBufs, queues
    {
      Apart() && forall i :: 0 <= i < |chans| ==> chans[i].SendOk()
    }

    ghost predicate RecvSide(but: int)
      reads chans`inUse, chans`rbufLen, chans`received, chans`requests, recvBufs
    {
      Apart() && forall i :: 0 <= i < |chans| && i != but ==> chans[i].RecvOk()
    }

    /** Logged-in slots are in use. */
    ghost predicate ActiveInUse()
      reads slots, chans`inUse
    {
      slots.Length == |chans| && forall i :: 0 <= i < |chans| ==> slots[i].active ==> chans[i].inUse
    }

    ghost predicate FdsDistinct()
      reads chans`inUse, chans`fd
    {
      forall i, j :: 0 <= i < j < |chans| && chans[i].inUse && chans[j].inUse ==> chans[i].fd != chans[j].fd
    }

    ghost predicate ClosedOk()
      reads this`closed
    {
      forall k :: 0 <= k < |closed| ==> SessionOk(closed[k])
    }

    /** Holds while a step is sending. */
    ghost predicate Sending()
      reads this`step, this`outs, this`base, slots, chans, links, sendBufs, queues
    {
      && slots.Length == |chans| == MAX_CLIENTS
      && Apart()
      && ActiveInUse()
      && SendSide()
      && |base| == MAX_CLIENTS
      && Handing(base, outs, Handed(), step)
    }

    /** Holds between the steps of an event on slot `but`, whose buffer may be half parsed. */
    ghost predicate Between(but: int)
      reads this`step, this`closed, this`events, this`logs, slots, chans, links, sendBufs, queues, recvBufs
    {
      && Apart()
      && ActiveInUse()
      && TableOk(slots[..])
      && SendSide()
      && RecvSide(but)
      && FdsDistinct()
      && ClosedOk()
      && Story()
    }

    /** Holds between events. */
    ghost predicate Valid()
      reads this`step, this`closed, this`events, this`logs, slots, chans, links, sendBufs, queues, recvBufs
    {
      Between(-1)
    }

    // ---------- sending ----------

    lemma Disjoint(i: nat, s: nat)
      requires Apart() && i < MAX_CLIENTS && s < MAX_CLIENTS && i != s
      ensures chans[i] != chans[s] && chans[i].link != chans[s].link
      ensures chans[i].sbuf != chans[s].sbuf && chans[i].sbuf.buf != chans[s].sbuf.buf
      ensures chans[i].rbuf != chans[s].rbuf && chans[i].sbuf.buf != chans[s].rbuf
    {
    }

    lemma Members(s: nat)
      requires Apart() && s < MAX_CLIENTS
      ensures queues !! recvBufs
      ensures slots.Length == |chans| == MAX_CLIENTS
      ensures chans[s].rbuf.Length == RBUF_SIZE
      ensures chans[s] in chans && chans[s].link in links && chans[s].sbuf in sendBufs
      ensures chans[s].sbuf.buf in queues && chans[s].rbuf in recvBufs
    {
    }

    /** One channel sends; the others do not notice. */
    method SendOn(s: nat, m: Message)
      requires SendSide() && s < MAX_CLIENTS && chans[s].inUse
      modifies {chans[s]}`handed, {chans[s]}`fates, chans[s].link, chans[s].sbuf, chans[s].sbuf.buf
      ensures SendSide()
      ensures chans[s].handed == old(chans[s].handed) + [Tagged(step, m)]
      ensures chans[s].fates == old(chans[s].fates)
                                + [FateOf(|old(chans[s].sbuf.Queue())|, |Pack(m)|, old(chans[s].link.broken))]
      ensures old(chans[s].sbuf.Queue()) == [] ==>
                (chans[s].sbuf.Queue() != [] <==> chans[s].link.stalls == old(chans[s].link.stalls) + 1)
    {
      hide Channel.SendOk, Apart;
      Members(s);
      assert chans[s].SendOk();
      chans[s].Send(m, step);
      forall i | 0 <= i < |chans| && i != s
        ensures chans[i].SendOk()
      {
        Disjoint(i, s);
        assert old(chans[i].SendOk());
      }
    }

    /** `slot_send`. */
    method SlotSend(s: nat, m: Message)
      requires Sending() && s < MAX_CLIENTS && chans[s].inUse
      modifies this`outs, chans`handed, chans`fates, links, sendBufs, queues
      ensures Sending()
      ensures outs == old(outs) + [Out(s, m)]
      ensures chans[s].fates == old(chans[s].fates)
                                + [FateOf(|old(chans[s].sbuf.Queue())|, |Pack(m)|, old(chans[s].link.broken))]
      ensures old(chans[s].sbuf.Queue()) == [] ==>
                (chans[s].sbuf.Queue() != [] <==> chans[s].link.stalls == old(chans[s].link.stalls) + 1)
      ensures forall i :: 0 <= i < |chans| && i != s ==>
                            && chans[i].fates == old(chans[i].fates)
                            && chans[i].link.failures == old(chans[i].link.failures)
    {
      hide SendSide, Handing, Apart, ActiveInUse, Handed;
      Members(s);
      ghost var before := Handed();
      HandingOne(base, outs, before, step, Out(s, m));
      HandedIs();
      SendOn(s, m);
      outs := outs + [Out(s, m)];
      HandedIs();
      forall i | 0 <= i < |chans| && i != s
        ensures chans[i].handed == before[i]
        ensures chans[i].fates == old(chans[i].fates) && chans[i].link.failures == old(chans[i].link.failures)
      {
        Disjoint(i, s);
      }
      assert Handed() == before[s := before[s] + [Tagged(step, m)]];
    }

    lemma HandedIs()
      ensures |Handed()| == |chans|
      ensures forall i :: 0 <= i < |chans| ==> Handed()[i] == chans[i].handed
    {
    }

    lemma SendingMeans()
      requires Sending()
      ensures slots.Length == |chans| == MAX_CLIENTS && Apart()
    {
    }

    lemma ActiveMeans(i: nat)
      requires Sending() && i < MAX_CLIENTS
      ensures slots[i].active ==> chans[i].inUse
    {
      hide Apart, SendSide, Handing;
    }

    /** An assignment to the routing fields of a slot. */
    method SetSlot(s: nat, x: Slot)
      requires Sending() && s < MAX_CLIENTS && (x.active ==> chans[s].inUse)
      modifies slots
      ensures Sending()
      ensures slots[..] == old(slots[..])[s := x]
    {
      hide Apart, SendSide, Handing;
      slots[s] := x;
    }

    /** The loop over the active slots, for a note or a broadcast. */
    method SendOthers(skip: nat, m: Message)
      requires Sending()
      modifies this`outs, chans`handed, chans`fates, links, sendBufs, queues
      ensures Sending()
      ensures outs == old(outs) + ToOthers(slots[..], skip, m, MAX_CLIENTS)
      ensures skip < |chans| ==> chans[skip].link.failures == old(chans[skip].link.failures)
    {
      hide Sending, Apart, FateOf, Pack;
      SendingMeans();
      for i := 0 to MAX_CLIENTS
        invariant Sending() && slots.Length == |chans| == MAX_CLIENTS
        invariant outs == old(outs) + ToOthers(slots[..], skip, m, i)
        invariant skip < |chans| ==> chans[skip].link.failures == old(chans[skip].link.failures)
      {
        if i != skip && slots[i].active {
          ActiveMeans(i);
          SlotSend(i, m);
        }
      }
    }

    // ---------- the message processor ----------

    method ProcessLogin(s: nat, msg: Message, env: Env)
      requires Sending() && s < MAX_CLIENTS && chans[s].inUse
      modifies this`outs, slots, chans`handed, chans`fates, links, sendBufs, queues
      ensures Sending()
      ensures State() == Login(old(State()), s, msg, env, false).chat
      ensures outs == old(outs) + Login(old(State()), s, msg, env, false).outs
    {
      hide Sending, Apart, ScanLogin, Refusal, Say, FateOf, Pack;
      SendingMeans();
      var scan := ScanLogin(CStr(msg.payload));
      if scan.count != 2 {
        SlotSend(s, Refusal([], Lit("Bad login format"), env.now));
        return;
      }
      var dup := FindUser(slots, scan.user);
      if dup != -1 {
        SlotSend(s, Refusal(scan.user, Lit("Already logged in"), env.now));
        return;
      }
      if !env.valid(scan.user, scan.pass) {
        SlotSend(s, Refusal(scan.user, Lit("Invalid credentials"), env.now));
        return;
      }
      SetSlot(s, slots[s].(name := scan.user));
      SetSlot(s, slots[s].(active := true, status := STATUS_AVAILABLE));
      assert slots[..] == old(slots[..])[s := Slot(true, scan.user, STATUS_AVAILABLE)];
      SlotSend(s, Say(MSG_ACK, scan.user, Lit("Login successful"), env.now));
    }

    /** LOGOUT up to the call of `disconnect_client`. */
    method ProcessLogout(s: nat, env: Env)
      requires Sending() && TableOk(slots[..]) && s < MAX_CLIENTS
      modifies this`outs, slots, chans`handed, chans`fates, links, sendBufs, queues
      ensures Sending()
      ensures State() == Logout(old(State()), s, env).chat
      ensures outs == old(outs) + Logout(old(State()), s, env).outs
    {
      hide Sending, Apart, TableOk;
      SendingMeans();
      TableSizes(slots[..]);
      assert slots[..][s] == slots[s];
      var note := SnPrintf(slots[s].name + Lit(" left"), 64);
      assert note == slots[s].name + Lit(" left");
      SetSlot(s, slots[s].(active := false, name := []));
      assert slots[..] == old(slots[..])[s := old(slots[s]).(active := false, name := [])];
      SendOthers(s, Say(MSG_BROADCAST, [], note, env.now));
    }

    method ProcessBroadcast(s: nat, msg: Message, env: Env)
      requires Sending() && s < MAX_CLIENTS && chans[s].inUse
      modifies this`outs, this`logs, chans`handed, chans`fates, links, sendBufs, queues
      ensures Sending()
      ensures State() == Broadcast(old(State()), s, msg, env).chat
      ensures outs == old(outs) + Broadcast(old(State()), s, msg, env).outs
    {
      hide Sending, Apart, ActiveInUse, Say, Refusal, Saved, CStr, ToOthers, FateOf, Pack;
      SendingMeans();
      if !slots[s].active {
        SlotSend(s, Refusal([], Lit("Not authenticated"), env.now));
        return;
      }
      SaveHistory(CStr(msg.sender), [], CStr(msg.payload), env.stamp);
      SendOthers(s, msg);
      SlotSend(s, Say(MSG_ACK, CStr(msg.sender), [], env.now));
    }

    method SaveHistory(from: seq<Byte>, to: seq<Byte>, text: seq<Byte>, stamp: seq<Byte>)
      modifies this`logs
      ensures logs == Saved(old(logs), from, to, text, stamp)
    {
      logs := Saved(logs, from, to, text, stamp);
    }

    method ProcessPrivate(s: nat, msg: Message, env: Env)
      requires Sending() && s < MAX_CLIENTS && chans[s].inUse
      modifies this`outs, this`logs, chans`handed, chans`fates, links, sendBufs, queues
      ensures Sending()
      ensures State() == Private(old(State()), s, msg, env).chat
      ensures outs == old(outs) + Private(old(State()), s, msg, env).outs
    {
      hide Sending, Apart, Refusal, Say, Saved, FateOf, Pack;
      SendingMeans();
      if !slots[s].active {
        SlotSend(s, Refusal([], Lit("Not authenticated"), env.now));
        return;
      }
      var t := FindUser(slots, CStr(msg.receiver));
      if t == -1 {
        SlotSend(s, Refusal(CStr(msg.sender), Lit("User not online"), env.now));
        return;
      }
      FindFromSpec(slots[..], CStr(msg.receiver), 0);
      assert slots[..][t].active;
      ActiveMeans(t);
      ForwardPrivate(s, t, msg, env);
    }

    method ForwardPrivate(s: nat, t: nat, msg: Message, env: Env)
      requires Sending() && s < MAX_CLIENTS && chans[s].inUse && t < MAX_CLIENTS && chans[t].inUse
      modifies this`outs, this`logs, chans`handed, chans`fates, links, sendBufs, queues
      ensures Sending()
      ensures slots[..] == old(slots[..])
      ensures logs == Saved(old(logs), CStr(msg.sender), CStr(msg.receiver), CStr(msg.payload), env.stamp)
      ensures outs == old(outs) + [Out(t, msg), Out(s, Say(MSG_ACK, CStr(msg.sender), [], env.now))]
    {
      hide Sending, Apart, Say, Saved, CStr, FateOf, Pack;
      SendingMeans();
      SaveHistory(CStr(msg.sender), CStr(msg.receiver), CStr(msg.payload), env.stamp);
      SlotSend(t, msg);
      SlotSend(s, Say(MSG_ACK, CStr(msg.sender), [], env.now));
    }

    /** The switch of `process_message`, all of it but the disconnection after LOGOUT. */
    method ProcessKinds(s: nat, msg: Message, env: Env)
      requires Sending() && TableOk(slots[..]) && s < MAX_CLIENTS && chans[s].inUse
      modifies this`outs, this`logs, slots, chans`handed, chans`fates, links, sendBufs, queues
      ensures Sending()
      ensures State() == Step(old(State()), s, msg, env, false).chat
      ensures outs == old(outs) + Step(old(State()), s, msg, env, false).outs
    {
      hide TableOk, Sending, Login, Logout, Broadcast, Private, Refusal, Say, CStr, Reply, Excerpt, FateOf, Pack;
      SendingMeans();
      ReplyIs(LogOf(logs, CStr(msg.sender)));
      var sender := CStr(msg.sender);
      if msg.kind == MSG_LOGIN {
        ProcessLogin(s, msg, env);
      } else if msg.kind == MSG_LOGOUT {
        ProcessLogout(s, env);
      } else if msg.kind == MSG_BROADCAST {
        ProcessBroadcast(s, msg, env);
      } else if msg.kind == MSG_PRIVATE {
        ProcessPrivate(s, msg, env);
      } else if msg.kind == MSG_LIST_USERS {
        var list := ListUsers(slots);
        SlotSend(s, Say(MSG_USER_LIST, sender, list, env.now));
      } else if msg.kind == MSG_HISTORY_REQ {
        var buf := ReadHistory(LogOf(logs, sender));
        SlotSend(s, Say(MSG_HISTORY_RESP, sender, if buf != [] then buf else Lit("No history."), env.now));
      } else if msg.kind == MSG_STATUS_CHANGE {
        SetSlot(s, slots[s].(status := AskedStatus(msg.payload)));
        assert slots[..] == old(slots[..])[s := old(slots[s]).(status := AskedStatus(msg.payload))];
        SlotSend(s, Say(MSG_ACK, sender, Lit("Status updated"), env.now));
      } else {
        SlotSend(s, Refusal(sender, Lit("Unknown type"), env.now));
      }
    }

    // ---------- steps ----------

    /** A request or a lost connection begins a new event of the service. */
    method BeginStep()
      requires Apart() && ActiveInUse() && SendSide()
      modifies this`step, this`outs, this`base
      ensures Sending()
      ensures step == old(step) + 1
      ensures outs == [] && base == Handed()
    {
      hide Channel.SendOk, Handing, Apart;
      Members(0);
      HandingNothing(Handed(), step + 1);
      step, outs, base := step + 1, [], Handed();
    }

    lemma StoryMeans()
      requires Story()
      ensures Within(events, MAX_CLIENTS) && step == |events|
      ensures var x := Chronicled(events, false);
              State() == x.chat && Lived(x) && OverWith(closed, x.over)
    {
      hide Chronicled;
    }

    /** Every session in use has lived through event `ev` of the chronicle `x`. */
    ghost predicate LivesOn(x: Chronicle, ev: Event, outs: seq<Out>)
      reads this`step, chans`inUse, chans`requests, chans`handed
    {
      && |chans| == |x.lives|
      && forall i :: 0 <= i < |chans| && chans[i].inUse ==>
                       Life(chans[i].requests, chans[i].handed) == LifeAfter(x.lives[i], ev, outs, step, i)
    }

    /** The story goes on with one more event. */
    lemma StoryGoesOn(before: seq<Event>, over: seq<Session>, ev: Event, outs: seq<Out>)
      requires Within(before, MAX_CLIENTS) && ev.s < MAX_CLIENTS && |chans| == slots.Length == MAX_CLIENTS
      requires events == before + [ev] && step == |before| + 1
      requires var x := Chronicled(before, false);
               && Effect(State(), outs) == Apply(x.chat, ev, false)
               && LivesOn(x, ev, outs)
               && OverWith(over, x.over)
               && if ev.Gone? then
                    && |closed| == |over| + 1 && closed[..|over|] == over
                    && closed[|over|].slot == ev.s
                    && Life(closed[|over|].requests, closed[|over|].handed) == x.lives[ev.s]
                  else closed == over
      ensures Story()
    {
      hide Apply, LifeAfter, Chronicled, OverWith, Told, Lived, LivesOn;
      var x := Chronicled(before, false);
      ChronicledOne(before, ev, false);
      ToldIs(x, ev, |before| + 1);
      OverGrows(over, closed, x.over, ev, x.lives[ev.s]);
      forall i | 0 <= i < MAX_CLIENTS
        ensures Told(x, ev, |before| + 1, false).lives[i] == LifeAfter(x.lives[i], ev, outs, step, i)
      {
        ToldLife(x, ev, |before| + 1, false, i);
      }
      LivedIs(x, ev, outs, Told(x, ev, |before| + 1, false));
    }

    lemma LivedIs(x: Chronicle, ev: Event, outs: seq<Out>, y: Chronicle)
      requires LivesOn(x, ev, outs) && |y.lives| == |chans|
      requires forall i :: 0 <= i < |chans| ==> y.lives[i] == LifeAfter(x.lives[i], ev, outs, step, i)
      ensures Lived(y)
    {
      hide LifeAfter;
    }

    /** The `memset` of `disconnect_client`. */
    method ClearSlot(s: nat)
      requires Sending() && s < MAX_CLIENTS
      requires RecvSide(s) && FdsDistinct()
      modifies slots, {chans[s]}`fd, {chans[s]}`inUse, {chans[s]}`rbufLen, chans[s].rbuf, chans[s].sbuf, chans[s].link
      ensures Sending() && RecvSide(-1) && FdsDistinct()
      ensures slots[..] == old(slots[..])[s := FREE]
      ensures !chans[s].inUse && chans[s].rbufLen == 0
      ensures chans[s].link.failures == old(chans[s].link.failures)
      ensures forall i :: 0 <= i < |chans| && i != s ==> chans[i].inUse == old(chans[i].inUse)
    {
      hide Handing, SendSide, RecvSide, Apart, Handed;
      Members(s);
      HandedIs();
      ghost var before := Handed();
      ClearChannel(s);
      slots[s] := FREE;
      forall i | 0 <= i < |chans| && i != s
        ensures slots[i].active ==> chans[i].inUse
        ensures chans[i].inUse == old(chans[i].inUse) && chans[i].fd == old(chans[i].fd)
      {
        Disjoint(i, s);
      }
      HandedIs();
      assert Handed() == before;
    }

    method ClearChannel(s: nat)
      requires SendSide() && RecvSide(s) && s < MAX_CLIENTS
      modifies {chans[s]}`fd, {chans[s]}`inUse, {chans[s]}`rbufLen, chans[s].rbuf, chans[s].sbuf, chans[s].link
      ensures SendSide() && RecvSide(-1)
      ensures !chans[s].inUse && chans[s].rbufLen == 0 && chans[s].fd == 0
      ensures chans[s].link.failures == old(chans[s].link.failures)
    {
      hide Channel.SendOk, Channel.RecvOk, Apart;
      Members(s);
      chans[s].Clear();
      forall i | 0 <= i < |chans| && i != s
        ensures chans[i].SendOk() && chans[i].RecvOk()
      {
        Disjoint(i, s);
        assert old(chans[i].SendOk()) && old(chans[i].RecvOk());
      }
    }

    /** `disconnect_client`: the others are told when the user was logged in, the session is
        over, and the slot is free. */
    method DisconnectClient(s: nat, now: Time)
      requires Sending() && TableOk(slots[..]) && RecvSide(s) && FdsDistinct() && ClosedOk()
      requires s < MAX_CLIENTS && chans[s].inUse
      requires chans[s].requests <= UpToLogout(Decode(chans[s].received).msgs)
      modifies this`outs, this`closed, slots, chans`handed, chans`fates, links, sendBufs, queues
      modifies {chans[s]}`fd, {chans[s]}`inUse, {chans[s]}`rbufLen, chans[s].rbuf
      ensures Sending() && TableOk(slots[..]) && RecvSide(-1) && FdsDistinct() && ClosedOk()
      ensures State() == Leave(old(State()), s, now).chat
      ensures outs == old(outs) + Leave(old(State()), s, now).outs
      ensures !chans[s].inUse && chans[s].rbufLen == 0
      ensures chans[s].link.failures == old(chans[s].link.failures)
      ensures old(chans[s].sbuf.Valid()) && closed == old(closed) + [old(chans[s].AsSession(s))]
      ensures forall i :: 0 <= i < |chans| && i != s ==> chans[i].inUse == old(chans[i].inUse)
    {
      hide Sending, Apart, TableOk, RecvSide, FdsDistinct, ClosedOk, UpToLogout, Decode, Channel.AsSession;
      SendingMeans();
      Members(s);
      TableSize(slots[..]);
      SlotOnlyKeeps(slots[..], s, FREE);
      RecordSession(s);
      Farewell(s, now);
      ClearSlot(s);
    }

    method RecordSession(s: nat)
      requires Sending() && ClosedOk()
      requires s < MAX_CLIENTS && chans[s].inUse
      requires chans[s].requests <= UpToLogout(Decode(chans[s].received).msgs)
      modifies this`closed
      ensures ClosedOk()
      ensures chans[s].sbuf.Valid() && closed == old(closed) + [chans[s].AsSession(s)]
    {
      hide Sending, Apart, SessionOk, UpToLogout, Decode, Channel.AsSession;
      SendingMeans();
      SessionEnds(s);
      closed := closed + [chans[s].AsSession(s)];
    }

    /** The note of `disconnect_client`. */
    method Farewell(s: nat, now: Time)
      requires Sending() && TableOk(slots[..]) && s < MAX_CLIENTS
      modifies this`outs, chans`handed, chans`fates, links, sendBufs, queues
      ensures Sending()
      ensures outs == old(outs) + Leave(State(), s, now).outs
      ensures chans[s].link.failures == old(chans[s].link.failures)
    {
      hide Sending, Apart, TableOk;
      SendingMeans();
      TableSizes(slots[..]);
      assert slots[..][s] == slots[s];
      if slots[s].active {
        var note := SnPrintf(slots[s].name + Lit(" disconnected"), 64);
        assert note == slots[s].name + Lit(" disconnected");
        SendOthers(s, Say(MSG_BROADCAST, [], note, now));
      }
    }

    lemma SessionEnds(s: nat)
      requires Sending() && s < MAX_CLIENTS && chans[s].inUse
      requires chans[s].requests <= UpToLogout(Decode(chans[s].received).msgs)
      ensures chans[s].sbuf.Valid() && SessionOk(chans[s].AsSession(s))
    {
      hide SessionOk, Handing, ActiveInUse, Apart;
      assert chans[s].SendOk();
      chans[s].EndsWell(s);
    }

    lemma HandedAre()
      requires Sending()
      ensures |base| == |chans|
      ensures forall i :: 0 <= i < |chans| ==> chans[i].handed == base[i] + Tag(step, For(outs, i))
    {
      hide Apart, ActiveInUse, SendSide, For, Tag;
      HandedIs();
    }

    /** The connection of slot `s` is lost, which is an event of its own. */
    method Drop(s: nat)
      requires Between(s) && s < MAX_CLIENTS && chans[s].inUse
      requires chans[s].requests <= UpToLogout(Decode(chans[s].received).msgs)
      modifies this`outs, this`closed, this`step, this`events, this`base, slots, chans`handed, chans`fates
      modifies links, sendBufs, queues
      modifies {chans[s]}`fd, {chans[s]}`inUse, {chans[s]}`rbufLen, chans[s].rbuf
      ensures Valid()
      ensures events == old(events) + [Gone(s, world(old(step)).now)]
      ensures old(chans[s].sbuf.Valid()) && closed == old(closed) + [old(chans[s].AsSession(s))]
      ensures step == old(step) + 1
      ensures State() == Leave(old(State()), s, world(old(step)).now).chat
      ensures !chans[s].inUse && chans[s].rbufLen == 0
      ensures chans[s].link.failures == old(chans[s].link.failures)
    {
      hide Between, Apart, TableOk, SendSide, RecvSide, ClosedOk, FdsDistinct, UpToLogout, Decode, Handing, Story;
      hide Leave, Handed, Sending, ActiveInUse, For, Tag, Chronicled, OverWith, Lived, LivesOn;
      BetweenMeans(s);
      Members(s);
      StoryMeans();
      ghost var x, before, over, ev := Chronicled(events, false), events, closed, Gone(s, world(step).now);
      LivedMeans(x);
      LoseSession(s, world(step).now);
      events := events + [ev];
      EventTold(before, over, ev, -1);
    }

    lemma LivedMeans(x: Chronicle)
      requires Lived(x)
      ensures |chans| == |x.lives|
      ensures forall i :: 0 <= i < |chans| && chans[i].inUse ==>
                            chans[i].requests == x.lives[i].requests && chans[i].handed == x.lives[i].handed
    {
    }

    lemma LivesOnIs(x: Chronicle, ev: Event, outs: seq<Out>)
      requires ev.Request? || ev.Gone?
      requires |chans| == |x.lives|
      requires forall i :: 0 <= i < |chans| && chans[i].inUse ==>
                             && chans[i].requests
                                == (if ev.Request? && ev.s == i then x.lives[i].requests + [ev.req]
                                    else x.lives[i].requests)
                             && chans[i].handed == x.lives[i].handed + Tag(step, For(outs, i))
      ensures LivesOn(x, ev, outs)
    {
      hide For, Tag;
    }

    /** A request acted on, or a lost connection, has become part of the story. */
    lemma EventTold(before: seq<Event>, over: seq<Session>, ev: Event, but: int)
      requires Within(before, MAX_CLIENTS) && ev.s < MAX_CLIENTS && (ev.Request? || ev.Gone?)
      requires Sending() && TableOk(slots[..]) && RecvSide(but) && FdsDistinct() && ClosedOk()
      requires events == before + [ev] && step == |before| + 1
      requires var x := Chronicled(before, false);
               && Effect(State(), outs) == Apply(x.chat, ev, false)
               && |chans| == |x.lives|
               && (forall i :: 0 <= i < |chans| && chans[i].inUse ==>
                     && chans[i].requests
                        == (if ev.Request? && ev.s == i then x.lives[i].requests + [ev.req] else x.lives[i].requests)
                     && chans[i].handed == x.lives[i].handed + Tag(step, For(outs, i)))
               && OverWith(over, x.over)
               && if ev.Gone? then
                    && |closed| == |over| + 1 && closed[..|over|] == over
                    && closed[|over|].slot == ev.s
                    && Life(closed[|over|].requests, closed[|over|].handed) == x.lives[ev.s]
                  else closed == over
      ensures Between(but)
    {
      hide Apart, TableOk, SendSide, RecvSide, ClosedOk, FdsDistinct, Handing, Story;
      hide Apply, ActiveInUse, For, Tag, Chronicled, OverWith, LivesOn;
      LivesOnIs(Chronicled(before, false), ev, outs);
      StoryGoesOn(before, over, ev, outs);
    }

    /** A new event, in which the connection is lost. */
    method LoseSession(s: nat, now: Time)
      requires Between(s) && s < MAX_CLIENTS && chans[s].inUse
      requires chans[s].requests <= UpToLogout(Decode(chans[s].received).msgs)
      modifies this`outs, this`closed, this`step, this`base, slots, chans`handed, chans`fates
      modifies links, sendBufs, queues
      modifies {chans[s]}`fd, {chans[s]}`inUse, {chans[s]}`rbufLen, chans[s].rbuf
      ensures Sending() && TableOk(slots[..]) && RecvSide(-1) && FdsDistinct() && ClosedOk()
      ensures step == old(step) + 1
      ensures Effect(State(), outs) == Leave(old(State()), s, now)
      ensures !chans[s].inUse && chans[s].rbufLen == 0
      ensures chans[s].link.failures == old(chans[s].link.failures)
      ensures old(chans[s].sbuf.Valid()) && closed == old(closed) + [old(chans[s].AsSession(s))]
      ensures forall i :: 0 <= i < |chans| && i != s ==>
                            && chans[i].inUse == old(chans[i].inUse)
                            && chans[i].handed == old(chans[i].handed) + Tag(step, For(outs, i))
    {
      hide Between, Apart, TableOk, SendSide, RecvSide, ClosedOk, FdsDistinct, UpToLogout, Decode, Handing, Story;
      hide Leave, Handed, Sending, ActiveInUse, For, Tag, Channel.AsSession;
      BetweenMeans(s);
      Members(s);
      BeginStep();
      HandedIs();
      DisconnectClient(s, now);
      assert [] + outs == outs;
      HandedAre();
    }

    /** The request about to be acted on is recorded in the session. */
    method NoteRequest(s: nat, msg: Message)
      requires RecvSide(s) && s < MAX_CLIENTS
      modifies {chans[s]}`requests
      ensures RecvSide(s)
      ensures chans[s].requests == old(chans[s].requests) + [msg]
      ensures forall i :: 0 <= i < |chans| && i != s ==> chans[i].requests == old(chans[i].requests)
    {
      hide Apart, Channel.RecvOk;
      Members(s);
      chans[s].requests := chans[s].requests + [msg];
      forall i | 0 <= i < |chans| && i != s
        ensures chans[i].RecvOk() && chans[i].requests == old(chans[i].requests)
      {
        Disjoint(i, s);
        assert old(chans[i].RecvOk());
      }
    }

    /** `process_message`: the request as an event of the service; after LOGOUT, which has told
        the others already, the connection is dropped. */
    method ProcessMessage(s: nat, msg: Message)
      requires Between(s) && s < MAX_CLIENTS && chans[s].inUse
      requires chans[s].requests + [msg] <= UpToLogout(Decode(chans[s].received).msgs)
      modifies this`outs, this`closed, this`step, this`events, this`base, this`logs
      modifies slots, chans`handed, chans`fates, links, sendBufs, queues
      modifies {chans[s]}`requests, {chans[s]}`fd, {chans[s]}`inUse, {chans[s]}`rbufLen, chans[s].rbuf
      ensures Between(s)
      ensures chans[s].inUse ==> chans[s].fd == old(chans[s].fd)
      ensures events == old(events) + [Request(s, msg, world(old(step)))]
                        + if msg.kind == MSG_LOGOUT then [Gone(s, world(old(step) + 1).now)] else []
      ensures chans[s].inUse <==> msg.kind != MSG_LOGOUT
      ensures msg.kind == MSG_LOGOUT ==> RecvSide(-1) && chans[s].rbufLen == 0
      ensures msg.kind == MSG_LOGOUT ==> OneMore(old(closed), closed, old(chans[s].received))
      ensures msg.kind != MSG_LOGOUT ==> closed == old(closed)
      ensures msg.kind != MSG_LOGOUT ==> chans[s].requests == old(chans[s].requests) + [msg]
      ensures msg.kind != MSG_LOGOUT ==> chans[s].rbufLen == old(chans[s].rbufLen)
      ensures msg.kind != MSG_LOGOUT ==> chans[s].rbuf[..] == old(chans[s].rbuf[..])
    {
      hide Between, Apart, RecvSide, UpToLogout, Decode, Valid, Story, ActiveInUse, TableOk, SendSide, FdsDistinct;
      hide ClosedOk, Step, Leave;
      BetweenMeans(s);
      Members(s);
      StepRequest(s, msg, world(step));
      if msg.kind == MSG_LOGOUT {
        Drop(s);
        ValidAtAll(s);
      } else {
        assert events + [] == events;
      }
    }

    lemma ValidAtAll(s: nat)
      requires Valid()
      ensures Between(s) && RecvSide(-1)
    {
      hide Apart, ActiveInUse, TableOk, SendSide, FdsDistinct, ClosedOk, Story;
    }

    lemma BetweenMeans(s: nat)
      requires Between(s)
      ensures slots.Length == |chans| == MAX_CLIENTS
      ensures Apart() && ActiveInUse() && TableOk(slots[..]) && SendSide() && RecvSide(s)
      ensures FdsDistinct() && ClosedOk() && Story()
      ensures step == |events|
    {
    }

    lemma BetweenIs(s: nat)
      requires Apart() && ActiveInUse() && TableOk(slots[..]) && SendSide() && RecvSide(s)
      requires FdsDistinct() && ClosedOk() && Story()
      ensures Between(s)
    {
    }

    /** `process_message` up to the disconnection: one event of the service. */
    method StepRequest(s: nat, msg: Message, env: Env)
      requires Between(s) && s < MAX_CLIENTS && chans[s].inUse
      modifies this`outs, this`step, this`events, this`base, this`logs
      modifies slots, chans`handed, chans`fates, links, sendBufs, queues, {chans[s]}`requests
      ensures Between(s)
      ensures step == old(step) + 1 && events == old(events) + [Request(s, msg, env)]
      ensures State() == Step(old(State()), s, msg, env, false).chat
      ensures outs == Step(old(State()), s, msg, env, false).outs
      ensures chans[s].requests == old(chans[s].requests) + [msg]
    {
      hide Separate, TableOk, Handing, For, Tag, Chronicled, OverWith, Lived, LivesOn, Step, Handed;
      hide Between, Apart, ActiveInUse, SendSide, RecvSide, ClosedOk, FdsDistinct, Sending, Story;
      BetweenMeans(s);
      Members(s);
      StoryMeans();
      ghost var x, before, over, ev := Chronicled(events, false), events, closed, Request(s, msg, env);
      LivedMeans(x);
      ActOn(s, msg, env);
      events := events + [ev];
      EventTold(before, over, ev, s);
    }

    /** A new event, in which the request is acted on. */
    method ActOn(s: nat, msg: Message, env: Env)
      requires Between(s) && s < MAX_CLIENTS && chans[s].inUse
      modifies this`outs, this`step, this`base, this`logs
      modifies slots, chans`handed, chans`fates, links, sendBufs, queues, {chans[s]}`requests
      ensures Sending() && TableOk(slots[..]) && RecvSide(s) && FdsDistinct() && ClosedOk()
      ensures step == old(step) + 1
      ensures Effect(State(), outs) == Step(old(State()), s, msg, env, false)
      ensures chans[s].requests == old(chans[s].requests) + [msg]
      ensures forall i :: 0 <= i < |chans| ==>
                            && (i != s ==> chans[i].requests == old(chans[i].requests))
                            && chans[i].handed == old(chans[i].handed) + Tag(step, For(outs, i))
    {
      hide Separate, TableOk, Handing, LogsGrown, For, Tag, Story;
      hide Between, Apart, ActiveInUse, SendSide, RecvSide, ClosedOk, FdsDistinct, Sending, Step, Handed;
      BetweenMeans(s);
      Members(s);
      StepKeeps(State(), s, msg, env, false);
      StartRequest(s, msg);
      ProcessKinds(s, msg, env);
      assert [] + outs == outs;
      HandedAre();
    }

    /** The request is recorded and begins an event. */
    method StartRequest(s: nat, msg: Message)
      requires Between(s) && s < MAX_CLIENTS && chans[s].inUse
      modifies this`outs, this`step, this`base, {chans[s]}`requests
      ensures Sending() && RecvSide(s) && FdsDistinct() && ClosedOk()
      ensures step == old(step) + 1 && outs == []
      ensures |base| == |chans| && forall i :: 0 <= i < |chans| ==> base[i] == old(chans[i].handed)
      ensures chans[s].requests == old(chans[s].requests) + [msg]
      ensures forall i :: 0 <= i < |chans| && i != s ==> chans[i].requests == old(chans[i].requests)
    {
      hide Between, Apart, ActiveInUse, TableOk, SendSide, RecvSide, ClosedOk, FdsDistinct, Sending, Handed, Story;
      BetweenMeans(s);
      Members(s);
      HandedIs();
      NoteRequest(s, msg);
      BeginStep();
    }

    // ---------- reading ----------

    /** The read loop of `handle_read`: true when it ends in EAGAIN, with everything the
        socket had; false when the connection is to be dropped. */
    method FillBuffer(s: nat) returns (again: bool)
      requires RecvSide(s) && s < MAX_CLIENTS && chans[s].inUse && chans[s].RecvOk()
      requires !chans[s].link.ending.Done?
      modifies {chans[s]}`rbufLen, {chans[s]}`received, chans[s].link`incoming, chans[s].rbuf
      ensures RecvSide(s)
      ensures var total := old(chans[s].rbuf[..chans[s].rbufLen]) + old(chans[s].link.incoming);
              && (again <==> |total| < RBUF_SIZE && old(chans[s].link.ending) == Again)
              && (again ==> && 0 <= chans[s].rbufLen <= RBUF_SIZE && chans[s].rbuf[..chans[s].rbufLen] == total
                            && chans[s].received == old(chans[s].received) + old(chans[s].link.incoming))
      ensures chans[s].received
              == old(chans[s].received) + Taking(old(chans[s].rbuf[..chans[s].rbufLen]), old(chans[s].link.incoming))
    {
      hide Apart, Channel.RecvOk;
      Members(s);
      RecvBounds(s);
      again := chans[s].Fill();
      forall i | 0 <= i < |chans| && i != s
        ensures chans[i].RecvOk()
      {
        Disjoint(i, s);
        assert old(chans[i].RecvOk());
      }
    }

    lemma RecvBounds(s: nat)
      requires s < |chans| && chans[s].inUse && chans[s].RecvOk()
      ensures 0 <= chans[s].rbufLen < RBUF_SIZE == chans[s].rbuf.Length
    {
    }

    method ShiftOn(s: nat, total: nat)
      requires Between(s) && s < MAX_CLIENTS && total > 0 && chans[s].rbufLen <= RBUF_SIZE
      modifies {chans[s]}`rbufLen, chans[s].rbuf
      ensures Between(s)
      ensures chans[s].rbufLen == old(chans[s].rbufLen) - total
      ensures chans[s].rbufLen >= 0 ==>
                chans[s].rbuf[..chans[s].rbufLen] == old(chans[s].rbuf[..chans[s].rbufLen])[total..]
    {
      hide Between, Apart, ActiveInUse, TableOk, SendSide, FdsDistinct, ClosedOk, Channel.RecvOk, Story;
      BetweenMeans(s);
      Members(s);
      chans[s].Shift(total);
      forall i | 0 <= i < |chans| && i != s
        ensures chans[i].RecvOk()
      {
        Disjoint(i, s);
        assert old(chans[i].RecvOk());
      }
      BetweenIs(s);
    }

    /** One turn of the parsing loop: a complete frame is acted on and removed. After LOGOUT the
        length of the freed slot's buffer is left negative. */
    method TakeFrame(s: nat)
      requires Between(s) && s < MAX_CLIENTS && chans[s].inUse
      requires 0 <= chans[s].rbufLen <= RBUF_SIZE == chans[s].rbuf.Length
      requires Complete(chans[s].rbuf[..chans[s].rbufLen])
      requires var m := FirstMessage(chans[s].rbuf[..chans[s].rbufLen]);
               chans[s].requests + [m] <= UpToLogout(Decode(chans[s].received).msgs)
      modifies this`outs, this`closed, this`step, this`events, this`base, this`logs
      modifies slots, chans`handed, chans`fates, links, sendBufs, queues
      modifies {chans[s]}`requests, {chans[s]}`fd, {chans[s]}`inUse, {chans[s]}`rbufLen, chans[s].rbuf
      ensures Between(s)
      ensures chans[s].inUse ==> chans[s].fd == old(chans[s].fd)
      ensures var w := old(chans[s].rbuf[..chans[s].rbufLen]);
              var m := FirstMessage(w);
              && events == old(events) + [Request(s, m, world(old(step)))]
                           + (if m.kind == MSG_LOGOUT then [Gone(s, world(old(step) + 1).now)] else [])
              && (chans[s].inUse <==> m.kind != MSG_LOGOUT)
              && (m.kind == MSG_LOGOUT ==> && chans[s].rbufLen < 0
                                           && OneMore(old(closed), closed, old(chans[s].received)))
              && (m.kind != MSG_LOGOUT ==>
                    && closed == old(closed)
                    && chans[s].requests == old(chans[s].requests) + [m]
                    && 0 <= chans[s].rbufLen == |w| - FrameLen(w)
                    && chans[s].rbuf[..chans[s].rbufLen] == w[FrameLen(w)..])
    {
      hide Between, UpToLogout, Decode, RecvSide, Separate, ActiveInUse, TableOk, SendSide, OneMore;
      hide FdsDistinct, ClosedOk, Story, Apart;
      BetweenMeans(s);
      Members(s);
      ghost var w := chans[s].rbuf[..chans[s].rbufLen];
      assert w[74] == chans[s].rbuf[74] && w[75] == chans[s].rbuf[75];
      var plen := (chans[s].rbuf[74] as int) * 256 + chans[s].rbuf[75];
      var total := HEADER_SIZE + plen;
      assert chans[s].rbuf[..total] == w[..total];
      var r := UnpackMessage(chans[s].rbuf, total);
      if r.Some? {
        ProcessMessage(s, r.value);
      }
      ShiftOn(s, total);
    }

    /** The parsing loop has taken `done` out of what it found. */
    ghost predicate Ongoing(s: nat, x: Parsing, done: seq<Message>)
      reads this, chans, recvBufs
    {
      && Apart() && s < MAX_CLIENTS
      && chans[s].inUse
      && 0 <= chans[s].rbufLen <= RBUF_SIZE
      && NoLogout(x.before) && NoLogout(done)
      && chans[s].requests == x.before + done
      && chans[s].received == x.received && closed == x.closed
      && Decode(x.received) == Parse(x.before + x.p.msgs, x.p.rest, x.p.bad)
      && Consumed(x.p, done, chans[s].rbuf[..chans[s].rbufLen])
      && events == x.log + Requests(s, done, world, |x.log|)
    }

    /** The drain has ended in the loss of the connection. */
    ghost predicate Over(s: nat, x: Parsing)
      reads this`events, this`closed, chans
    {
      && s < |chans|
      && !chans[s].inUse
      && !Parsed(x.p).live
      && events == x.log + DrainEvents(s, Parsed(x.p), world, |x.log|)
      && OneMore(x.closed, closed, x.received)
    }

    /** The drain has left the connection waiting for the rest of a frame. */
    ghost predicate Settled(s: nat, x: Parsing)
      reads this, chans, recvBufs
    {
      && Apart() && s < MAX_CLIENTS
      && chans[s].inUse
      && Parsed(x.p).live
      && 0 <= chans[s].rbufLen <= RBUF_SIZE
      && chans[s].rbuf[..chans[s].rbufLen] == x.p.rest
      && chans[s].requests == x.before + Parsed(x.p).requests
      && chans[s].received == x.received && closed == x.closed
      && events == x.log + DrainEvents(s, Parsed(x.p), world, |x.log|)
    }

    lemma OngoingAllows(s: nat, x: Parsing, done: seq<Message>)
      requires Ongoing(s, x, done) && Complete(chans[s].rbuf[..chans[s].rbufLen])
      ensures var w := chans[s].rbuf[..chans[s].rbufLen];
              && chans[s].requests + [FirstMessage(w)] <= UpToLogout(Decode(chans[s].received).msgs)
              && Consumed(x.p, done + [FirstMessage(w)], w[FrameLen(w)..])
              && (FirstMessage(w).kind == MSG_LOGOUT ==>
                    UpToLogout(x.p.msgs) == done + [FirstMessage(w)] && !NoLogout(x.p.msgs))
    {
      hide Complete, Consumed, UpToLogout, Decode, Apart, Requests;
      Members(s);
      var w := chans[s].rbuf[..chans[s].rbufLen];
      var m, rest := FirstMessage(w), Decode(w[FrameLen(w)..]).msgs;
      ConsumedStep(x.p, done, w);
      NextAllowed(x.before, done, m, rest);
      if m.kind == MSG_LOGOUT {
        UpToLogoutStops(done, m, rest);
        assert x.p.msgs[|done|] == m;
      }
    }

    /** One turn of the loop on a complete frame. */
    method Turn(s: nat, ghost x: Parsing, ghost done: seq<Message>) returns (ghost next: seq<Message>)
      requires Between(s) && Ongoing(s, x, done) && Complete(chans[s].rbuf[..chans[s].rbufLen])
      modifies this`outs, this`closed, this`step, this`events, this`base, this`logs
      modifies slots, chans`handed, chans`fates, links, sendBufs, queues
      modifies {chans[s]}`requests, {chans[s]}`fd, {chans[s]}`inUse, {chans[s]}`rbufLen, chans[s].rbuf
      ensures Between(s)
      ensures chans[s].inUse ==> chans[s].fd == old(chans[s].fd)
      ensures chans[s].rbufLen <= old(chans[s].rbufLen) - HEADER_SIZE
      ensures if chans[s].inUse then Ongoing(s, x, next) else chans[s].rbufLen < 0 && Over(s, x)
    {
      hide Between, Complete, Consumed, UpToLogout, Decode, Apart, Unpack, Requests, OneMore;
      hide Separate, FirstMessage, ActiveInUse, TableOk, SendSide, RecvSide, FdsDistinct, ClosedOk, Story;
      BetweenMeans(s);
      Members(s);
      OngoingAllows(s, x, done);
      ghost var w := chans[s].rbuf[..chans[s].rbufLen];
      next := done + [FirstMessage(w)];
      OneRequestMore(x.log, s, done, FirstMessage(w), world);
      TakeFrame(s);
    }

    /** The loop meets a header announcing too long a payload. */
    method Refuse(s: nat, ghost x: Parsing, ghost done: seq<Message>)
      requires Between(s) && Ongoing(s, x, done) && Oversized(chans[s].rbuf[..chans[s].rbufLen])
      modifies this`outs, this`closed, this`step, this`events, this`base
      modifies slots, chans`handed, chans`fates, links, sendBufs, queues
      modifies {chans[s]}`fd, {chans[s]}`inUse, {chans[s]}`rbufLen, chans[s].rbuf
      ensures Valid()
      ensures Over(s, x)
    {
      hide Between, Consumed, UpToLogout, Decode, Apart, Valid, Story, Requests, ActiveInUse, TableOk, SendSide;
      hide RecvSide, FdsDistinct, ClosedOk, Leave;
      BetweenMeans(s);
      Members(s);
      ConsumedEnd(x.p, done, chans[s].rbuf[..chans[s].rbufLen]);
      WholeIsAllowed(x.before, done);
      WholeIsAllowed([], done);
      assert [] + done == done;
      RequestsSize(s, done, world, |x.log|);
      Drop(s);
      SessionAdded(s, x.closed, x.received);
    }

    /** The loop stops at the start of a frame still incomplete. */
    lemma Settle(s: nat, x: Parsing, done: seq<Message>)
      requires Between(s) && Ongoing(s, x, done)
      requires var w := chans[s].rbuf[..chans[s].rbufLen]; !Complete(w) && !Oversized(w)
      ensures Valid()
      ensures Settled(s, x)
    {
      hide Consumed, UpToLogout, Decode, Apart, Complete, Oversized, SendSide, TableOk, Requests;
      hide ClosedOk, FdsDistinct, ActiveInUse, Story;
      Members(s);
      var w := chans[s].rbuf[..chans[s].rbufLen];
      ConsumedEnd(x.p, done, w);
      WholeIsAllowed(x.before, done);
      WholeIsAllowed([], done);
      assert [] + done == done;
      IncompleteIsShort(w);
      assert NoLogout(x.before + done);
      assert Requests(s, done, world, |x.log|) + [] == Requests(s, done, world, |x.log|);
    }

    /** The parsing loop of `handle_read`, whatever it meets: complete frames, a LOGOUT that
        frees the slot under it, a header it cannot accept, or the start of a frame. */
    method ParseLoop(s: nat, ghost x: Parsing)
      requires Between(s) && Ongoing(s, x, [])
      modifies this`outs, this`closed, this`step, this`events, this`base, this`logs
      modifies slots, chans`handed, chans`fates, links, sendBufs, queues
      modifies {chans[s]}`requests, {chans[s]}`fd, {chans[s]}`inUse, {chans[s]}`rbufLen, chans[s].rbuf
      ensures Valid()
      ensures chans[s].inUse ==> chans[s].fd == old(chans[s].fd)
      ensures if Parsed(x.p).live then Settled(s, x) else Over(s, x)
    {
      hide Between, Valid, Ongoing, Over, Settled, Complete, Parsed, Apart, ActiveInUse, RecvSide;
      ghost var done: seq<Message> := [];
      OngoingSizes(s, x, done);
      ParseSizes(s, x, done);
      while chans[s].rbufLen >= HEADER_SIZE
        invariant Between(s) && |chans| == MAX_CLIENTS && chans[s].rbuf.Length == RBUF_SIZE
        invariant if chans[s].inUse then Ongoing(s, x, done) else chans[s].rbufLen < 0 && Over(s, x)
        invariant chans[s].inUse ==> chans[s].fd == old(chans[s].fd)
        decreases chans[s].rbufLen
      {
        ParseSizes(s, x, done);
        ghost var w := chans[s].rbuf[..chans[s].rbufLen];
        assert w[74] == chans[s].rbuf[74] && w[75] == chans[s].rbuf[75];
        var plen := (chans[s].rbuf[74] as int) * 256 + chans[s].rbuf[75];
        if plen > MAX_PAYLOAD_LEN {
          Refuse(s, x, done);
          OverIs(s, x);
          return;
        }
        if chans[s].rbufLen < HEADER_SIZE + plen {
          NotComplete(w);
          Settle(s, x, done);
          SettledIs(s, x);
          return;
        }
        YesComplete(w);
        done := Turn(s, x, done);
        BetweenMeans(s);
      }
      if chans[s].inUse {
        ParseSizes(s, x, done);
        NotComplete(chans[s].rbuf[..chans[s].rbufLen]);
        Settle(s, x, done);
        SettledIs(s, x);
      } else {
        GoneIsValid(s);
        OverIs(s, x);
      }
    }

    lemma ParseSizes(s: nat, x: Parsing, done: seq<Message>)
      requires Between(s) && (s < |chans| ==> chans[s].inUse ==> Ongoing(s, x, done)) && s < MAX_CLIENTS
      ensures |chans| == MAX_CLIENTS && chans[s].rbuf.Length == RBUF_SIZE
      ensures chans[s].inUse ==> 0 <= chans[s].rbufLen <= RBUF_SIZE
    {
      hide Story;
    }

    lemma OngoingSizes(s: nat, x: Parsing, done: seq<Message>)
      requires Ongoing(s, x, done)
      ensures s < MAX_CLIENTS == |chans| && chans[s].inUse
    {
    }

    lemma OverIs(s: nat, x: Parsing)
      requires Over(s, x)
      ensures !Parsed(x.p).live && s < |chans| && !chans[s].inUse
    {
    }

    lemma SettledIs(s: nat, x: Parsing)
      requires Settled(s, x)
      ensures Parsed(x.p).live
    {
    }

    lemma GoneIsValid(s: nat)
      requires Between(s) && s < MAX_CLIENTS && s < |chans| && !chans[s].inUse
      ensures Valid()
    {
      hide SendSide, TableOk, ClosedOk, FdsDistinct, ActiveInUse, Apart, Story;
      Members(s);
    }

    // ---------- events ----------

    /** `find_by_fd`. */
    method FindByFd(fd: int) returns (r: int)
      requires |chans| == MAX_CLIENTS
      ensures r == Holder(Fds(), fd, 0)
      ensures r == -1 || 0 <= r < MAX_CLIENTS
      ensures r == -1 <==> forall i :: 0 <= i < MAX_CLIENTS ==> !(chans[i].inUse && chans[i].fd == fd)
      ensures r != -1 ==> chans[r].inUse && chans[r].fd == fd
    {
      for i := 0 to MAX_CLIENTS
        invariant Holder(Fds(), fd, 0) == Holder(Fds(), fd, i)
        invariant forall j :: 0 <= j < i ==> !(chans[j].inUse && chans[j].fd == fd)
      {
        if chans[i].inUse && chans[i].fd == fd {
          return i;
        }
      }
      r := -1;
    }

    /** `find_free`. */
    method FindFree() returns (r: int)
      requires |chans| == MAX_CLIENTS
      ensures r == -1 || 0 <= r < MAX_CLIENTS
      ensures r == -1 <==> forall i :: 0 <= i < MAX_CLIENTS ==> chans[i].inUse
      ensures r != -1 ==> !chans[r].inUse && forall i :: 0 <= i < r ==> chans[i].inUse
    {
      for i := 0 to MAX_CLIENTS
        invariant forall j :: 0 <= j < i ==> chans[j].inUse
      {
        if !chans[i].inUse {
          return i;
        }
      }
      r := -1;
    }

    lemma SlotRecv(s: nat)
      requires Valid() && s < MAX_CLIENTS
      ensures |chans| == MAX_CLIENTS && chans[s].RecvOk() && Between(s)
    {
      hide SendSide, TableOk, ClosedOk, FdsDistinct, ActiveInUse, Channel.RecvOk, Story;
    }

    /** `handle_read` once the slot is found: the socket yields `incoming`, in pieces of any
        size, and then reports `ending`. */
    method ReadSlot(s: nat, incoming: seq<Byte>, ending: Ending)
      requires Valid() && s < MAX_CLIENTS && chans[s].inUse
      modifies this`outs, this`closed, this`step, this`events, this`base, this`logs
      modifies slots, chans`handed, chans`fates, links, sendBufs, queues
      modifies {chans[s]}`requests, {chans[s]}`received, {chans[s]}`fd, {chans[s]}`inUse, {chans[s]}`rbufLen
      modifies chans[s].rbuf
      ensures Valid()
      ensures chans[s].inUse ==> chans[s].fd == old(chans[s].fd)
      ensures var w := old(chans[s].rbuf[..chans[s].rbufLen]);
              var d := Drained(w + incoming, ending);
              var received := old(chans[s].received) + Taking(w, incoming);
              && events == old(events) + DrainEvents(s, d, world, old(step))
              && (chans[s].inUse <==> d.live)
              && (d.live ==> && 0 <= chans[s].rbufLen <= RBUF_SIZE
                             && chans[s].rbuf[..chans[s].rbufLen] == d.rest
                             && chans[s].requests == old(chans[s].requests) + d.requests
                             && chans[s].received == received && closed == old(closed))
              && (!d.live ==> OneMore(old(closed), closed, received))
    {
      hide Apart, Separate, ActiveInUse, TableOk, SendSide, RecvSide, FdsDistinct, ClosedOk, Fds, Story, OneMore;
      hide Valid, Between, DrainEvents, Decode, Ongoing, Settled, Over, Channel.RecvOk, Drained, UpToLogout, Taking;
      SlotRecv(s);
      BetweenMeans(s);
      Members(s);
      ghost var w := ReadStart(s);
      ghost var x := Parsing(events, closed, chans[s].requests, chans[s].received + Taking(w, incoming),
                             Decode(w + incoming));
      ghost var received := chans[s].received;
      var again := Receive(s, incoming, ending);
      if again {
        ParseStart(s, x, received, w, incoming);
        ParseLoop(s, x);
        ParseResult(s, x, w + incoming, ending);
      } else {
        StillAllowed(received, x.before, w, chans[s].received);
        Drop(s);
        DroppedDrain(s, w + incoming, ending, |x.log|);
        SessionAdded(s, x.closed, x.received);
      }
    }

    lemma SessionAdded(s: nat, before: seq<Session>, received: seq<Byte>)
      requires |closed| == |before| + 1 && before <= closed && closed[|before|].received == received
      ensures OneMore(before, closed, received)
    {
    }

    ghost method ReadStart(s: nat) returns (w: seq<Byte>)
      requires s < |chans| && chans[s].inUse && chans[s].RecvOk()
      ensures 0 <= chans[s].rbufLen < chans[s].rbuf.Length == RBUF_SIZE
      ensures w == chans[s].rbuf[..chans[s].rbufLen]
      ensures Decode(chans[s].received) == Parse(chans[s].requests, w, false)
      ensures NoLogout(chans[s].requests)
    {
      w := chans[s].rbuf[..chans[s].rbufLen];
    }

    /** The kernel yields `incoming` and then `ending` to the read loop. */
    method Receive(s: nat, incoming: seq<Byte>, ending: Ending) returns (again: bool)
      requires Between(s) && s < MAX_CLIENTS && chans[s].inUse && chans[s].RecvOk()
      modifies {chans[s]}`rbufLen, {chans[s]}`received, chans[s].link`incoming, chans[s].link`ending, chans[s].rbuf
      ensures Between(s) && |chans| == MAX_CLIENTS && chans[s].rbuf.Length == RBUF_SIZE
      ensures var w := old(chans[s].rbuf[..chans[s].rbufLen]);
              && (again <==> |w + incoming| < RBUF_SIZE && ending == Again)
              && (again ==> 0 <= chans[s].rbufLen <= RBUF_SIZE && chans[s].rbuf[..chans[s].rbufLen] == w + incoming)
              && chans[s].received == old(chans[s].received) + Taking(w, incoming)
    {
      hide Between, Apart, ActiveInUse, TableOk, SendSide, RecvSide, FdsDistinct, ClosedOk, Channel.RecvOk, Story;
      hide Taking;
      BetweenMeans(s);
      Members(s);
      chans[s].link.incoming := incoming;
      chans[s].link.ending := ending;
      again := FillBuffer(s);
      BetweenIs(s);
    }

    lemma ParseStart(s: nat, x: Parsing, received: seq<Byte>, w: seq<Byte>, incoming: seq<Byte>)
      requires Between(s) && s < MAX_CLIENTS == |chans| && chans[s].inUse
      requires 0 <= chans[s].rbufLen <= RBUF_SIZE == chans[s].rbuf.Length
      requires chans[s].rbuf[..chans[s].rbufLen] == w + incoming && |w + incoming| < RBUF_SIZE
      requires chans[s].received == x.received == received + Taking(w, incoming)
      requires Decode(received) == Parse(chans[s].requests, w, false) && NoLogout(chans[s].requests)
      requires x == Parsing(events, closed, chans[s].requests, x.received, Decode(w + incoming))
      ensures Ongoing(s, x, [])
    {
      hide Between, Decode, Apart;
      BetweenMeans(s);
      DecodeAppend(received, incoming);
      assert chans[s].requests + [] == chans[s].requests;
      assert [] + Decode(w + incoming).msgs == Decode(w + incoming).msgs;
      assert events + Requests(s, [], world, |x.log|) == events;
    }

    lemma ParseResult(s: nat, x: Parsing, total: seq<Byte>, ending: Ending)
      requires x.p == Decode(total) && |total| < RBUF_SIZE && ending == Again
      requires if Parsed(x.p).live then Settled(s, x) else Over(s, x)
      ensures var d := Drained(total, ending);
              && events == x.log + DrainEvents(s, d, world, |x.log|)
              && s < |chans|
              && (chans[s].inUse <==> d.live)
              && (d.live ==> && 0 <= chans[s].rbufLen <= RBUF_SIZE == chans[s].rbuf.Length
                             && chans[s].rbuf[..chans[s].rbufLen] == d.rest
                             && chans[s].requests == x.before + d.requests
                             && chans[s].received == x.received && closed == x.closed)
              && (!d.live ==> OneMore(x.closed, closed, x.received))
    {
      hide Decode, DrainEvents, UpToLogout, OneMore;
    }

    /** A drain of slot `s` leaves every other connection alone. */
    method ReadOwn(s: nat, incoming: seq<Byte>, ending: Ending)
      requires Valid() && s < MAX_CLIENTS && chans[s].inUse
      modifies this`outs, this`closed, this`step, this`events, this`base, this`logs
      modifies slots, chans`handed, chans`fates, links, sendBufs, queues
      modifies {chans[s]}`requests, {chans[s]}`received, {chans[s]}`fd, {chans[s]}`inUse
      modifies {chans[s]}`rbufLen, chans[s].rbuf
      ensures Valid() && old(ViewOk(CurrentView()))
      ensures var r := Draining(old(CurrentView()), s, incoming, ending, world);
              CurrentView() == r.view && events == old(events) + r.news
    {
      hide Valid, Drained, Apart, Separate, Channel.RecvOk, Channel.Rest, DrainEvents, Fds, Rests, Reads, Endings;
      hide OneMore, Taking, Still;
      Sizes();
      SlotRecv(s);
      RestIs(s);
      ReadAlone(s, incoming, ending);
      StepIs();
      if chans[s].inUse {
        RestIn(s);
      } else {
        RestOut(s);
        EndingsGrow(old(chans[s].received) + Taking(old(chans[s].Rest()), incoming));
      }
      ViewMoves(s);
    }

    lemma StepIs()
      requires Valid()
      ensures step == |events|
    {
      hide Apart, ActiveInUse, TableOk, SendSide, RecvSide, FdsDistinct, ClosedOk;
    }

    twostate lemma EndingsGrow(received: seq<Byte>)
      requires OneMore(old(closed), closed, received)
      ensures Endings() == old(Endings()) + [received]
    {
    }

    /** The same, with what it leaves alone. */
    method ReadAlone(s: nat, incoming: seq<Byte>, ending: Ending)
      requires Valid() && s < MAX_CLIENTS && chans[s].inUse
      modifies this`outs, this`closed, this`step, this`events, this`base, this`logs
      modifies slots, chans`handed, chans`fates, links, sendBufs, queues
      modifies {chans[s]}`requests, {chans[s]}`received, {chans[s]}`fd, {chans[s]}`inUse
      modifies {chans[s]}`rbufLen, chans[s].rbuf
      ensures Valid() && |chans| == MAX_CLIENTS
      ensures chans[s].inUse ==> chans[s].fd == old(chans[s].fd)
      ensures var w := old(chans[s].rbuf[..chans[s].rbufLen]);
              var d := Drained(w + incoming, ending);
              var received := old(chans[s].received) + Taking(w, incoming);
              && events == old(events) + DrainEvents(s, d, world, old(step))
              && (chans[s].inUse <==> d.live)
              && (d.live ==> && 0 <= chans[s].rbufLen <= RBUF_SIZE == chans[s].rbuf.Length
                             && chans[s].rbuf[..chans[s].rbufLen] == d.rest
                             && chans[s].received == received && closed == old(closed))
              && (!d.live ==> OneMore(old(closed), closed, received))
      ensures Still(s)
    {
      hide Valid, DrainEvents, Drained, Apart, Separate, Channel.RecvOk, OneMore, Taking;
      Sizes();
      Members(s);
      ReadSlot(s, incoming, ending);
      forall i | 0 <= i < |chans| && i != s
        ensures chans[i].inUse == old(chans[i].inUse) && chans[i].fd == old(chans[i].fd)
        ensures chans[i].Rest() == old(chans[i].Rest()) && chans[i].received == old(chans[i].received)
      {
        Disjoint(i, s);
        Members(i);
      }
    }

    /** The other connections are as they were. */
    twostate predicate Still(s: nat)
      reads chans, set c | c in chans :: c.rbuf
    {
      forall i :: 0 <= i < |chans| && i != s ==>
                    && chans[i].inUse == old(chans[i].inUse) && chans[i].fd == old(chans[i].fd)
                    && chans[i].Rest() == old(chans[i].Rest()) && chans[i].received == old(chans[i].received)
    }

    twostate lemma ViewMoves(s: nat)
      requires Still(s) && s < |chans|
      ensures Fds() == old(Fds())[s := if chans[s].inUse then Some(chans[s].fd) else None]
      ensures Rests() == old(Rests())[s := chans[s].Rest()]
      ensures Reads() == old(Reads())[s := if chans[s].inUse then chans[s].received else []]
      ensures old(chans[s].inUse) ==> old(Fds()) == old(Fds())[s := Some(old(chans[s].fd))]
    {
      hide Channel.Rest;
    }

    lemma RestIn(s: nat)
      requires s < |chans| && chans[s].inUse && 0 <= chans[s].rbufLen <= chans[s].rbuf.Length
      ensures chans[s].Rest() == chans[s].rbuf[..chans[s].rbufLen]
    {
    }

    lemma RestOut(s: nat)
      requires s < |chans| && !chans[s].inUse
      ensures chans[s].Rest() == []
    {
    }

    lemma RestIs(s: nat)
      requires s < |chans| && chans[s].inUse && chans[s].RecvOk()
      ensures 0 <= chans[s].rbufLen < RBUF_SIZE == chans[s].rbuf.Length
      ensures chans[s].Rest() == chans[s].rbuf[..chans[s].rbufLen]
    {
    }

    /** `handle_read`. */
    method HandleRead(fd: int, incoming: seq<Byte>, ending: Ending) returns (ghost s: int)
      requires Valid()
      modifies this`outs, this`closed, this`step, this`events, this`base, this`logs
      modifies slots, chans, links, sendBufs, queues, recvBufs
      ensures Valid() && old(ViewOk(CurrentView()))
      ensures s == Holder(old(Fds()), fd, 0)
      ensures var r := if s == -1 then Reaction(old(CurrentView()), [])
                       else Draining(old(CurrentView()), s, incoming, ending, world);
              CurrentView() == r.view && events == old(events) + r.news
    {
      hide Valid, Apart, CurrentView, Draining, Holder;
      Sizes();
      OneHolder();
      var slot := FindByFd(fd);
      s := slot;
      if slot == -1 {
        assert events + [] == events;
        return;
      }
      Members(slot);
      ReadOwn(slot, incoming, ending);
    }

    lemma Sizes()
      requires Valid()
      ensures Apart() && |chans| == MAX_CLIENTS == slots.Length
    {
      hide Story;
    }

    /** Slot `s` has been flushed with the result `ret`: not a byte is lost, repeated or
        reordered; 0 means that the queue is empty, 1 that the socket refused a write; and
        EPOLLOUT is registered exactly while something is queued. */
    twostate predicate Flushed(s: nat, ret: int)
      requires s < |chans|
      reads chans[s].link, chans[s].sbuf, chans[s].sbuf.buf
    {
      && old(chans[s].sbuf.Valid()) && chans[s].sbuf.Valid()
      && chans[s].link.sent + chans[s].sbuf.Queue() == old(chans[s].link.sent + chans[s].sbuf.Queue())
      && (ret == 0 <==> chans[s].sbuf.Queue() == [])
      && chans[s].link.stalls == old(chans[s].link.stalls) + (if ret == 1 then 1 else 0)
      && (chans[s].link.pollOut <==> chans[s].sbuf.Queue() != [])
    }

    /** `handle_write` once the slot is found: the connection is lost if and only if a write
        failed, and then its session ended with bytes still queued. */
    method WriteSlot(s: nat) returns (ret: int)
      requires Valid() && s < MAX_CLIENTS && chans[s].inUse
      modifies this`outs, this`closed, this`step, this`events, this`base, this`flushFailures
      modifies slots, chans`handed, chans`fates, links, sendBufs, queues
      modifies {chans[s]}`fd, {chans[s]}`inUse, {chans[s]}`rbufLen, chans[s].rbuf
      ensures Valid()
      ensures ret == 0 || ret == 1 || ret == -1
      ensures chans[s].link.failures == old(chans[s].link.failures) + if ret == -1 then 1 else 0
      ensures flushFailures == old(flushFailures) + if ret == -1 then 1 else 0
      ensures chans[s].inUse <==> ret != -1
      ensures chans[s].inUse ==>
                && chans[s].fd == old(chans[s].fd) && chans[s].rbufLen == old(chans[s].rbufLen)
                && chans[s].rbuf[..] == old(chans[s].rbuf[..])
      ensures ret != -1 ==> Flushed(s, ret)
      ensures ret != -1 ==> events == old(events) && closed == old(closed) && State() == old(State())
      ensures ret == -1 ==> events == old(events) + [Gone(s, world(old(step)).now)]
      ensures ret == -1 ==> && OneMore(old(closed), closed, old(chans[s].received))
                            && CutOff(closed[|closed| - 1], s, old(AllBytes(s)))
    {
      hide Valid, Between, Channel.SendOk, SendSide, UpToLogout, Decode, Channel.RecvOk, Apart, Story, CutOff, Flushed;
      hide ActiveInUse, TableOk, RecvSide, FdsDistinct, ClosedOk, Leave, AllBytes, SendBuf.Queue;
      SlotRecv(s);
      BetweenMeans(s);
      Members(s);
      ghost var all := AllBytes(s);
      ret := FlushSlot(s);
      if ret < 0 {
        ghost var w := ReadStart(s);
        StillAllowed(chans[s].received, chans[s].requests, w, chans[s].received);
        CutOffIs(s, all);
        Drop(s);
        return;
      }
      SlotIs(s);
    }

    method FlushSlot(s: nat) returns (ret: int)
      requires Between(s) && s < MAX_CLIENTS && chans[s].inUse
      modifies this`flushFailures
      modifies chans[s].link`sent, chans[s].link`broken, chans[s].link`stalls
      modifies chans[s].link`failures, chans[s].link`pollOut, chans[s].sbuf
      ensures Between(s)
      ensures ret == 0 || ret == 1 || ret == -1
      ensures chans[s].link.failures == old(chans[s].link.failures) + if ret == -1 then 1 else 0
      ensures flushFailures == old(flushFailures) + if ret == -1 then 1 else 0
      ensures Flushed(s, ret) && AllBytes(s) == old(AllBytes(s)) && chans[s].sbuf.Valid()
      ensures ret == -1 ==> chans[s].link.broken && chans[s].sbuf.Queue() != []
    {
      hide Between, SendSide, Apart, Story, Flushed, ActiveInUse, TableOk, RecvSide, FdsDistinct, ClosedOk, AllBytes;
      BetweenMeans(s);
      Members(s);
      ghost var was := chans[s].link.failures;
      ret := FlushOn(s);
      flushFailures := flushFailures + (chans[s].link.failures - was);
      BetweenIs(s);
    }

    /** What a connection has taken and what is queued for it. */
    ghost function AllBytes(s: nat): seq<Byte>
      requires s < |chans|
      reads chans[s].link`sent, chans[s].sbuf, chans[s].sbuf.buf
    {
      if chans[s].sbuf.Valid() then chans[s].link.sent + chans[s].sbuf.Queue() else []
    }

    lemma CutOffIs(s: nat, all: seq<Byte>)
      requires s < |chans| && chans[s].sbuf.Valid() && all == AllBytes(s)
      requires chans[s].link.broken && chans[s].sbuf.Queue() != []
      ensures CutOff(chans[s].AsSession(s), s, all)
    {
    }

    lemma SlotIs(s: nat)
      requires Between(s) && s < |chans| && chans[s].RecvOk()
      ensures Valid()
    {
      hide SendSide, TableOk, ClosedOk, FdsDistinct, ActiveInUse, Channel.RecvOk, Story;
    }

    method FlushOn(s: nat) returns (ret: int)
      requires SendSide() && s < MAX_CLIENTS && chans[s].inUse
      modifies chans[s].link`sent, chans[s].link`broken, chans[s].link`stalls
      modifies chans[s].link`failures, chans[s].link`pollOut, chans[s].sbuf
      ensures SendSide()
      ensures chans[s].link.failures == old(chans[s].link.failures) + if ret == -1 then 1 else 0
      ensures ret == 0 || ret == 1 || ret == -1
      ensures Flushed(s, ret) && AllBytes(s) == old(AllBytes(s)) && chans[s].sbuf.Valid()
      ensures ret == -1 ==> chans[s].link.broken && chans[s].sbuf.Queue() != []
    {
      hide Apart, Fated, Undropped, Frames, Msgs, Conveyed, NoneDead;
      Members(s);
      assert chans[s].SendOk();
      ret := chans[s].FlushOut();
      forall i | 0 <= i < |chans| && i != s
        ensures chans[i].SendOk()
      {
        Disjoint(i, s);
        assert old(chans[i].SendOk());
      }
    }

    /** The accept loop takes one connection whose descriptor the kernel has just opened. */
    method Accept(fd: int) returns (slot: int)
      requires Valid()
      requires forall i :: 0 <= i < |chans| ==> !(chans[i].inUse && chans[i].fd == fd)
      modifies this`step, this`events, slots, chans, links, sendBufs, recvBufs
      ensures Valid()
      ensures slot == -1 || 0 <= slot < MAX_CLIENTS
      ensures slot == FirstFree(old(Fds()), 0)
      ensures events == old(events) + if slot == -1 then [] else [Filled(slot)]
      ensures slot == -1 ==> CurrentView() == old(CurrentView())
      ensures slot != -1 ==>
                CurrentView() == old(CurrentView()).(fds := old(Fds())[slot := Some(fd)], step := old(step) + 1)
      ensures slot != -1 ==>
                && !old(chans[slot].inUse) && chans[slot].inUse && chans[slot].fd == fd
                && chans[slot].requests == [] && chans[slot].handed == [] && chans[slot].link.sent == []
    {
      hide Valid, Apart, Fds, Rests, Reads, Endings, Channel.Rest, FirstFree;
      Sizes();
      slot := FindFree();
      FreeIs(slot);
      if slot != -1 {
        Members(slot);
        Occupy(slot, fd);
      } else {
        assert events + [] == events;
      }
    }

    /** A free slot is given the connection. */
    method Occupy(s: nat, fd: int)
      requires Valid() && s < MAX_CLIENTS && !chans[s].inUse
      requires forall i :: 0 <= i < |chans| ==> !(chans[i].inUse && chans[i].fd == fd)
      modifies this`step, this`events, slots, chans[s], chans[s].link, chans[s].sbuf, chans[s].rbuf
      ensures Valid()
      ensures events == old(events) + [Filled(s)] && step == old(step) + 1
      ensures Fds() == old(Fds())[s := Some(fd)] && Rests() == old(Rests()) && Reads() == old(Reads())
      ensures slots[..] == old(slots[..])[s := FREE]
      ensures chans[s].inUse && chans[s].fd == fd
      ensures chans[s].requests == [] && chans[s].handed == [] && chans[s].link.sent == []
    {
      hide Valid, Between, Apart, ActiveInUse, TableOk, SendSide, RecvSide, FdsDistinct, ClosedOk, Story;
      hide Fds, Rests, Reads, Channel.Rest, Channel.RecvOk, Chronicled, OverWith, Lived, LivesOn, Apply;
      SlotRecv(s);
      BetweenMeans(s);
      Members(s);
      StoryMeans();
      LivedMeans(Chronicled(events, false));
      ghost var before, over, c := events, closed, State();
      Refill(s, fd);
      step, events := step + 1, events + [Filled(s)];
      FilledIs(c, s);
      FilledLives(Chronicled(before, false), s);
      StoryGoesOn(before, over, Filled(s), []);
      GoneOrNot(s);
    }

    method Refill(s: nat, fd: int)
      requires Between(s) && s < MAX_CLIENTS && !chans[s].inUse
      requires forall i :: 0 <= i < |chans| ==> !(chans[i].inUse && chans[i].fd == fd)
      modifies slots, chans[s], chans[s].link, chans[s].sbuf, chans[s].rbuf
      ensures Apart() && SendSide() && RecvSide(-1) && FdsDistinct() && ActiveInUse()
      ensures TableOk(slots[..]) && ClosedOk()
      ensures Fds() == old(Fds())[s := Some(fd)] && Rests() == old(Rests()) && Reads() == old(Reads())
      ensures slots[..] == old(slots[..])[s := FREE]
      ensures chans[s].inUse && chans[s].fd == fd
      ensures chans[s].requests == [] && chans[s].handed == [] && chans[s].link.sent == []
      ensures forall i :: 0 <= i < |chans| && i != s ==>
                            && chans[i].inUse == old(chans[i].inUse)
                            && chans[i].requests == old(chans[i].requests) && chans[i].handed == old(chans[i].handed)
    {
      hide Between, Apart, ActiveInUse, TableOk, SendSide, RecvSide, FdsDistinct, ClosedOk, Story;
      hide Fds, Rests, Reads, Channel.Rest;
      BetweenMeans(s);
      OpenOn(s, fd);
      FreeSlot(s);
    }

    lemma FilledLives(x: Chronicle, s: nat)
      requires |chans| == |x.lives| && s < |chans| && chans[s].requests == [] && chans[s].handed == []
      requires forall i :: 0 <= i < |chans| && i != s && chans[i].inUse ==>
                             chans[i].requests == x.lives[i].requests && chans[i].handed == x.lives[i].handed
      ensures LivesOn(x, Filled(s), [])
    {
      forall i | 0 <= i < |chans| && i != s
        ensures LifeAfter(x.lives[i], Filled(s), [], step, i) == x.lives[i]
      {
        LifeQuiet(x.lives[i], Filled(s), step, i);
      }
    }

    lemma FreeIs(slot: int)
      requires |chans| == MAX_CLIENTS && -1 <= slot < MAX_CLIENTS
      requires slot == -1 ==> forall i :: 0 <= i < MAX_CLIENTS ==> chans[i].inUse
      requires slot != -1 ==> !chans[slot].inUse && forall i :: 0 <= i < slot ==> chans[i].inUse
      ensures FirstFree(Fds(), 0) == slot
    {
      hide FirstFree;
      FirstFreeIs(Fds(), slot);
    }

    method OpenOn(s: nat, fd: int)
      requires Apart() && SendSide() && RecvSide(s) && FdsDistinct() && ActiveInUse()
      requires s < MAX_CLIENTS && !chans[s].inUse
      requires forall i :: 0 <= i < |chans| ==> !(chans[i].inUse && chans[i].fd == fd)
      modifies chans[s], chans[s].link, chans[s].sbuf, chans[s].rbuf
      ensures SendSide() && RecvSide(-1) && FdsDistinct() && ActiveInUse()
      ensures !slots[s].active
      ensures Fds() == old(Fds())[s := Some(fd)] && Rests() == old(Rests()) && Reads() == old(Reads())
      ensures chans[s].inUse && chans[s].fd == fd
      ensures chans[s].requests == [] && chans[s].handed == [] && chans[s].link.sent == []
      ensures forall i :: 0 <= i < |chans| && i != s ==>
                            && chans[i].inUse == old(chans[i].inUse)
                            && chans[i].requests == old(chans[i].requests) && chans[i].handed == old(chans[i].handed)
    {
      hide Apart, Channel.SendOk, Channel.RecvOk;
      Members(s);
      RestOut(s);
      chans[s].Open(fd);
      assert chans[s].rbuf[..0] == [];
      forall i | 0 <= i < |chans| && i != s
        ensures chans[i].SendOk() && chans[i].RecvOk()
        ensures chans[i].inUse == old(chans[i].inUse) && chans[i].fd == old(chans[i].fd)
        ensures chans[i].Rest() == old(chans[i].Rest()) && chans[i].received == old(chans[i].received)
        ensures chans[i].requests == old(chans[i].requests) && chans[i].handed == old(chans[i].handed)
      {
        Disjoint(i, s);
        assert old(chans[i].SendOk()) && old(chans[i].RecvOk());
      }
    }

    method FreeSlot(s: nat)
      requires slots.Length == |chans| == MAX_CLIENTS && s < MAX_CLIENTS
      requires ActiveInUse() && TableOk(slots[..])
      modifies slots
      ensures ActiveInUse() && TableOk(slots[..])
      ensures slots[..] == old(slots[..])[s := FREE]
    {
      hide TableOk;
      SlotOnlyKeeps(slots[..], s, FREE);
      slots[s] := FREE;
      assert slots[..] == old(slots[..])[s := FREE];
    }

    lemma GoneOrNot(s: nat)
      requires Apart() && ActiveInUse() && TableOk(slots[..]) && SendSide() && RecvSide(-1)
      requires FdsDistinct() && ClosedOk() && Story()
      ensures Valid()
    {
    }

    /** EPOLLERR or EPOLLHUP: the slot, if it is still known, is dropped. */
    method HangUp(fd: int) returns (ghost s: int)
      requires Valid()
      modifies this`outs, this`closed, this`step, this`events, this`base
      modifies slots, chans, links, sendBufs, queues, recvBufs
      ensures Valid() && old(ViewOk(CurrentView()))
      ensures s == Holder(old(Fds()), fd, 0)
      ensures var r := if s == -1 then Reaction(old(CurrentView()), []) else Dropping(old(CurrentView()), s, world);
              CurrentView() == r.view && events == old(events) + r.news
    {
      hide Valid, Apart, CurrentView, Dropping, Holder;
      Sizes();
      OneHolder();
      var slot := FindByFd(fd);
      s := slot;
      if slot != -1 {
        Members(slot);
        DropOwn(slot);
      } else {
        assert events + [] == events;
      }
    }

    method DropOwn(s: nat)
      requires Valid() && s < MAX_CLIENTS && chans[s].inUse
      modifies this`outs, this`closed, this`step, this`events, this`base
      modifies slots, chans`handed, chans`fates, links, sendBufs, queues
      modifies {chans[s]}`fd, {chans[s]}`inUse, {chans[s]}`rbufLen, chans[s].rbuf
      ensures Valid() && old(ViewOk(CurrentView()))
      ensures var r := Dropping(old(CurrentView()), s, world);
              CurrentView() == r.view && events == old(events) + r.news
    {
      hide Valid, Apart, Fds, Rests, Reads, Endings, Channel.Rest, OneMore, Still;
      Sizes();
      DropAlone(s);
      RestOut(s);
      EndingsGrow(old(chans[s].received));
      ViewMoves(s);
    }

    /** The loss of slot `s` leaves every other connection alone. */
    method DropAlone(s: nat)
      requires Valid() && s < MAX_CLIENTS && chans[s].inUse
      modifies this`outs, this`closed, this`step, this`events, this`base
      modifies slots, chans`handed, chans`fates, links, sendBufs, queues
      modifies {chans[s]}`fd, {chans[s]}`inUse, {chans[s]}`rbufLen, chans[s].rbuf
      ensures Valid() && |chans| == MAX_CLIENTS
      ensures events == old(events) + [Gone(s, world(old(step)).now)]
      ensures OneMore(old(closed), closed, old(chans[s].received))
      ensures step == old(step) + 1
      ensures !chans[s].inUse && Still(s)
    {
      hide Valid, Between, UpToLogout, Decode, Channel.RecvOk, Apart;
      Sizes();
      Members(s);
      SlotRecv(s);
      ghost var w := ReadStart(s);
      StillAllowed(chans[s].received, chans[s].requests, w, chans[s].received);
      Drop(s);
      forall i | 0 <= i < |chans| && i != s
        ensures chans[i].inUse == old(chans[i].inUse) && chans[i].fd == old(chans[i].fd)
        ensures chans[i].Rest() == old(chans[i].Rest()) && chans[i].received == old(chans[i].received)
      {
        Disjoint(i, s);
        Members(i);
      }
    }

    /** The listening socket is ready. A descriptor offered by accept is never one in use. */
    method Listen(ev: IoEvent)
      requires Valid() && ev.Connect?
      modifies this`step, this`events, slots, chans, links, sendBufs, recvBufs
      ensures Valid() && old(ViewOk(CurrentView()))
      ensures var r := React(old(CurrentView()), ev, false, world);
              CurrentView() == r.view && events == old(events) + r.news
    {
      hide Valid, Apart, CurrentView, Fds, React, Holder, FirstFree, OneEach;
      Sizes();
      ViewApart();
      ViewParts();
      ReactConnect(CurrentView(), ev, world);
      var slot := FindByFd(ev.fd);
      if slot == -1 {
        var free := Accept(ev.fd);
      } else {
        assert events + [] == events;
      }
    }

    lemma ViewParts()
      ensures CurrentView().fds == Fds() && CurrentView().step == step && CurrentView().read == Reads()
    {
    }

    lemma ViewApart()
      requires Valid()
      ensures ViewOk(CurrentView()) && OneEach(CurrentView().fds)
    {
      hide Valid, CurrentView;
      OneHolder();
      ViewParts();
    }

    lemma OneHolder()
      requires Valid()
      ensures ViewOk(CurrentView()) && OneEach(Fds())
    {
      hide Apart, TableOk, SendSide, RecvSide, ClosedOk, ActiveInUse, Story;
      Sizes();
    }

    /** EPOLLOUT: the connection is lost if and only if a write fails. */
    method OnWritable(fd: int) returns (ghost s: int, ghost fails: bool)
      requires Valid()
      modifies this`outs, this`closed, this`step, this`events, this`base, this`flushFailures
      modifies slots, chans, links, sendBufs, queues, recvBufs
      ensures Valid() && |chans| == MAX_CLIENTS && old(ViewOk(CurrentView()))
      ensures s == Holder(old(Fds()), fd, 0)
      ensures fails ==> s != -1
      ensures s != -1 ==> chans[s].link.failures == old(chans[s].link.failures) + if fails then 1 else 0
      ensures flushFailures == old(flushFailures) + if fails then 1 else 0
      ensures var r := if fails then Dropping(old(CurrentView()), s, world) else Reaction(old(CurrentView()), []);
              CurrentView() == r.view && events == old(events) + r.news
    {
      hide Valid, Apart, CurrentView, Flushed, Holder, Dropping;
      Sizes();
      OneHolder();
      ghost var ret;
      s, ret := HandleWrite(fd);
      fails := ret == -1;
    }

    /** EPOLLIN, then EPOLLOUT, for one descriptor. */
    method OnReady(ev: IoEvent) returns (ghost fails: bool)
      requires Valid() && ev.Ready?
      modifies this`outs, this`closed, this`step, this`events, this`base, this`logs, this`flushFailures
      modifies slots, chans, links, sendBufs, queues, recvBufs
      ensures Valid() && old(ViewOk(CurrentView()))
      ensures flushFailures == old(flushFailures) + if fails then 1 else 0
      ensures var r := React(old(CurrentView()), ev, fails, world);
              CurrentView() == r.view && events == old(events) + r.news
    {
      hide Valid, Draining, Dropping, CurrentView, Holder, React, OneEach, Apart;
      ViewApart();
      ghost var v, log := CurrentView(), events;
      ghost var r, x;
      r := ReadIf(ev);
      fails, x := WriteIf(ev);
      ReactReady(v, ev, fails, world, r, x);
      assert (log + r.news) + x.news == log + (r.news + x.news);
    }

    method ReadIf(ev: IoEvent) returns (ghost r: Reaction)
      requires Valid() && ev.Ready?
      modifies this`outs, this`closed, this`step, this`events, this`base, this`logs
      modifies slots, chans, links, sendBufs, queues, recvBufs
      ensures Valid() && old(ViewOk(CurrentView()))
      ensures var s := Holder(old(CurrentView()).fds, ev.fd, 0);
              r == if ev.readable && s != -1 then Draining(old(CurrentView()), s, ev.incoming, ev.ending, world)
                   else Reaction(old(CurrentView()), [])
      ensures CurrentView() == r.view && events == old(events) + r.news
    {
      hide Valid, Draining, CurrentView, Holder;
      OneHolder();
      ViewParts();
      r := Reaction(CurrentView(), []);
      assert events + [] == events;
      if ev.readable {
        ghost var s := HandleRead(ev.fd, ev.incoming, ev.ending);
        r := if s == -1 then r else Draining(r.view, s, ev.incoming, ev.ending, world);
      }
    }

    method WriteIf(ev: IoEvent) returns (ghost fails: bool, ghost x: Reaction)
      requires Valid() && ev.Ready?
      modifies this`outs, this`closed, this`step, this`events, this`base, this`flushFailures
      modifies slots, chans, links, sendBufs, queues, recvBufs
      ensures Valid() && old(ViewOk(CurrentView()))
      ensures flushFailures == old(flushFailures) + if fails then 1 else 0
      ensures fails ==> ev.writable && Holder(old(CurrentView()).fds, ev.fd, 0) != -1
      ensures x == if fails then Dropping(old(CurrentView()), Holder(old(CurrentView()).fds, ev.fd, 0), world)
                   else Reaction(old(CurrentView()), [])
      ensures CurrentView() == x.view && events == old(events) + x.news
    {
      hide Valid, Dropping, CurrentView, Holder;
      OneHolder();
      ViewParts();
      fails, x := false, Reaction(CurrentView(), []);
      assert events + [] == events;
      if ev.writable {
        ghost var s;
        s, fails := OnWritable(ev.fd);
        x := if fails then Dropping(x.view, s, world) else x;
      }
    }

    /** One event of the loop in `main`: the connections move as `React` says, whose events are
        what the service goes through; `fails` says whether `handle_write` met a failed write. */
    method Dispatch(ev: IoEvent) returns (ghost fails: bool)
      requires Valid()
      modifies this`outs, this`closed, this`step, this`events, this`base, this`logs, this`flushFailures
      modifies slots, chans, links, sendBufs, queues, recvBufs
      ensures Valid() && old(ViewOk(CurrentView()))
      ensures flushFailures == old(flushFailures) + if fails then 1 else 0
      ensures var r := React(old(CurrentView()), ev, fails, world);
              CurrentView() == r.view && events == old(events) + r.news
    {
      hide Valid, React, CurrentView;
      OneHolder();
      fails := false;
      match ev {
        case Connect(_) =>
          Listen(ev);
        case Trouble(_) =>
          OnTrouble(ev);
        case Ready(_, _, _, _, _) =>
          fails := OnReady(ev);
      }
    }

    /** EPOLLERR or EPOLLHUP on a descriptor, which may no longer be known. */
    method OnTrouble(ev: IoEvent)
      requires Valid() && ev.Trouble?
      modifies this`outs, this`closed, this`step, this`events, this`base
      modifies slots, chans, links, sendBufs, queues, recvBufs
      ensures Valid() && old(ViewOk(CurrentView()))
      ensures var r := React(old(CurrentView()), ev, false, world);
              CurrentView() == r.view && events == old(events) + r.news
    {
      hide Valid, Fds, Rests, Reads, Endings, Holder, Draining, Reading, Dropping, Channel.Rest;
      OneHolder();
      ghost var s := HangUp(ev.fd);
    }

    /** A flush of slot `s` leaves every other connection alone. */
    method WriteOwn(s: nat) returns (ret: int)
      requires Valid() && s < MAX_CLIENTS && chans[s].inUse
      modifies this`outs, this`closed, this`step, this`events, this`base, this`flushFailures
      modifies slots, chans`handed, chans`fates, links, sendBufs, queues
      modifies {chans[s]}`fd, {chans[s]}`inUse, {chans[s]}`rbufLen, chans[s].rbuf
      ensures Valid() && |chans| == MAX_CLIENTS && old(ViewOk(CurrentView()))
      ensures ret == 0 || ret == 1 || ret == -1
      ensures chans[s].link.failures == old(chans[s].link.failures) + if ret == -1 then 1 else 0
      ensures flushFailures == old(flushFailures) + if ret == -1 then 1 else 0
      ensures ret != -1 ==> Flushed(s, ret)
      ensures ret == -1 ==> closed != [] && CutOff(closed[|closed| - 1], s, old(AllBytes(s)))
      ensures var r := if ret == -1 then Dropping(old(CurrentView()), s, world) else Reaction(old(CurrentView()), []);
              CurrentView() == r.view && events == old(events) + r.news
    {
      hide Valid, Fds, Rests, Reads, Endings, Flushed, CutOff, AllBytes;
      ret := WriteParts(s);
      assert events + [] == events;
    }

    /** The same, view by view. */
    method WriteParts(s: nat) returns (ret: int)
      requires Valid() && s < MAX_CLIENTS && chans[s].inUse
      modifies this`outs, this`closed, this`step, this`events, this`base, this`flushFailures
      modifies slots, chans`handed, chans`fates, links, sendBufs, queues
      modifies {chans[s]}`fd, {chans[s]}`inUse, {chans[s]}`rbufLen, chans[s].rbuf
      ensures Valid() && |chans| == MAX_CLIENTS
      ensures ret == 0 || ret == 1 || ret == -1
      ensures chans[s].link.failures == old(chans[s].link.failures) + if ret == -1 then 1 else 0
      ensures flushFailures == old(flushFailures) + if ret == -1 then 1 else 0
      ensures ret != -1 ==> Flushed(s, ret)
      ensures ret == -1 ==> closed != [] && CutOff(closed[|closed| - 1], s, old(AllBytes(s)))
      ensures step == old(step) + if ret == -1 then 1 else 0
      ensures events == if ret == -1 then old(events) + [Gone(s, world(old(step)).now)] else old(events)
      ensures Fds() == if ret == -1 then old(Fds())[s := None] else old(Fds())
      ensures Rests() == if ret == -1 then old(Rests())[s := []] else old(Rests())
      ensures Reads() == if ret == -1 then old(Reads())[s := []] else old(Reads())
      ensures Endings() == if ret == -1 then old(Endings()) + [old(Reads()[s])] else old(Endings())
    {
      hide Valid, Fds, Rests, Reads, Endings, Channel.Rest, Flushed, Apart, CutOff, OneMore, AllBytes, Still;
      Sizes();
      StepIs();
      ret := WriteAlone(s);
      StepIs();
      ViewMoves(s);
      if ret == -1 {
        RestOut(s);
        EndingsGrow(old(chans[s].received));
      }
    }

    /** The same, with what it leaves alone. */
    method WriteAlone(s: nat) returns (ret: int)
      requires Valid() && s < MAX_CLIENTS && chans[s].inUse
      modifies this`outs, this`closed, this`step, this`events, this`base, this`flushFailures
      modifies slots, chans`handed, chans`fates, links, sendBufs, queues
      modifies {chans[s]}`fd, {chans[s]}`inUse, {chans[s]}`rbufLen, chans[s].rbuf
      ensures Valid() && |chans| == MAX_CLIENTS
      ensures ret == 0 || ret == 1 || ret == -1
      ensures chans[s].link.failures == old(chans[s].link.failures) + if ret == -1 then 1 else 0
      ensures flushFailures == old(flushFailures) + if ret == -1 then 1 else 0
      ensures chans[s].inUse <==> ret != -1
      ensures chans[s].inUse ==> chans[s].fd == old(chans[s].fd) && chans[s].Rest() == old(chans[s].Rest())
      ensures ret != -1 ==> Flushed(s, ret) && events == old(events) && closed == old(closed)
      ensures ret == -1 ==> events == old(events) + [Gone(s, world(old(step)).now)]
      ensures ret == -1 ==> && closed != [] && OneMore(old(closed), closed, old(chans[s].received))
                            && CutOff(closed[|closed| - 1], s, old(AllBytes(s)))
      ensures Still(s)
    {
      hide Valid, Apart, Separate, SendBuf.Queue, Flushed, CutOff, AllBytes;
      Sizes();
      Members(s);
      ret := WriteSlot(s);
      forall i | 0 <= i < |chans| && i != s
        ensures chans[i].inUse == old(chans[i].inUse) && chans[i].fd == old(chans[i].fd)
        ensures chans[i].Rest() == old(chans[i].Rest()) && chans[i].received == old(chans[i].received)
      {
        Disjoint(i, s);
        Members(i);
      }
    }

    /** `handle_write`. */
    method HandleWrite(fd: int) returns (ghost s: int, ghost ret: int)
      requires Valid()
      modifies this`outs, this`closed, this`step, this`events, this`base, this`flushFailures
      modifies slots, chans, links, sendBufs, queues, recvBufs
      ensures Valid() && |chans| == MAX_CLIENTS && old(ViewOk(CurrentView()))
      ensures s == Holder(old(Fds()), fd, 0)
      ensures ret == 0 || ret == 1 || ret == -1
      ensures s == -1 ==> ret == 0
      ensures s != -1 ==> chans[s].link.failures == old(chans[s].link.failures) + if ret == -1 then 1 else 0
      ensures flushFailures == old(flushFailures) + if ret == -1 then 1 else 0
      ensures s != -1 && ret != -1 ==> Flushed(s, ret)
      ensures ret == -1 ==> closed != [] && CutOff(closed[|closed| - 1], s, old(AllBytes(s)))
      ensures var r := if ret == -1 then Dropping(old(CurrentView()), s, world) else Reaction(old(CurrentView()), []);
              CurrentView() == r.view && events == old(events) + r.news
    {
      hide Valid, Apart, CurrentView, Dropping, SendBuf.Queue, Holder, CutOff;
      Sizes();
      OneHolder();
      var slot := FindByFd(fd);
      s, ret := slot, 0;
      if slot == -1 {
        assert events == old(events) + [];
        return;
      }
      Members(slot);
      var r := WriteOwn(slot);
      ret := r;
    }

    /** The event loop: after any events every invariant holds, the connections are as the
        events and the failing writes make them, and the service has gone through exactly what
        the events are to it; history replies only extend. */
    method Run(evs: seq<IoEvent>) returns (ghost fails: seq<bool>)
      requires Valid()
      modifies this`outs, this`closed, this`step, this`events, this`base, this`logs, this`flushFailures
      modifies slots, chans, links, sendBufs, queues, recvBufs
      ensures Valid()
      ensures |fails| == |evs| && old(ViewOk(CurrentView()))
      ensures flushFailures == old(flushFailures) + Count(fails)
      ensures var r := Reacting(old(CurrentView()), evs, fails, world);
              && CurrentView() == r.view && events == old(events) + r.news
              && Within(r.news, |old(State()).slots|)
              && State() == ChatSpec.Run(old(State()), r.news, false).chat
      ensures forall name :: Extends(LogOf(old(logs), name), LogOf(logs, name))
    {
      hide Valid, Extends, ChatSpec.Run, Reacting, CurrentView;
      OneHolder();
      StoryIs();
      fails := RunEvents(evs);
      StoryIs();
      ghost var news := Reacting(old(CurrentView()), evs, fails, world).news;
      EventsCut(old(events), news);
      RunConcat(Blank(), old(events), news, false);
      Histories(old(events), old(logs));
    }

    method RunEvents(evs: seq<IoEvent>) returns (ghost fails: seq<bool>)
      requires Valid()
      modifies this`outs, this`closed, this`step, this`events, this`base, this`logs, this`flushFailures
      modifies slots, chans, links, sendBufs, queues, recvBufs
      ensures Valid()
      ensures |fails| == |evs| && old(ViewOk(CurrentView()))
      ensures flushFailures == old(flushFailures) + Count(fails)
      ensures var r := Reacting(old(CurrentView()), evs, fails, world);
              CurrentView() == r.view && events == old(events) + r.news
    {
      hide Valid, React, CurrentView, Reacting, Count;
      OneHolder();
      fails := [];
      NoEventsYet(CurrentView(), world);
      assert evs[..0] == [] && events == events + [];
      for i := 0 to |evs|
        invariant Valid() && |fails| == i && old(ViewOk(CurrentView()))
        invariant flushFailures == old(flushFailures) + Count(fails)
        invariant var r := Reacting(old(CurrentView()), evs[..i], fails, world);
                  CurrentView() == r.view && events == old(events) + r.news
      {
        ghost var fail := Dispatch(evs[i]);
        ReactingMore(old(CurrentView()), evs[..i], fails, evs[i], fail, world);
        CountMore(fails, fail);
        fails := fails + [fail];
        assert evs[..i + 1] == evs[..i] + [evs[i]];
      }
      assert evs[..|evs|] == evs;
    }

    /** The state is that of the run of the service through the events. */
    lemma StoryIs()
      requires Valid()
      ensures Within(events, MAX_CLIENTS) && step == |events|
      ensures State() == ChatSpec.Run(Blank(), events, false).chat
    {
      hide ChatSpec.Run, Apart, ActiveInUse, TableOk, SendSide, RecvSide, FdsDistinct, ClosedOk;
      ChronicleIsRun(events, false);
    }

    lemma Histories(earlier: seq<Event>, before: Logs)
      requires Within(events, MAX_CLIENTS) && State() == ChatSpec.Run(Blank(), events, false).chat
      requires earlier <= events
      requires Within(earlier, MAX_CLIENTS) && before == ChatSpec.Run(Blank(), earlier, false).chat.logs
      ensures forall name :: Extends(LogOf(before, name), LogOf(logs, name))
    {
      hide Extends, ChatSpec.Run;
      forall name
        ensures Extends(LogOf(before, name), LogOf(logs, name))
      {
        LaterHistory(earlier, before, name);
      }
    }

    /** Later logs come of the same run, further on. */
    lemma LaterHistory(earlier: seq<Event>, before: Logs, name: seq<Byte>)
      requires Within(events, MAX_CLIENTS) && State() == ChatSpec.Run(Blank(), events, false).chat
      requires earlier <= events
      requires Within(earlier, MAX_CLIENTS) && before == ChatSpec.Run(Blank(), earlier, false).chat.logs
      ensures Extends(LogOf(before, name), LogOf(logs, name))
    {
      hide ChatSpec.Run, Extends, TableOk, LogsGrown;
      var more := events[|earlier|..];
      assert events == earlier + more;
      StartOk();
      RunKeeps(Blank(), earlier, false);
      var c := ChatSpec.Run(Blank(), earlier, false).chat;
      RunConcat(Blank(), earlier, more, false);
      GrownIsOk(c.logs);
      HistoryMonotone(c, more, false, name);
    }

    // ---------- start ----------

    constructor (world: World)
      ensures Valid()
      ensures State() == Blank() && closed == [] && events == [] && flushFailures == 0
    {
      ghost var ls: set<Link>, ss: set<SendBuf>, qs: set<array<Byte>>, rs: set<array<Byte>>;
      var cs;
      cs, ls, ss, qs, rs := MakeChannels();
      slots := new Slot[MAX_CLIENTS](_ => FREE);
      chans := cs;
      logs := map[];
      this.world := world;
      links, sendBufs, queues, recvBufs := ls, ss, qs, rs;
      step, outs, base, closed, events, flushFailures := 0, [], [], [], [], 0;
      new;
      hide Channel.SendOk, Channel.RecvOk, TableOk, Separate, Valid, Between;
      assert slots[..] == seq(MAX_CLIENTS, _ => FREE);
      FreshIsValid();
    }

    lemma FreshIsValid()
      requires Apart() && slots[..] == seq(MAX_CLIENTS, _ => FREE) && logs == map[]
      requires step == 0 && closed == [] && events == []
      requires forall i :: 0 <= i < |chans| ==> !chans[i].inUse && chans[i].SendOk() && chans[i].RecvOk()
      ensures Valid()
    {
      hide Channel.SendOk, Channel.RecvOk, TableOk, Separate, Apart;
      StartOk();
      Members(0);
      assert ActiveInUse() by {
        assert forall i :: 0 <= i < MAX_CLIENTS ==> slots[i] == slots[..][i];
      }
    }

    // ---------- what the invariant means ----------

    lemma LifeOf(s: nat)
      requires Valid() && s < MAX_CLIENTS
      ensures |chans| == MAX_CLIENTS && Within(events, MAX_CLIENTS)
      ensures chans[s].inUse ==> Life(chans[s].requests, chans[s].handed) == Chronicled(events, false).lives[s]
    {
      hide TableOk, SendSide, RecvSide, ActiveInUse, FdsDistinct, ClosedOk, Apart, Chronicled;
      Sizes();
    }

    lemma SlotSendOk(s: nat)
      requires Valid() && s < MAX_CLIENTS
      ensures |chans| == MAX_CLIENTS && chans[s].SendOk()
    {
      hide TableOk, RecvSide, ActiveInUse, FdsDistinct, ClosedOk, Apart, Story, Channel.SendOk;
      Sizes();
    }

    lemma LifeWas(k: nat)
      requires Valid() && k < |closed|
      ensures Within(events, MAX_CLIENTS) && k < |Chronicled(events, false).over|
      ensures Chronicled(events, false).over[k] == Finished(closed[k].slot, Life(closed[k].requests, closed[k].handed))
      ensures SessionOk(closed[k])
    {
      hide TableOk, SendSide, RecvSide, ActiveInUse, FdsDistinct, Apart, Chronicled, SessionOk;
    }

    /** Output integrity: the messages handed to a live connection are exactly what the run of
        the service has put out for its slot since the session began; each of them has met its
        fate by the rule; the bytes taken by the kernel, followed by those queued, are the frames
        of those that were not dropped, and what the peer can decode is a prefix of them. Where a
        write has failed with nothing queued, all frames but the last are out. */
    lemma OutputIntegrity(s: nat)
      requires Valid() && s < MAX_CLIENTS
      ensures |chans| == MAX_CLIENTS && chans[s].sbuf.Valid() && Within(events, MAX_CLIENTS)
      ensures var c := chans[s];
              var ms := Msgs(c.Accepted());
              c.inUse ==>
                && OfRun(events, s, c.requests, c.handed, false)
                && c.Accepted() == Undropped(c.handed, c.fates)
                && Fated(c.handed, c.fates, c.link.broken)
                && (if c.link.broken && c.sbuf.Queue() == [] then
                      ms != [] && Frames(ms[..|ms| - 1]) <= c.link.sent && c.link.sent < Frames(ms)
                    else
                      c.link.sent + c.sbuf.Queue() == Frames(ms))
                && Decode(c.link.sent).msgs <= Normals(ms)
                && (c.link.pollOut <==> c.sbuf.Queue() != [])
    {
      hide Frames, Msgs, Decode, Normals, Fated, Undropped, OfRun, Channel.SendOk, Valid, Chronicled;
      LifeOf(s);
      SlotSendOk(s);
      var c := chans[s];
      c.SendMeans();
      if c.inUse {
        OfRunIs(events, s, c.requests, c.handed, false);
        ConveyedPrefix(c.link.sent, c.sbuf.Queue(), c.link.broken, Msgs(c.Accepted()));
        DecodeTruncated(Msgs(c.Accepted()), c.link.sent);
      }
    }

    /** An ended session acted on exactly the requests, and was handed exactly the messages, that
        the run gave its slot between its beginning and its end, which was event number `n`. The
        requests are a prefix of what the bytes received spell out, up to the first LOGOUT; the
        messages have met their fates by the rule, and the bytes sent and still queued are the
        frames of those that were not dropped. */
    lemma EndedSession(k: nat) returns (n: nat)
      requires Valid() && k < |closed|
      ensures n < |events| && events[n].Gone? && events[n].s == closed[k].slot && Within(events[..n], MAX_CLIENTS)
      ensures var x := closed[k];
              && OfRun(events[..n], x.slot, x.requests, x.handed, false)
              && x.requests <= UpToLogout(Decode(x.received).msgs)
              && Fated(x.handed, x.fates, x.broken)
              && Conveyed(x.sent, x.queue, x.broken, Msgs(Undropped(x.handed, x.fates)))
              && Decode(x.sent).msgs <= Normals(Msgs(Undropped(x.handed, x.fates)))
    {
      hide Valid, Frames, Msgs, Decode, Normals, Fated, Undropped, UpToLogout, Conveyed, OfRun, Chronicled;
      var x := closed[k];
      LifeWas(k);
      n := FinishedWas(events, k, false);
      OfRunIs(events[..n], x.slot, x.requests, x.handed, false);
      ConveyedPrefix(x.sent, x.queue, x.broken, Msgs(Undropped(x.handed, x.fates)));
      DecodeTruncated(Msgs(Undropped(x.handed, x.fates)), x.sent);
    }

    /** Reply pairing: the answers among the messages handed to a live session are one for each
        request acted on, in order; an ended session had them all but that of its LOGOUT. */
    lemma ReplyPairing(s: nat, k: nat)
      requires Valid() && s < MAX_CLIENTS
      ensures |chans| == MAX_CLIENTS
      ensures chans[s].inUse ==> Paired(chans[s].requests, chans[s].handed)
      ensures k < |closed| ==> Paired(Answered(closed[k].requests), closed[k].handed)
    {
      hide TableOk, SendSide, ActiveInUse, FdsDistinct, ClosedOk, Apart, Chronicled, Paired, Answered, Decode;
      Sizes();
      LifeOf(s);
      LivesPaired(events, false);
      if chans[s].inUse {
        assert chans[s].RecvOk();
        AllAnswered(chans[s].requests);
      }
      if k < |closed| {
        LifeWas(k);
      }
    }

    /** Chunking independence: what a live session has acted on, and what its buffer holds, is
        a function of the bytes received, however they were cut up. */
    lemma InputAccounted(s: nat)
      requires Valid() && s < MAX_CLIENTS
      ensures |chans| == MAX_CLIENTS && chans[s].rbuf.Length == RBUF_SIZE
      ensures chans[s].inUse ==>
                && 0 <= chans[s].rbufLen < HEADER_SIZE + MAX_PAYLOAD_LEN
                && CurrentView().read[s] == chans[s].received
                && CurrentView().rests[s] == chans[s].rbuf[..chans[s].rbufLen]
                && Decode(chans[s].received) == Parse(chans[s].requests, chans[s].rbuf[..chans[s].rbufLen], false)
                && UpToLogout(Decode(chans[s].received).msgs) == chans[s].requests
    {
      hide TableOk, SendSide, ActiveInUse, FdsDistinct, ClosedOk, Apart, Decode, UpToLogout, Story;
      Sizes();
      Members(s);
      assert chans[s].RecvOk();
      if chans[s].inUse {
        WholeIsAllowed([], chans[s].requests);
        assert [] + chans[s].requests == chans[s].requests;
      }
    }

    /** The messages given to a session, live or ended, that were not dropped. */
    ghost function TakenBy(x: Who): seq<Tagged>
      requires Known(x)
      reads this`closed, chans`inUse, chans`handed, chans`fates
    {
      if x.Live? then chans[x.slot].Accepted() else Undropped(closed[x.k].handed, closed[x.k].fates)
    }

    ghost predicate Known(x: Who)
      reads this`closed, chans`inUse
    {
      if x.Live? then x.slot < |chans| && chans[x.slot].inUse else x.k < |closed|
    }

    ghost function SlotOf(x: Who): nat
      requires Known(x)
      reads this`closed, chans`inUse
    {
      if x.Live? then x.slot else closed[x.k].slot
    }

    /** What a session has accepted are outputs of the run for its slot, each of the event its
        tag numbers, in the order of these events. */
    lemma TakenAreOutputs(x: Who)
      requires Valid() && Known(x)
      ensures Within(events, MAX_CLIENTS)
      ensures InOrder(TakenBy(x), |events|)
      ensures forall t :: t in TakenBy(x) ==> PutOut(events, SlotOf(x), t, false)
    {
      hide Valid, InOrder, Undropped, Chronicled, PutOut;
      Sizes();
      LifeOf(if x.Live? then x.slot else 0);
      TagIsEvent(events, false);
      LivesInOrder(events, false);
      if x.Live? {
        UndroppedInOrder(chans[x.slot].handed, chans[x.slot].fates, |events|);
      } else {
        LifeWas(x.k);
        UndroppedInOrder(closed[x.k].handed, closed[x.k].fates, |events|);
      }
    }

    /** Two events of the run have each put out something that both of two sessions, live or
        ended, have accepted: both have it in the order of the two events, whatever a full queue
        made either of them miss. */
    lemma OneOrder(x: Who, y: Who, i: nat, j: nat, k: nat, l: nat)
      requires Valid() && Known(x) && Known(y)
      requires i < |TakenBy(x)| && j < |TakenBy(x)| && k < |TakenBy(y)| && l < |TakenBy(y)|
      requires TakenBy(x)[i].step == TakenBy(y)[k].step
      requires TakenBy(x)[j].step == TakenBy(y)[l].step
      requires TakenBy(x)[i].step != TakenBy(x)[j].step
      ensures Within(events, MAX_CLIENTS)
      ensures PutOut(events, SlotOf(x), TakenBy(x)[i], false) && PutOut(events, SlotOf(y), TakenBy(y)[k], false)
      ensures PutOut(events, SlotOf(x), TakenBy(x)[j], false) && PutOut(events, SlotOf(y), TakenBy(y)[l], false)
      ensures i < j <==> TakenBy(x)[i].step < TakenBy(x)[j].step
      ensures k < l <==> TakenBy(x)[i].step < TakenBy(x)[j].step
    {
      hide Valid, TakenBy, PutOut;
      TakenAreOutputs(x);
      TakenAreOutputs(y);
      SameOrder(TakenBy(x), TakenBy(y), |events|, i, j, k, l);
    }
  }

  /** The table as `memset` leaves it: ten channels with nothing in common. */
  method MakeChannels() returns (cs: seq<Channel>, ghost ls: set<Link>, ghost ss: set<SendBuf>,
                                 ghost qs: set<array<Byte>>, ghost rs: set<array<Byte>>)
    ensures |cs| == MAX_CLIENTS && Separate(cs) && qs !! rs
    ensures fresh(cs) && fresh(ls) && fresh(ss) && fresh(qs) && fresh(rs)
    ensures forall i :: 0 <= i < |cs| ==>
                          && cs[i].link in ls && cs[i].sbuf in ss && cs[i].sbuf.buf in qs && cs[i].rbuf in rs
                          && cs[i].rbuf.Length == RBUF_SIZE
                          && !cs[i].inUse && cs[i].SendOk() && cs[i].RecvOk()
  {
    cs, ls, ss, qs, rs := [], {}, {}, {}, {};
    while |cs| < MAX_CLIENTS
      invariant |cs| <= MAX_CLIENTS && Separate(cs) && qs !! rs
      invariant fresh(cs) && fresh(ls) && fresh(ss) && fresh(qs) && fresh(rs)
      invariant forall i :: 0 <= i < |cs| ==>
                              && cs[i].link in ls && cs[i].sbuf in ss && cs[i].sbuf.buf in qs && cs[i].rbuf in rs
                              && cs[i].rbuf.Length == RBUF_SIZE
                              && !cs[i].inUse && cs[i].SendOk() && cs[i].RecvOk()
      decreases MAX_CLIENTS - |cs|
    {
      hide Channel.SendOk, Channel.RecvOk;
      var c := new Channel();
      cs := cs + [c];
      ls, ss, qs, rs := ls + {c.link}, ss + {c.sbuf}, qs + {c.sbuf.buf}, rs + {c.rbuf};
    }
  }
}
