/** The forking server: the parent's router and the relays of the children, joined by pipes.
    A pipe is a FIFO of bytes; a write of one frame is shorter than PIPE_BUF and so atomic. */
module ForkServer {
  import opened Bytes
  import opened Codec
  import opened Framing
  import opened History
  import opened Scanf
  import opened ChatSpec
  import opened Delivery
  import opened Chronicles

  class Server {
    const clients: array<Slot>
    /** The child of each slot, 0 when there is none, and whether it has exited. */
    const pid: array<nat>
    const gone: array<bool>
    /** The contents of the `from_child` and `to_child` pipes. */
    const up: array<seq<Byte>>
    const down: array<seq<Byte>>
    /** The sockets the children write to. */
    const socks: array<Sink>
    var logs: Logs

    /** What is inside the pipes, and all that the current session of a slot was handed. */
    ghost var asked: seq<seq<Message>>
    ghost var pending: seq<seq<Tagged>>
    ghost var delivered: seq<seq<Tagged>>
    ghost var handed: seq<seq<Tagged>>
    /** The event under way: its number, its outputs, and `handed` before it. */
    ghost var step: nat
    ghost var outs: seq<Out>
    ghost var base: seq<seq<Tagged>>
    /** All that has happened to the service. */
    ghost var events: seq<Event>

    ghost predicate Sizes()
      reads this`asked, this`pending, this`delivered, this`handed
    {
      && clients.Length == pid.Length == gone.Length == MAX_CLIENTS
      && up.Length == down.Length == socks.Length == MAX_CLIENTS
      && up != down
      && |asked| == |pending| == |delivered| == |handed| == MAX_CLIENTS
    }

    /** Every pipe holds whole frames, and what it holds is what is still owed. */
    ghost predicate PipesOk()
      reads this`asked, this`pending, this`delivered, this`handed, up, down
      requires Sizes()
    {
      forall i :: 0 <= i < MAX_CLIENTS ==>
                    Pipes(up[i], asked[i], down[i], pending[i], delivered[i], handed[i])
    }

    /** Every client's socket has taken the frames of what was taken out of its pipe, or, once
        it has failed, the beginning of them. */
    ghost predicate SocksOk()
      reads this`delivered, socks, socks[..]
    {
      && |delivered| == socks.Length == MAX_CLIENTS
      && (forall i, j :: 0 <= i < j < MAX_CLIENTS ==> socks[i] != socks[j])
      && (forall i :: 0 <= i < MAX_CLIENTS ==> Written(socks[i].sent, socks[i].broken, delivered[i]))
    }

    /** The chronicle of the events so far is the state: table and logs are those of the run of
        the service, and every slot has been handed what the run has put out for it. */
    ghost predicate Traced()
      reads this`events, this`step, this`handed, this`logs, clients
    {
      && Within(events, MAX_CLIENTS)
      && step == |events|
      && State() == Chronicled(events, true).chat
      && HandedIn(handed, Chronicled(events, true))
    }

    ghost predicate Valid()
      reads this`asked, this`pending, this`delivered, this`handed, this`step, this`events, this`logs
      reads clients, up, down, socks, socks[..]
    {
      Sizes() && PipesOk() && TableOk(clients[..]) && SocksOk() && Traced()
    }

    /** Holds throughout the routing of a request. */
    ghost predicate Routing()
      reads this`asked, this`pending, this`delivered, this`handed, this`step, this`outs, this`base, up, down
    {
      && Sizes() && PipesOk()
      && |base| == MAX_CLIENTS
      && Handing(base, outs, handed, step)
    }

    ghost function State(): Chat
      reads this`logs, clients
    {
      Chat(clients[..], logs)
    }

    constructor ()
      ensures Valid() && State() == Blank() && events == []
      ensures fresh(clients) && fresh(pid) && fresh(gone) && fresh(up) && fresh(down)
      ensures fresh(socks) && fresh(socks[..])
    {
      hide ChatSpec.Run;
      clients := new Slot[MAX_CLIENTS](_ => FREE);
      pid := new nat[MAX_CLIENTS](_ => 0);
      gone := new bool[MAX_CLIENTS](_ => false);
      var u := new seq<Byte>[MAX_CLIENTS](_ => []);
      var d := new seq<Byte>[MAX_CLIENTS](_ => []);
      up := u;
      down := d;
      var s := MakeSinks();
      socks := s;
      logs := map[];
      asked := seq(MAX_CLIENTS, _ => []);
      pending := seq(MAX_CLIENTS, _ => []);
      delivered := seq(MAX_CLIENTS, _ => []);
      handed := seq(MAX_CLIENTS, _ => []);
      step, outs, base, events := 0, [], [], [];
      new;
      hide Pipes, Written, TableOk;
      PipesFresh();
      assert clients[..] == Blank().slots;
      StartOk();
    }

    /** `pipe_send`. */
    method PipeSend(s: nat, m: Message)
      requires Routing() && s < MAX_CLIENTS
      modifies this`outs, this`pending, this`handed, down
      ensures Routing()
      ensures outs == old(outs) + [Out(s, m)]
    {
      hide Pack, Frames, Handing, Msgs;
      var wire := new Byte[HEADER_SIZE + MAX_PAYLOAD_LEN];
      var len := PackMessage(m, wire);
      down[s] := down[s] + wire[..len];
      MsgsAppend(pending[s], Tagged(step, m));
      HandingOne(base, outs, handed, step, Out(s, m));
      assert delivered[s] + (pending[s] + [Tagged(step, m)]) == handed[s] + [Tagged(step, m)];
      pending := pending[s := pending[s] + [Tagged(step, m)]];
      handed := handed[s := handed[s] + [Tagged(step, m)]];
      outs := outs + [Out(s, m)];
    }

    method SendOthers(skip: nat, m: Message)
      requires Routing()
      modifies this`outs, this`pending, this`handed, down
      ensures Routing()
      ensures outs == old(outs) + ToOthers(clients[..], skip, m, MAX_CLIENTS)
    {
      hide PipesOk, Handing;
      for i := 0 to MAX_CLIENTS
        invariant Routing()
        invariant outs == old(outs) + ToOthers(clients[..], skip, m, i)
      {
        if i != skip && clients[i].active {
          PipeSend(i, m);
        }
      }
    }

    method SaveHistory(from: seq<Byte>, to: seq<Byte>, text: seq<Byte>, stamp: seq<Byte>)
      modifies this`logs
      ensures logs == Saved(old(logs), from, to, text, stamp)
    {
      logs := Saved(logs, from, to, text, stamp);
    }

    method RouteLogin(from: nat, msg: Message, env: Env)
      requires Routing() && from < MAX_CLIENTS
      modifies this`outs, this`pending, this`handed, clients, down
      ensures Routing()
      ensures State() == Login(old(State()), from, msg, env, true).chat
      ensures outs == old(outs) + Login(old(State()), from, msg, env, true).outs
    {
      hide PipesOk, Handing, ScanLogin, Refusal, Say;
      var scan := ScanLogin(CStr(msg.payload));
      if scan.count != 2 {
        PipeSend(from, Refusal([], Lit("Bad login format"), env.now));
        return;
      }
      var dup := FindUser(clients, scan.user);
      if dup != -1 && dup != from {
        PipeSend(from, Refusal(scan.user, Lit("Already logged in"), env.now));
        return;
      }
      if !env.valid(scan.user, scan.pass) {
        PipeSend(from, Refusal(scan.user, Lit("Invalid credentials"), env.now));
        return;
      }
      clients[from] := clients[from].(name := scan.user);
      clients[from] := clients[from].(active := true, status := STATUS_AVAILABLE);
      assert clients[..] == old(clients[..])[from := Slot(true, scan.user, STATUS_AVAILABLE)];
      PipeSend(from, Say(MSG_ACK, scan.user, Lit("Login successful"), env.now));
    }

    method RouteLogout(from: nat, env: Env)
      requires Routing() && TableOk(clients[..]) && from < MAX_CLIENTS
      modifies this`outs, this`pending, this`handed, clients, down
      ensures Routing()
      ensures State() == Logout(old(State()), from, env).chat
      ensures outs == old(outs) + Logout(old(State()), from, env).outs
    {
      hide TableOk, PipesOk, Handing;
      TableSizes(clients[..]);
      assert clients[..][from] == clients[from];
      var note := SnPrintf(clients[from].name + Lit(" left"), 64);
      assert note == clients[from].name + Lit(" left");
      clients[from] := clients[from].(active := false, name := []);
      assert clients[..] == old(clients[..])[from := old(clients[from]).(active := false, name := [])];
      for i := 0 to MAX_CLIENTS
        invariant Routing()
        invariant clients[..] == old(clients[..])[from := old(clients[from]).(active := false, name := [])]
        invariant outs == old(outs) + ToOthers(clients[..], from, Say(MSG_BROADCAST, [], note, env.now), i)
      {
        if i != from && clients[i].active {
          PipeSend(i, Say(MSG_BROADCAST, [], note, env.now));
        }
      }
    }

    method RouteBroadcast(from: nat, msg: Message, env: Env)
      requires Routing() && from < MAX_CLIENTS
      modifies this`outs, this`pending, this`handed, this`logs, down
      ensures Routing()
      ensures State() == Broadcast(old(State()), from, msg, env).chat
      ensures outs == old(outs) + Broadcast(old(State()), from, msg, env).outs
    {
      hide PipesOk, Handing;
      if !clients[from].active {
        PipeSend(from, Refusal([], Lit("Not authenticated"), env.now));
        return;
      }
      SaveHistory(CStr(msg.sender), [], CStr(msg.payload), env.stamp);
      SendOthers(from, msg);
      PipeSend(from, Say(MSG_ACK, CStr(msg.sender), [], env.now));
    }

    method RoutePrivate(from: nat, msg: Message, env: Env)
      requires Routing() && from < MAX_CLIENTS
      modifies this`outs, this`pending, this`handed, this`logs, down
      ensures Routing()
      ensures State() == Private(old(State()), from, msg, env).chat
      ensures outs == old(outs) + Private(old(State()), from, msg, env).outs
    {
      hide PipesOk, Handing, Refusal, Say, Saved, CStr, Find;
      if !clients[from].active {
        PipeSend(from, Refusal([], Lit("Not authenticated"), env.now));
        return;
      }
      var t := FindUser(clients, CStr(msg.receiver));
      if t == -1 {
        PipeSend(from, Refusal(CStr(msg.sender), Lit("User not online"), env.now));
        return;
      }
      SaveHistory(CStr(msg.sender), CStr(msg.receiver), CStr(msg.payload), env.stamp);
      PipeSend(t, msg);
      PipeSend(from, Say(MSG_ACK, CStr(msg.sender), [], env.now));
    }

    /** The switch of `route_message`. */
    method RouteKinds(from: nat, msg: Message, env: Env)
      requires Routing() && TableOk(clients[..]) && from < MAX_CLIENTS
      modifies this`outs, this`pending, this`handed, this`logs, clients, down
      ensures Routing()
      ensures State() == Step(old(State()), from, msg, env, true).chat
      ensures outs == old(outs) + Step(old(State()), from, msg, env, true).outs
    {
      hide TableOk, PipesOk, Handing, Login, Logout, Broadcast, Private;
      var sender := CStr(msg.sender);
      if msg.kind == MSG_LOGIN {
        RouteLogin(from, msg, env);
      } else if msg.kind == MSG_LOGOUT {
        RouteLogout(from, env);
      } else if msg.kind == MSG_BROADCAST {
        RouteBroadcast(from, msg, env);
      } else if msg.kind == MSG_PRIVATE {
        RoutePrivate(from, msg, env);
      } else if msg.kind == MSG_LIST_USERS {
        var list := ListUsers(clients);
        PipeSend(from, Say(MSG_USER_LIST, sender, list, env.now));
      } else if msg.kind == MSG_HISTORY_REQ {
        var buf := ReadHistory(LogOf(logs, sender));
        PipeSend(from, Say(MSG_HISTORY_RESP, sender, if buf != [] then buf else Lit("No history."), env.now));
      } else if msg.kind == MSG_STATUS_CHANGE {
        clients[from] := clients[from].(status := AskedStatus(msg.payload));
        assert clients[..] == old(clients[..])[from := old(clients[from]).(status := AskedStatus(msg.payload))];
        PipeSend(from, Say(MSG_ACK, sender, Lit("Status updated"), env.now));
      } else {
        PipeSend(from, Refusal(sender, Lit("Unknown type"), env.now));
      }
    }

    /** `route_message`: refines the service's step; each slot is handed its share of it. */
    method RouteMessage(from: nat, msg: Message, env: Env)
      requires Valid() && from < MAX_CLIENTS
      modifies this`outs, this`pending, this`handed, this`logs, this`step, this`base, this`events, clients, down
      ensures Valid()
      ensures events == old(events) + [Request(from, msg, env)]
      ensures State() == Step(old(State()), from, msg, env, true).chat
      ensures outs == Step(old(State()), from, msg, env, true).outs
      ensures step == old(step) + 1
      ensures Handing(old(handed), outs, handed, step)
    {
      hide TableOk, Frames, Msgs, Step, SocksOk, Chronicled, HandedIn, Handing, Pipes;
      StepKeeps(State(), from, msg, env, true);
      HandingNothing(handed, step + 1);
      ghost var before := events;
      step, outs, base := step + 1, [], handed;
      RouteKinds(from, msg, env);
      assert [] + outs == outs;
      events := events + [Request(from, msg, env)];
      ToldByRequest(Chronicled(before, true), Request(from, msg, env), base, outs, handed, step);
      ChronicledOne(before, Request(from, msg, env), true);
    }

    /** A complete frame taken out of a pipe by `pipe_recv`. */
    method TakeFrame(pipe: array<seq<Byte>>, i: nat, ghost ms: seq<Message>) returns (r: Option<Message>)
      requires i < pipe.Length && pipe[i] == Frames(ms)
      modifies pipe
      ensures r == if ms == [] then None else Some(Normal(ms[0]))
      ensures pipe[i] == if ms == [] then [] else Frames(ms[1..])
      ensures forall j :: 0 <= j < pipe.Length && j != i ==> pipe[j] == old(pipe[j])
    {
      hide Pack, Normal, Frames;
      var src := new Source(pipe[i], 0);
      assert src.data[0..] == src.data;
      if ms == [] {
        NoFrames();
      } else {
        FramesFront(ms);
        CompleteFrame(ms[0], Frames(ms[1..]));
      }
      r := PipeRecv(src);
      pipe[i] := if r.Some? then pipe[i][src.pos..] else [];
    }

    /** `find_free_slot`. */
    method FindFreeSlot() returns (r: int)
      requires Sizes()
      ensures r == -1 <==> forall i :: 0 <= i < MAX_CLIENTS ==> clients[i].active || pid[i] != 0
      ensures r != -1 ==> 0 <= r < MAX_CLIENTS && !clients[r].active && pid[r] == 0
      ensures forall i :: 0 <= i < r ==> clients[i].active || pid[i] != 0
    {
      for i := 0 to MAX_CLIENTS
        invariant forall j :: 0 <= j < i ==> clients[j].active || pid[j] != 0
      {
        if !clients[i].active && pid[i] == 0 {
          return i;
        }
      }
      r := -1;
    }

    /** A connection is accepted: fresh pipes, a child, and a session with no past; none if every
        slot is active or still has a child. */
    method AcceptClient(child: nat, interrupts: nat) returns (slot: int)
      requires Valid() && child > 0
      modifies this`asked, this`pending, this`delivered, this`handed, this`step, this`events
      modifies pid, gone, up, down, socks
      ensures Valid()
      ensures State() == old(State())
      ensures slot == -1 <==> old(forall i :: 0 <= i < MAX_CLIENTS ==> clients[i].active || pid[i] != 0)
      ensures slot == -1 ==> handed == old(handed) && pid[..] == old(pid[..]) && events == old(events)
      ensures slot != -1 ==> && 0 <= slot < MAX_CLIENTS && !clients[slot].active
                             && old(pid[slot]) == 0 && pid[..] == old(pid[..])[slot := child] && !gone[slot]
                             && handed == old(handed)[slot := []]
                             && events == old(events) + [Joined(slot)]
                             && socks[slot].sent == [] && !socks[slot].broken
    {
      hide PipesOk, SocksOk, TableOk, Traced;
      slot := FindFreeSlot();
      if slot == -1 {
        return;
      }
      OpenPipes(slot, interrupts);
      gone[slot] := false;
      pid[slot] := child;
    }

    method OpenPipes(slot: nat, interrupts: nat)
      requires Valid() && slot < MAX_CLIENTS
      modifies this`asked, this`pending, this`delivered, this`handed, this`step, this`events, up, down, socks
      ensures Valid()
      ensures events == old(events) + [Joined(slot)]
      ensures handed == old(handed)[slot := []]
      ensures fresh(socks[slot]) && socks[slot].sent == [] && !socks[slot].broken
    {
      hide TableOk, PipesOk, SocksOk, Chronicled, HandedIn, Apply, Traced, Told;
      TracedIs();
      ghost var before := events;
      ToldByJoining(Chronicled(before, true), slot, handed, step + 1);
      FreshPipes(slot, interrupts);
      step, events := step + 1, events + [Joined(slot)];
      TracedMore(before, Joined(slot));
    }

    method FreshPipes(slot: nat, interrupts: nat)
      requires Sizes() && PipesOk() && SocksOk() && slot < MAX_CLIENTS
      modifies this`asked, this`pending, this`delivered, this`handed, up, down, socks
      ensures Sizes() && PipesOk() && SocksOk()
      ensures handed == old(handed)[slot := []]
      ensures fresh(socks[slot]) && socks[slot].sent == [] && !socks[slot].broken
    {
      hide Pipes, SocksOk;
      PipesFresh();
      OpenSock(slot, interrupts);
      up[slot], down[slot] := [], [];
      asked := asked[slot := []];
      pending := pending[slot := []];
      handed := handed[slot := []];
    }

    lemma TracedIs()
      requires Traced()
      ensures Within(events, MAX_CLIENTS) && step == |events|
      ensures State() == Chronicled(events, true).chat && HandedIn(handed, Chronicled(events, true))
    {
    }

    lemma TracedMore(before: seq<Event>, ev: Event)
      requires Within(before, MAX_CLIENTS) && ev.s < MAX_CLIENTS && events == before + [ev] && step == |events|
      requires var x := Told(Chronicled(before, true), ev, |before| + 1, true);
               State() == x.chat && HandedIn(handed, x)
      ensures Traced()
    {
      hide Told, HandedIn;
      ChronicledOne(before, ev, true);
    }

    method OpenSock(slot: nat, interrupts: nat)
      requires SocksOk() && slot < MAX_CLIENTS
      modifies this`delivered, socks
      ensures SocksOk()
      ensures delivered == old(delivered)[slot := []]
      ensures fresh(socks[slot]) && socks[slot].sent == [] && !socks[slot].broken
    {
      hide Written;
      PipesFresh();
      var sock := new Sink(interrupts);
      assert forall i :: 0 <= i < MAX_CLIENTS ==> socks[i] != sock;
      socks[slot] := sock;
      delivered := delivered[slot := []];
    }

    /** The parent reads one message of child `i` and routes it; the end of the pipe, which comes
        once the child has exited and nothing is left in it, frees the slot. */
    method ParentStep(i: nat, env: Env)
      requires Valid() && i < MAX_CLIENTS && pid[i] > 0 && (asked[i] != [] || gone[i])
      modifies this, clients, down, up, pid
      ensures Valid()
      ensures step == old(step) + 1
      ensures old(asked[i]) != [] ==>
                var m := Normal(old(asked[i])[0]);
                && State() == Step(old(State()), i, m, env, true).chat
                && outs == Step(old(State()), i, m, env, true).outs
                && Handing(old(handed), outs, handed, step)
                && asked == old(asked)[i := old(asked[i])[1..]]
                && delivered == old(delivered)
                && events == old(events) + [Request(i, m, env)]
      ensures old(asked[i]) == [] ==>
                && State() == Apply(old(State()), Wiped(i), true).chat
                && handed == old(handed) && pid[i] == 0
                && events == old(events) + [Wiped(i)]
    {
      hide TableOk, Frames, Msgs, Step, Normal, Handing, SocksOk, Chronicled, HandedIn, Traced, Told;
      var r := TakeFrame(up, i, asked[i]);
      if r.Some? {
        asked := asked[i := asked[i][1..]];
        RouteMessage(i, r.value, env);
      } else {
        NoFrames();
        Wipe(i);
      }
    }

    /** The slot of a child that has exited is cleared. */
    method Wipe(i: nat)
      requires Valid() && i < MAX_CLIENTS
      modifies this`step, this`events, clients, pid
      ensures Valid()
      ensures step == old(step) + 1 && events == old(events) + [Wiped(i)]
      ensures State() == Apply(old(State()), Wiped(i), true).chat && pid[i] == 0
    {
      hide TableOk, PipesOk, SocksOk, Chronicled, HandedIn, Traced, Told;
      TracedIs();
      ghost var before := events;
      TableSize(clients[..]);
      SlotOnlyKeeps(clients[..], i, clients[i].(active := false, name := []));
      ToldByWiping(Chronicled(before, true), i, handed, step + 1);
      clients[i] := clients[i].(active := false, name := []);
      pid[i] := 0;
      step, events := step + 1, events + [Wiped(i)];
      assert clients[..] == old(clients[..])[i := old(clients[i]).(active := false, name := [])];
      TracedMore(before, Wiped(i));
    }

    /** Child `i`, client to parent: one received message goes up as one frame; when the client
        is gone a LOGOUT goes up in its name and the child exits. */
    method ChildUp(i: nat, sock: Source, now: Time)
      requires Valid() && sock.Valid() && i < MAX_CLIENTS && pid[i] > 0 && !gone[i]
      modifies this`asked, up, gone, sock
      ensures Valid()
      ensures Complete(old(sock.Ahead())) ==>
                && asked == old(asked)[i := old(asked[i]) + [FirstMessage(old(sock.Ahead()))]]
                && gone[..] == old(gone[..])
      ensures !Complete(old(sock.Ahead())) ==>
                && asked == old(asked)[i := old(asked[i]) + [MakeMessage(MSG_LOGOUT, clients[i].name, [], [], now)]]
                && gone[..] == old(gone[..])[i := true]
    {
      hide Valid, PipesOk, Complete, FirstMessage, MakeMessage;
      ValidSizes();
      var r := RecvMessage(sock);
      var msg: Message := if r.Some? then r.value else MakeMessage(MSG_LOGOUT, clients[i].name, [], [], now);
      PassUp(i, msg);
      if r.None? {
        gone[i] := true;
      }
    }

    lemma ValidSizes()
      requires Valid()
      ensures Sizes()
    {
    }

    method PassUp(i: nat, msg: Message)
      requires Valid() && i < MAX_CLIENTS
      modifies this`asked, up
      ensures Valid()
      ensures asked == old(asked)[i := old(asked[i]) + [msg]]
    {
      hide TableOk, Frames, Msgs, Pack, Traced, SocksOk;
      var wire := new Byte[HEADER_SIZE + MAX_PAYLOAD_LEN];
      var len := PackMessage(msg, wire);
      FramesAppend(asked[i], msg);
      up[i] := up[i] + wire[..len];
      asked := asked[i := asked[i] + [msg]];
    }

    /** Child `i`, parent to client: the next message handed to the slot leaves as the very
        frame a single hop would have produced. */
    method ChildDown(i: nat)
      requires Valid() && i < MAX_CLIENTS && pid[i] > 0 && !gone[i] && pending[i] != []
      modifies this`pending, this`delivered, down, socks[i]
      ensures Valid()
      ensures delivered == old(delivered)[i := old(delivered[i]) + [old(pending[i])[0]]]
      ensures pending == old(pending)[i := old(pending[i])[1..]]
      ensures if socks[i].broken then socks[i].sent <= old(socks[i].sent) + Pack(old(pending[i])[0].msg)
              else socks[i].sent == old(socks[i].sent) + Pack(old(pending[i])[0].msg)
      ensures old(socks[i].broken) ==> socks[i].broken && socks[i].sent == old(socks[i].sent)
    {
      hide TableOk, Pipes, Frames, Pack, Normal, Written, Traced;
      PipesTaken(up[i], asked[i], down[i], pending[i], delivered[i], handed[i]);
      var ms := Msgs(pending[i]);
      ghost var t, sent, broken := pending[i][0], socks[i].sent, socks[i].broken;
      var r := TakeFrame(down, i, ms);
      PackNormal(t.msg);
      var ok := SendMessage(socks[i], r.value);
      WrittenMore(sent, broken, delivered[i], t, socks[i].sent, socks[i].broken);
      pending := pending[i := pending[i][1..]];
      delivered := delivered[i := delivered[i] + [t]];
    }

    /** The relay loop down to an empty pipe: the client is sent the frames of everything the
        slot was handed, in order, or a prefix of them if its socket fails. */
    method DrainDown(i: nat)
      requires Valid() && i < MAX_CLIENTS && pid[i] > 0 && !gone[i]
      modifies this`pending, this`delivered, down, socks[i]
      ensures Valid()
      ensures pending[i] == [] && delivered[i] == handed[i]
      ensures if socks[i].broken then socks[i].sent <= Frames(Msgs(handed[i]))
              else socks[i].sent == Frames(Msgs(handed[i]))
    {
      hide TableOk, PipesOk, Frames, Pack, ChatSpec.Run;
      DownEmpty(i);
      while down[i] != []
        invariant Valid()
        invariant down[i] == [] <==> pending[i] == []
        decreases |pending[i]|
      {
        ChildDown(i);
        DownEmpty(i);
      }
      DrainedAll(i);
      assert Written(socks[i].sent, socks[i].broken, delivered[i]);
    }

    lemma DownEmpty(i: nat)
      requires Sizes() && PipesOk() && i < MAX_CLIENTS
      ensures down[i] == [] <==> pending[i] == []
    {
      hide Pack;
      var ms := Msgs(pending[i]);
      assert ms != [] ==> Frames(ms) == Frames(ms[..|ms| - 1]) + Pack(ms[|ms| - 1]);
    }

    lemma DrainedAll(i: nat)
      requires Sizes() && PipesOk() && i < MAX_CLIENTS && pending[i] == []
      ensures delivered[i] == handed[i]
    {
      assert delivered[i] + pending[i] == handed[i];
      assert delivered[i] + [] == delivered[i];
    }
  }

  /** The two pipes of one child, and what has gone through them. */
  predicate Pipes(up: seq<Byte>, asked: seq<Message>, down: seq<Byte>, pending: seq<Tagged>,
                  delivered: seq<Tagged>, handed: seq<Tagged>) {
    && up == Frames(asked)
    && down == Frames(Msgs(pending))
    && delivered + pending == handed
  }

  lemma PipesFresh()
    ensures Pipes([], [], [], [], [], [])
    ensures Written([], false, [])
  {
    assert Msgs([]) == [];
  }

  lemma PipesTaken(up: seq<Byte>, asked: seq<Message>, down: seq<Byte>, pending: seq<Tagged>,
                   delivered: seq<Tagged>, handed: seq<Tagged>)
    requires Pipes(up, asked, down, pending, delivered, handed) && pending != []
    ensures Msgs(pending) != [] && down == Frames(Msgs(pending))
    ensures Pipes(up, asked, Frames(Msgs(pending)[1..]), pending[1..], delivered + [pending[0]], handed)
  {
    hide Frames;
    assert Msgs(pending[1..]) == Msgs(pending)[1..];
    assert (delivered + [pending[0]]) + pending[1..] == handed;
  }

  /** Every slot has been handed what the chronicle says. */
  predicate HandedIn(handed: seq<seq<Tagged>>, x: Chronicle) {
    |handed| == |x.lives| && forall i :: 0 <= i < |handed| ==> handed[i] == x.lives[i].handed
  }

  lemma ToldByRequest(x: Chronicle, ev: Event, base: seq<seq<Tagged>>, outs: seq<Out>, handed: seq<seq<Tagged>>, k: nat)
    requires Full(x) && ev.s < MAX_CLIENTS && ev.Request? && HandedIn(base, x)
    requires outs == Apply(x.chat, ev, true).outs && Handing(base, outs, handed, k)
    ensures HandedIn(handed, Told(x, ev, k, true))
  {
    hide Apply, For, Tag;
  }

  lemma ToldByJoining(x: Chronicle, s: nat, handed: seq<seq<Tagged>>, k: nat)
    requires Full(x) && s < MAX_CLIENTS && HandedIn(handed, x)
    ensures HandedIn(handed[s := []], Told(x, Joined(s), k, true))
    ensures Told(x, Joined(s), k, true).chat == x.chat
  {
    hide For, Tag, LifeAfter;
    forall i | 0 <= i < MAX_CLIENTS && i != s
      ensures LifeAfter(x.lives[i], Joined(s), [], k, i) == x.lives[i]
    {
      LifeQuiet(x.lives[i], Joined(s), k, i);
    }
    JoinedNew(x.lives[s], s, k);
  }

  lemma JoinedNew(l: Life, s: nat, k: nat)
    ensures LifeAfter(l, Joined(s), [], k, s) == New()
  {
  }

  lemma ToldByWiping(x: Chronicle, s: nat, handed: seq<seq<Tagged>>, k: nat)
    requires Full(x) && s < MAX_CLIENTS && HandedIn(handed, x)
    ensures HandedIn(handed, Told(x, Wiped(s), k, true))
    ensures Told(x, Wiped(s), k, true).chat == Apply(x.chat, Wiped(s), true).chat
  {
    hide For, Tag, LifeAfter;
    forall i | 0 <= i < MAX_CLIENTS
      ensures LifeAfter(x.lives[i], Wiped(s), [], k, i) == x.lives[i]
    {
      LifeQuiet(x.lives[i], Wiped(s), k, i);
    }
  }

  lemma FramesFront(ms: seq<Message>)
    requires ms != []
    ensures Frames(ms) == Pack(ms[0]) + Frames(ms[1..])
  {
    hide Pack;
    FramesConcat([ms[0]], ms[1..]);
    assert [ms[0]] + ms[1..] == ms;
    FramesAppend([], ms[0]);
    assert [] + [ms[0]] == [ms[0]];
    assert Frames([]) + Pack(ms[0]) == Pack(ms[0]);
  }

  /** However many times a message is unpacked and packed again on its way, the frame that
      arrives is the frame of a single hop. */
  lemma {:induction false} RelayTransparent(m: Message, hops: nat)
    ensures Pack(Relayed(m, hops)) == Pack(m)
    ensures hops > 0 ==> Relayed(m, hops) == Normal(m)
  {
    hide Pack, Normal;
    if hops > 0 {
      RelayTransparent(m, hops - 1);
      PackUnpack(Relayed(m, hops - 1));
      PackInjective(Relayed(m, hops - 1), m);
      PackNormal(m);
    }
  }

  /** A message after `hops` pipes or sockets. */
  function Relayed(m: Message, hops: nat): Message {
    if hops == 0 then m
    else
      PackUnpack(Relayed(m, hops - 1));
      Unpack(Pack(Relayed(m, hops - 1))).value
  }

  /** Requests that no router can tell apart. */
  predicate Alike(a: Message, b: Message) {
    && a.kind == b.kind && a.payload == b.payload
    && CStr(a.sender) == CStr(b.sender) && CStr(a.receiver) == CStr(b.receiver)
    && Pack(a) == Pack(b)
  }

  /** The same frames, to the same slots, in the same order. */
  predicate SameFrames(a: seq<Out>, b: seq<Out>) {
    |a| == |b| && forall i :: 0 <= i < |a| ==> a[i].to == b[i].to && Pack(a[i].msg) == Pack(b[i].msg)
  }

  /** What a client sent, and what the pipe makes of it, are alike. */
  lemma NormalAlike(w: seq<Byte>, m: Message)
    requires Unpack(w) == Some(m)
    ensures Alike(Normal(m), m)
  {
    hide Pack, Field, CStr, ReadU64;
    PackNormal(m);
    SameName(m.sender);
    SameName(m.receiver);
    UnpackedPayload(w, m);
  }

  lemma UnpackedPayload(w: seq<Byte>, m: Message)
    requires Unpack(w) == Some(m)
    ensures m.kind < 256 && m.sender[MAX_USERNAME_LEN - 1] == 0 && m.receiver[MAX_USERNAME_LEN - 1] == 0
    ensures m.payload == m.payload[..ClippedLen(m)] + Zeros(MAX_PAYLOAD_LEN - ClippedLen(m))
  {
    hide ReadU64;
  }

  lemma SameName(a: seq<Byte>)
    requires |a| == MAX_USERNAME_LEN && a[MAX_USERNAME_LEN - 1] == 0
    ensures CStr(Field(a, MAX_USERNAME_LEN)) == CStr(a)
  {
    hide Field;
    CStrOfField(a, MAX_USERNAME_LEN);
    assert StrLen(a) <= MAX_USERNAME_LEN - 1;
  }

  lemma {:induction false} SameToOthers(slots: seq<Slot>, skip: nat, a: Message, b: Message, n: nat)
    requires n <= |slots| && Pack(a) == Pack(b)
    ensures SameFrames(ToOthers(slots, skip, a, n), ToOthers(slots, skip, b, n))
  {
    hide Pack;
    if n > 0 {
      SameToOthers(slots, skip, a, b, n - 1);
    }
  }

  /** Alike requests have the same effect on the table and on the logs, and put the same frames
      on the same connections. */
  lemma StepAlike(c: Chat, s: nat, a: Message, b: Message, env: Env, selfOk: bool)
    requires s < |c.slots| && Alike(a, b)
    ensures var x, y := Step(c, s, a, env, selfOk), Step(c, s, b, env, selfOk);
            x.chat == y.chat && SameFrames(x.outs, y.outs)
  {
    hide Pack, CStr, Say, Refusal, ToOthers, Saved, ScanLogin, Find, UserList, Reply;
    SameToOthers(c.slots, s, a, b, |c.slots|);
  }

  /** The parent, which sees a request in its normal form, does what the other routers do with
      the request as it was received. */
  lemma RoutedAlike(w: seq<Byte>, m: Message, c: Chat, s: nat, env: Env, selfOk: bool)
    requires Unpack(w) == Some(m) && s < |c.slots|
    ensures var x, y := Step(c, s, Normal(m), env, selfOk), Step(c, s, m, env, selfOk);
            x.chat == y.chat && SameFrames(x.outs, y.outs)
  {
    hide Unpack, Normal, Alike, Step;
    NormalAlike(w, m);
    StepAlike(c, s, Normal(m), m, env, selfOk);
  }

  /** Events that differ at most in requests that are alike. */
  ghost predicate AlikeRuns(a: seq<Event>, b: seq<Event>) {
    |a| == |b| && forall i :: 0 <= i < |a| ==> AlikeEvents(a[i], b[i])
  }

  ghost predicate AlikeEvents(a: Event, b: Event) {
    a == b || (a.Request? && b.Request? && a.s == b.s && a.env == b.env && Alike(a.req, b.req))
  }

  lemma SameFramesAppend(a: seq<Out>, b: seq<Out>, x: seq<Out>, y: seq<Out>)
    requires SameFrames(a, b) && SameFrames(x, y)
    ensures SameFrames(a + x, b + y)
  {
    hide Pack;
  }

  /** The same over whole runs: the tables and logs agree, and every client is sent the same
      bytes. */
  lemma {:induction false} RunAlike(c: Chat, a: seq<Event>, b: seq<Event>, selfOk: bool, i: nat)
    requires Within(a, |c.slots|) && Within(b, |c.slots|) && AlikeRuns(a, b)
    ensures var x, y := ChatSpec.Run(c, a, selfOk), ChatSpec.Run(c, b, selfOk);
            && x.chat == y.chat && SameFrames(x.outs, y.outs)
            && Frames(For(x.outs, i)) == Frames(For(y.outs, i))
  {
    hide Alike, Step, Pack, Leave;
    if a != [] {
      var n := |a| - 1;
      RunAlike(c, a[..n], b[..n], selfOk, i);
      var d := ChatSpec.Run(c, a[..n], selfOk);
      if a[n] != b[n] {
        StepAlike(d.chat, a[n].s, a[n].req, b[n].req, a[n].env, selfOk);
      }
      SameFramesAppend(d.outs, ChatSpec.Run(c, b[..n], selfOk).outs,
                       Apply(d.chat, a[n], selfOk).outs, Apply(d.chat, b[n], selfOk).outs);
    }
    SameBytes(ChatSpec.Run(c, a, selfOk).outs, ChatSpec.Run(c, b, selfOk).outs, i);
  }

  lemma {:induction false} SameBytes(a: seq<Out>, b: seq<Out>, i: nat)
    requires SameFrames(a, b)
    ensures Frames(For(a, i)) == Frames(For(b, i))
  {
    hide Pack;
    if a != [] {
      var n := |a| - 1;
      SameBytes(a[..n], b[..n], i);
      FramesAppend(For(a[..n], i), a[n].msg);
      FramesAppend(For(b[..n], i), b[n].msg);
      assert For(a[..n], i) + [] == For(a[..n], i) && For(b[..n], i) + [] == For(b[..n], i);
    }
  }

  /** Output integrity: what client `i` decodes of the bytes its socket has taken is the first
      of the messages handed to its slot, in their normal forms and in order; all of those taken
      out of its pipe if the socket has not failed. And these are the messages that the run of
      the service has put out for the slot since the connection was accepted. */
  lemma OutputIntegrity(fs: Server, i: nat)
    requires fs.Valid() && i < MAX_CLIENTS
    ensures |fs.delivered| == |fs.handed| == fs.socks.Length == MAX_CLIENTS && Within(fs.events, MAX_CLIENTS)
    ensures var got := Decode(fs.socks[i].sent);
            && !got.bad
            && got.msgs <= Normals(Msgs(fs.delivered[i]))
            && fs.delivered[i] <= fs.handed[i]
            && (!fs.socks[i].broken ==> got == Parse(Normals(Msgs(fs.delivered[i])), [], false))
    ensures OfRun(fs.events, i, Chronicled(fs.events, true).lives[i].requests, fs.handed[i], true)
  {
    hide TableOk, Frames, Msgs, Decode, Normals, Chronicled, OfRun;
    assert Written(fs.socks[i].sent, fs.socks[i].broken, fs.delivered[i]);
    assert fs.delivered[i] <= fs.handed[i];
    DecodeTruncated(Msgs(fs.delivered[i]), fs.socks[i].sent);
    if !fs.socks[i].broken {
      DecodeFrames(Msgs(fs.delivered[i]));
    }
    OfRunIs(fs.events, i, Chronicled(fs.events, true).lives[i].requests, fs.handed[i], true);
  }

  /** Reply pairing: the answers among the messages handed to a slot are one for each request of
      it that was routed since the connection was accepted, LOGOUT apart, in order. */
  lemma ReplyPairing(fs: Server, i: nat)
    requires fs.Valid() && i < MAX_CLIENTS
    ensures |fs.handed| == MAX_CLIENTS
    ensures var requests := RequestsOf(fs.events[Since(fs.events, i)..], i);
            Paired(Answered(requests), fs.handed[i])
  {
    hide TableOk, Frames, Msgs, Chronicled, Paired, Answered, RequestsOf, ChatSpec.Run;
    LivesPaired(fs.events, true);
    LifeIsRun(fs.events, i, true);
  }

  /** What a client decodes are outputs of the run for its slot: the n-th message is the n-th it
      was handed, one that the event its tag numbers has put out. Two clients that have both
      decoded something of two events decode it in the order of the events. */
  lemma BroadcastsInOneOrder(fs: Server, x: nat, y: nat, i: nat, j: nat, k: nat, l: nat)
    requires fs.Valid() && x < MAX_CLIENTS == fs.socks.Length && y < MAX_CLIENTS
    requires i < |Decode(fs.socks[x].sent).msgs| && j < |Decode(fs.socks[x].sent).msgs|
    requires k < |Decode(fs.socks[y].sent).msgs| && l < |Decode(fs.socks[y].sent).msgs|
    ensures |fs.handed| == MAX_CLIENTS && Within(fs.events, MAX_CLIENTS)
    ensures i < |fs.handed[x]| && j < |fs.handed[x]| && k < |fs.handed[y]| && l < |fs.handed[y]|
    ensures Decode(fs.socks[x].sent).msgs[i] == Normal(fs.handed[x][i].msg)
    ensures PutOut(fs.events, x, fs.handed[x][i], true)
    ensures && fs.handed[x][i].step == fs.handed[y][k].step
            && fs.handed[x][j].step == fs.handed[y][l].step
            && fs.handed[x][i].step != fs.handed[x][j].step
            ==> (i < j <==> k < l) && (i < j <==> fs.handed[x][i].step < fs.handed[x][j].step)
  {
    hide TableOk, Frames, Decode, Normal, Chronicled, PutOut, OfRun;
    OutputIntegrity(fs, x);
    OutputIntegrity(fs, y);
    LivesInOrder(fs.events, true);
    TagIsEvent(fs.events, true);
    assert Decode(fs.socks[x].sent).msgs[i] == Normals(Msgs(fs.delivered[x]))[i];
    assert fs.delivered[x][i] == fs.handed[x][i];
    if && fs.handed[x][i].step == fs.handed[y][k].step
       && fs.handed[x][j].step == fs.handed[y][l].step
       && fs.handed[x][i].step != fs.handed[x][j].step {
      SameOrder(fs.handed[x], fs.handed[y], |fs.events|, i, j, k, l);
    }
  }

  /** In every reachable state a history reply extends the one an earlier state would have given. */
  lemma HistoryGrows(fs: Server, earlier: seq<Event>, name: seq<Byte>)
    requires fs.Valid() && earlier <= fs.events && Within(earlier, MAX_CLIENTS)
    ensures Extends(LogOf(ChatSpec.Run(Blank(), earlier, true).chat.logs, name), LogOf(fs.logs, name))
  {
    hide ChatSpec.Run, Extends, TableOk, LogsGrown, Chronicled;
    assert fs.Traced();
    ChronicleIsRun(fs.events, true);
    var more := fs.events[|earlier|..];
    assert fs.events == earlier + more;
    StartOk();
    RunKeeps(Blank(), earlier, true);
    var c := ChatSpec.Run(Blank(), earlier, true).chat;
    RunConcat(Blank(), earlier, more, true);
    GrownIsOk(c.logs);
    HistoryMonotone(c, more, true, name);
  }

  /** `sent` is what a socket makes of these messages. */
  predicate Written(sent: seq<Byte>, broken: bool, msgs: seq<Tagged>) {
    if broken then sent <= Frames(Msgs(msgs)) else sent == Frames(Msgs(msgs))
  }

  lemma WrittenMore(sent: seq<Byte>, broken: bool, msgs: seq<Tagged>, t: Tagged, sent2: seq<Byte>, broken2: bool)
    requires Written(sent, broken, msgs)
    requires broken ==> broken2 && sent2 == sent
    requires if broken2 then sent <= sent2 <= sent + Pack(t.msg) else sent2 == sent + Pack(t.msg)
    ensures Written(sent2, broken2, msgs + [t])
  {
    hide Pack, Frames, Msgs;
    MsgsAppend(msgs, t);
  }

  method MakeSinks() returns (s: array<Sink>)
    ensures s.Length == MAX_CLIENTS && fresh(s) && fresh(s[..])
    ensures forall i, j :: 0 <= i < j < MAX_CLIENTS ==> s[i] != s[j]
    ensures forall i :: 0 <= i < MAX_CLIENTS ==> s[i].sent == [] && !s[i].broken
  {
    var first := new Sink(0);
    s := new Sink[MAX_CLIENTS](_ => first);
    for i := 0 to MAX_CLIENTS
      invariant fresh(s[..])
      invariant forall j :: 0 <= j < i ==> s[j].sent == [] && !s[j].broken && s[j] != first
      invariant forall j :: i <= j < MAX_CLIENTS ==> s[j] == first
      invariant forall j, k :: 0 <= j < k < i ==> s[j] != s[k]
    {
      s[i] := new Sink(0);
    }
  }
}
