/** The router of the threaded server, run by one thread with no other in its way. What
    interleaving does to it is the business of `ThreadProtocol`. */
module ThreadRouter {
  import opened Bytes
  import opened Codec
  import opened History
  import opened Scanf
  import opened ChatSpec

  class ThreadServer {
    const clients: array<Slot>
    const sendLock: array<bool>
    var tableLock: bool
    var logs: Logs
    /** Every message given to `slot_send`, in order. */
    ghost var outs: seq<Out>

    ghost predicate Unlocked()
      reads this, clients, sendLock
    {
      && clients.Length == MAX_CLIENTS
      && sendLock.Length == MAX_CLIENTS
      && !tableLock
      && (forall i :: 0 <= i < MAX_CLIENTS ==> !sendLock[i])
    }

    ghost predicate Valid()
      reads this, clients, sendLock
    {
      Unlocked() && TableOk(clients[..])
    }

    ghost function State(): Chat
      reads this, clients
    {
      Chat(clients[..], logs)
    }

    constructor ()
      ensures Valid() && State() == Chat(seq(MAX_CLIENTS, _ => FREE), map[]) && outs == []
      ensures fresh(clients) && fresh(sendLock)
    {
      clients := new Slot[MAX_CLIENTS](_ => FREE);
      sendLock := new bool[MAX_CLIENTS](_ => false);
      tableLock := false;
      logs := map[];
      outs := [];
      new;
      assert clients[..] == seq(MAX_CLIENTS, _ => FREE);
    }

    method LockTable()
      requires !tableLock
      modifies this`tableLock
      ensures tableLock
    {
      tableLock := true;
    }

    method UnlockTable()
      requires tableLock
      modifies this`tableLock
      ensures !tableLock
    {
      tableLock := false;
    }

    method SlotSend(s: nat, m: Message)
      requires Unlocked() && s < MAX_CLIENTS
      modifies this`outs, sendLock
      ensures Unlocked()
      ensures outs == old(outs) + [Out(s, m)]
    {
      sendLock[s] := true;
      outs := outs + [Out(s, m)];
      sendLock[s] := false;
    }

    method BcastNote(skip: nat, note: seq<Byte>, now: Time)
      requires Unlocked()
      modifies this`outs, sendLock
      ensures Unlocked()
      ensures outs == old(outs) + ToOthers(clients[..], skip, Say(MSG_BROADCAST, [], note, now), MAX_CLIENTS)
    {
      SendOthers(skip, Say(MSG_BROADCAST, [], note, now));
    }

    /** The loop over the active slots, in both of its places. */
    method SendOthers(skip: nat, m: Message)
      requires Unlocked()
      modifies this`outs, sendLock
      ensures Unlocked()
      ensures outs == old(outs) + ToOthers(clients[..], skip, m, MAX_CLIENTS)
    {
      for i := 0 to MAX_CLIENTS
        invariant Unlocked()
        invariant outs == old(outs) + ToOthers(clients[..], skip, m, i)
      {
        if i != skip && clients[i].active {
          SlotSend(i, m);
        }
      }
    }

    method SaveHistory(from: seq<Byte>, to: seq<Byte>, text: seq<Byte>, stamp: seq<Byte>)
      modifies this`logs
      ensures logs == Saved(old(logs), from, to, text, stamp)
    {
      logs := Saved(logs, from, to, text, stamp);
    }

    method RouteLogin(s: nat, msg: Message, env: Env)
      requires Valid() && s < MAX_CLIENTS
      modifies this`tableLock, this`outs, clients, sendLock
      ensures Unlocked()
      ensures State() == Login(old(State()), s, msg, env, false).chat
      ensures outs == old(outs) + Login(old(State()), s, msg, env, false).outs
    {
      hide TableOk, ScanLogin, Refusal, Say;
      var scan := ScanLogin(CStr(msg.payload));
      if scan.count != 2 {
        SlotSend(s, Refusal([], Lit("Bad login format"), env.now));
        return;
      }
      LockTable();
      var dup := FindUser(clients, scan.user);
      if dup != -1 {
        UnlockTable();
        SlotSend(s, Refusal(scan.user, Lit("Already logged in"), env.now));
        return;
      }
      if !env.valid(scan.user, scan.pass) {
        UnlockTable();
        SlotSend(s, Refusal(scan.user, Lit("Invalid credentials"), env.now));
        return;
      }
      clients[s] := clients[s].(name := scan.user);
      clients[s] := clients[s].(active := true, status := STATUS_AVAILABLE);
      UnlockTable();
      assert clients[..] == old(clients[..])[s := Slot(true, scan.user, STATUS_AVAILABLE)];
      SlotSend(s, Say(MSG_ACK, scan.user, Lit("Login successful"), env.now));
    }

    method RouteLogout(s: nat, env: Env)
      requires Valid() && s < MAX_CLIENTS
      modifies this`tableLock, this`outs, clients, sendLock
      ensures Unlocked()
      ensures State() == Logout(old(State()), s, env).chat
      ensures outs == old(outs) + Logout(old(State()), s, env).outs
    {
      hide TableOk;
      TableSizes(clients[..]);
      assert clients[..][s] == clients[s];
      var note := SnPrintf(clients[s].name + Lit(" left"), 64);
      assert note == clients[s].name + Lit(" left");
      LockTable();
      clients[s] := clients[s].(active := false, name := []);
      UnlockTable();
      assert clients[..] == old(clients[..])[s := old(clients[s]).(active := false, name := [])];
      BcastNote(s, note, env.now);
    }

    method RouteBroadcast(s: nat, msg: Message, env: Env)
      requires Valid() && s < MAX_CLIENTS
      modifies this`outs, this`logs, sendLock
      ensures Unlocked()
      ensures State() == Broadcast(old(State()), s, msg, env).chat
      ensures outs == old(outs) + Broadcast(old(State()), s, msg, env).outs
    {
      hide TableOk;
      if !clients[s].active {
        SlotSend(s, Refusal([], Lit("Not authenticated"), env.now));
        return;
      }
      SaveHistory(CStr(msg.sender), [], CStr(msg.payload), env.stamp);
      SendOthers(s, msg);
      SlotSend(s, Say(MSG_ACK, CStr(msg.sender), [], env.now));
    }

    method RoutePrivate(s: nat, msg: Message, env: Env)
      requires Valid() && s < MAX_CLIENTS
      modifies this`tableLock, this`outs, this`logs, sendLock
      ensures Unlocked()
      ensures State() == Private(old(State()), s, msg, env).chat
      ensures outs == old(outs) + Private(old(State()), s, msg, env).outs
    {
      hide TableOk;
      if !clients[s].active {
        SlotSend(s, Refusal([], Lit("Not authenticated"), env.now));
        return;
      }
      LockTable();
      var t := FindUser(clients, CStr(msg.receiver));
      UnlockTable();
      if t == -1 {
        SlotSend(s, Refusal(CStr(msg.sender), Lit("User not online"), env.now));
        return;
      }
      SaveHistory(CStr(msg.sender), CStr(msg.receiver), CStr(msg.payload), env.stamp);
      SlotSend(t, msg);
      SlotSend(s, Say(MSG_ACK, CStr(msg.sender), [], env.now));
    }

    /** `route`: refines the service's step, keeps the invariant, and returns with every lock
        released. */
    method Route(s: nat, msg: Message, env: Env)
      requires Valid() && s < MAX_CLIENTS
      modifies this`tableLock, this`outs, this`logs, clients, sendLock
      ensures Valid()
      ensures State() == Step(old(State()), s, msg, env, false).chat
      ensures outs == old(outs) + Step(old(State()), s, msg, env, false).outs
    {
      hide TableOk, Login, Logout, Broadcast, Private;
      StepKeeps(State(), s, msg, env, false);
      var sender := CStr(msg.sender);
      if msg.kind == MSG_LOGIN {
        RouteLogin(s, msg, env);
      } else if msg.kind == MSG_LOGOUT {
        RouteLogout(s, env);
      } else if msg.kind == MSG_BROADCAST {
        RouteBroadcast(s, msg, env);
      } else if msg.kind == MSG_PRIVATE {
        RoutePrivate(s, msg, env);
      } else if msg.kind == MSG_LIST_USERS {
        LockTable();
        var list := ListUsers(clients);
        UnlockTable();
        SlotSend(s, Say(MSG_USER_LIST, sender, list, env.now));
      } else if msg.kind == MSG_HISTORY_REQ {
        var buf := ReadHistory(LogOf(logs, sender));
        SlotSend(s, Say(MSG_HISTORY_RESP, sender, if buf != [] then buf else Lit("No history."), env.now));
      } else if msg.kind == MSG_STATUS_CHANGE {
        LockTable();
        clients[s] := clients[s].(status := AskedStatus(msg.payload));
        UnlockTable();
        assert clients[..] == old(clients[..])[s := old(clients[s]).(status := AskedStatus(msg.payload))];
        SlotSend(s, Say(MSG_ACK, sender, Lit("Status updated"), env.now));
      } else {
        SlotSend(s, Refusal(sender, Lit("Unknown type"), env.now));
      }
    }
  }
}
