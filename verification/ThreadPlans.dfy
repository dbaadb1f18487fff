/** What the threads of the threaded server send: each follows its plan, the plan is that of
    the service's step, and every message begun is handed to the connection of its slot. */
module ThreadPlans {
  import opened Bytes
  import opened Codec
  import opened History
  import opened Scanf
  import opened ChatSpec
  import opened ThreadProtocol
  import opened ThreadLocks
  import opened ThreadTable
  import opened ThreadSections
  import ServiceLaws

  // ---------- a plan is followed ----------

  /** A request that needs no section is one step of the service as soon as it is read; its
      record, if it has one, is added to whatever the logs are when the thread gets to save. */
  lemma StartIsStep(st: State, t: nat, ch: Choice, logs: Logs, stamp: seq<Byte>)
    requires Good(st) && Runs(st, t) && st.peers[t].pc.Recv? && ch.msg.Some?
    ensures var p, st2 := st.peers[t], Receive(st, t, ch);
            var env := Env(ch.now, stamp, ch.valid);
            var e := Step(Chat(st.slots, logs), p.home, ch.msg.value, env, false);
            var pc := st2.peers[t].pc;
            && st2.slots == st.slots && st2.logs == st.logs
            && (pc.Save? || (pc.Next? && logs == st.logs) ==>
                  && st.slots == e.chat.slots
                  && Noted(pc, ch.msg.value, logs, stamp) == e.chat.logs
                  && Planned(pc.todo, p.home, st2.slots) == e.outs
                  && pc.goal == ToRecv)
  {
    hide Good, Start, Step, Planned, Noted;
    StartPlan(st.peers[t].home, st.slots, st.logs, ch.msg.value, ch, logs, stamp);
  }

  lemma StartPlan(s: Index, slots: Slots, now: Logs, m: Message, ch: Choice, logs: Logs, stamp: seq<Byte>)
    ensures var pc := Start(s, slots[s], now, m, ch.now);
            var e := Step(Chat(slots, logs), s, m, Env(ch.now, stamp, ch.valid), false);
            pc.Save? || (pc.Next? && logs == now) ==>
              && slots == e.chat.slots
              && Noted(pc, m, logs, stamp) == e.chat.logs
              && Planned(pc.todo, s, slots) == e.outs
              && pc.goal == ToRecv
  {
    hide ScanLogin, CStr, Find, Saved, LogOf, UserList, AskedStatus, History.Reply, MakeMessage, Lit, ToOthers, Planned;
    var pc := Start(s, slots[s], now, m, ch.now);
    if pc.Save? {
      PlannedOthers(slots, s, Copy, m);
      PlannedOne(pc.todo[1], s, slots);
      PlannedTwo(pc.todo[0], pc.todo[1], s, slots);
    } else if pc.Next? {
      PlannedOne(pc.todo[0], s, slots);
    }
  }

  /** The message whose sending a step of thread `t` begins. */
  function Begun(st: State, a: Action, t: nat): seq<Out> {
    if a.Thread? && a.t == t && Runs(st, t) && st.peers[t].pc.Next? && st.peers[t].pc.todo != []
       && st.peers[t].pc.todo[0].One? && st.sendLock[st.peers[t].pc.todo[0].dst].Free? then
      [Out(st.peers[t].pc.todo[0].dst, st.peers[t].pc.todo[0].msg)]
    else []
  }

  /** Between the beginning of a plan, with the record to be saved first, and its end. */
  predicate OnPlan(pc: Pc) {
    pc.Save? || pc.Next? || pc.Write? || pc.Drop?
  }

  predicate Underway(st: State, t: nat) {
    Runs(st, t) && OnPlan(st.peers[t].pc)
  }

  /** Thread `t` is sending all the time, and the table never changes. */
  predicate Steady(st: State, acts: seq<Action>, t: nat)
    decreases |acts|
  {
    Underway(st, t) && (acts != [] ==> Act(st, acts[0]).slots == st.slots && Steady(Act(st, acts[0]), acts[1..], t))
  }

  function StateAfter(st: State, acts: seq<Action>): State
    decreases |acts|
  {
    if acts == [] then st else StateAfter(Act(st, acts[0]), acts[1..])
  }

  function AllBegun(st: State, acts: seq<Action>, t: nat): seq<Out>
    decreases |acts|
  {
    if acts == [] then [] else Begun(st, acts[0], t) + AllBegun(Act(st, acts[0]), acts[1..], t)
  }

  /** Whatever the other threads do while the table stays as it is, a thread that is sending
      begins exactly the sends of its plan, in order. */
  lemma {:induction false} PlanInOrder(st: State, acts: seq<Action>, t: nat)
    requires ThreadsOk(st) && Steady(st, acts, t)
    ensures var st2 := StateAfter(st, acts);
            && t < |st2.peers|
            && AllBegun(st, acts, t) + Planned(Todo(st2.peers[t].pc), st.peers[t].home, st.slots)
               == Planned(Todo(st.peers[t].pc), st.peers[t].home, st.slots)
            && (Todo(st2.peers[t].pc) == [] ==>
                  AllBegun(st, acts, t) == Planned(Todo(st.peers[t].pc), st.peers[t].home, st.slots))
    decreases |acts|
  {
    hide Act, Planned, Begun, ThreadsOk, Todo;
    PlannedNone(st.peers[t].home, st.slots);
    if acts != [] {
      var st1 := Act(st, acts[0]);
      ThreadsKept(st, acts[0]);
      StepFollows(st, acts[0], t);
      PlanInOrder(st1, acts[1..], t);
    }
  }

  lemma StepFollows(st: State, a: Action, t: nat)
    requires ThreadsOk(st) && Underway(st, t) && Underway(Act(st, a), t)
    ensures var st2 := Act(st, a);
            && st2.peers[t].home == st.peers[t].home
            && Begun(st, a, t) + Planned(Todo(st2.peers[t].pc), st.peers[t].home, st.slots)
               == Planned(Todo(st.peers[t].pc), st.peers[t].home, st.slots)
  {
    hide Planned;
    match a {
      case Main(ch) =>
        MainIsApart(st, ch);
        hide ActMain;
      case Thread(u, ch) =>
        if Runs(st, u) {
          PcsKept(st, u, ch);
          if u == t {
            OwnStepFollows(st, t, ch);
          }
          hide ActThread;
        }
    }
  }

  lemma OwnStepFollows(st: State, t: nat, ch: Choice)
    requires Underway(st, t)
    ensures var st2 := ActThread(st, t, ch);
            Underway(st2, t) ==>
              Begun(st, Thread(t, ch), t) + Planned(Todo(st2.peers[t].pc), st.peers[t].home, st.slots)
              == Planned(Todo(st.peers[t].pc), st.peers[t].home, st.slots)
  {
    hide Planned, Pack;
    var pc := st.peers[t].pc;
    if pc.Next? {
      if pc.todo != [] {
        LookFollows(pc.todo, st.peers[t].home, st.slots);
      }
    } else {
      hide Proceed, Noted;
      assert [] + Planned(Todo(pc), st.peers[t].home, st.slots) == Planned(Todo(pc), st.peers[t].home, st.slots);
    }
  }

  lemma PlannedCons(a: Item, rest: seq<Item>, home: Bound, slots: Slots)
    ensures Planned([a] + rest, home, slots) == Planned([a], home, slots) + Planned(rest, home, slots)
  {
    PlannedOne(a, home, slots);
    assert ([a] + rest)[1..] == rest;
  }

  lemma FromStep(slots: Slots, skip: nat, m: Message, i: Bound)
    ensures From(slots, skip, m, i)
         == if i == MAX_CLIENTS then []
            else (if i != skip && slots[i].active then [Out(i, m)] else []) + From(slots, skip, m, i + 1)
  {
  }

  /** One round of a loop, or the beginning of one send, takes one step along the plan. */
  lemma LookFollows(todo: seq<Item>, home: Bound, slots: Slots)
    requires todo != []
    ensures todo[0].One? ==>
              Planned(todo, home, slots) == [Out(todo[0].dst, todo[0].msg)] + Planned(todo[1..], home, slots)
    ensures todo[0].Others? && todo[0].i == MAX_CLIENTS ==>
              Planned(todo, home, slots) == Planned(todo[1..], home, slots)
    ensures todo[0].Others? && todo[0].i < MAX_CLIENTS ==>
              var Others(i, sort, m) := todo[0];
              var next := [Others(i + 1, sort, m)] + todo[1..];
              if i != home && slots[i].active then
                var both := [One(i, sort, m), Others(i + 1, sort, m)];
                Planned(both + todo[1..], home, slots) == Planned(todo, home, slots)
              else Planned(next, home, slots) == Planned(todo, home, slots)
  {
    hide Planned, From;
    var rest := todo[1..];
    assert todo == [todo[0]] + rest;
    PlannedCons(todo[0], rest, home, slots);
    PlannedOne(todo[0], home, slots);
    if todo[0].Others? {
      var Others(i, sort, m) := todo[0];
      FromStep(slots, home, m, i);
      if i == MAX_CLIENTS {
        assert [] + Planned(rest, home, slots) == Planned(rest, home, slots);
      } else {
        var one, more := One(i, sort, m), Others(i + 1, sort, m);
        PlannedCons(more, rest, home, slots);
        PlannedOne(more, home, slots);
        PlannedCons(one, [more] + rest, home, slots);
        PlannedOne(one, home, slots);
        assert [one] + ([more] + rest) == [one, more] + rest;
        var f := From(slots, home, m, i + 1);
        assert [Out(i, m)] + (f + Planned(rest, home, slots)) == ([Out(i, m)] + f) + Planned(rest, home, slots);
        assert [] + f == f;
      }
    }
  }

  // ---------- what one slot gets of a plan ----------

  /** The loop from `i` on sends to slot `j` once if it is ahead, active and not the sender. */
  lemma {:induction false} FromReaches(slots: Slots, skip: nat, m: Message, i: Bound, j: Index)
    ensures For(From(slots, skip, m, i), j) == if i <= j && j != skip && slots[j].active then [m] else []
    decreases MAX_CLIENTS - i
  {
    hide For;
    ForNone(j);
    if i < MAX_CLIENTS {
      FromReaches(slots, skip, m, i + 1, j);
      var one := if i != skip && slots[i].active then [Out(i, m)] else [];
      ForConcat(one, From(slots, skip, m, i + 1), j);
      ForAppend([], Out(i, m), j);
      assert [] + [Out(i, m)] == [Out(i, m)];
    }
  }

  /** What a plan holds for slot `j` depends on the table only through its `active` flag. */
  lemma {:induction false} PlannedAgrees(todo: seq<Item>, home: Bound, a: Slots, b: Slots, j: Index)
    requires a[j].active == b[j].active
    ensures For(Planned(todo, home, a), j) == For(Planned(todo, home, b), j)
  {
    hide For, From;
    if todo != [] {
      PlannedAgrees(todo[1..], home, a, b, j);
      if todo[0].One? {
        ForConcat([Out(todo[0].dst, todo[0].msg)], Planned(todo[1..], home, a), j);
        ForConcat([Out(todo[0].dst, todo[0].msg)], Planned(todo[1..], home, b), j);
      } else {
        FromReaches(a, home, todo[0].msg, todo[0].i, j);
        FromReaches(b, home, todo[0].msg, todo[0].i, j);
        ForConcat(From(a, home, todo[0].msg, todo[0].i), Planned(todo[1..], home, a), j);
        ForConcat(From(b, home, todo[0].msg, todo[0].i), Planned(todo[1..], home, b), j);
      }
    }
  }

  /** Thread `t` is sending all the time, and slot `j` does not log in or out. */
  predicate SteadyFor(st: State, acts: seq<Action>, t: nat, j: Index)
    decreases |acts|
  {
    && Underway(st, t)
    && (acts != [] ==>
          && Act(st, acts[0]).slots[j].active == st.slots[j].active
          && SteadyFor(Act(st, acts[0]), acts[1..], t, j))
  }

  /** Whatever the other threads and the rest of the table do, slot `j` is sent what the plan
      holds for it, provided it does not itself log in or out meanwhile. */
  lemma {:induction false} PlanFollowed(st: State, acts: seq<Action>, t: nat, j: Index)
    requires ThreadsOk(st) && SteadyFor(st, acts, t, j)
    ensures var st2 := StateAfter(st, acts);
            && t < |st2.peers|
            && For(AllBegun(st, acts, t), j) + For(Planned(Todo(st2.peers[t].pc), st.peers[t].home, st2.slots), j)
               == For(Planned(Todo(st.peers[t].pc), st.peers[t].home, st.slots), j)
    decreases |acts|
  {
    hide Act, Planned, Begun, ThreadsOk, Todo, For;
    var home := st.peers[t].home;
    if acts == [] {
      ForNone(j);
      assert [] + For(Planned(Todo(st.peers[t].pc), home, st.slots), j)
          == For(Planned(Todo(st.peers[t].pc), home, st.slots), j);
    } else {
      var st1 := Act(st, acts[0]);
      ThreadsKept(st, acts[0]);
      StepFollows(st, acts[0], t);
      PlanFollowed(st1, acts[1..], t, j);
      var todo1 := Todo(st1.peers[t].pc);
      PlannedAgrees(todo1, home, st.slots, st1.slots, j);
      ForConcat(Begun(st, acts[0], t), Planned(todo1, home, st.slots), j);
      ForConcat(Begun(st, acts[0], t), AllBegun(st1, acts[1..], t), j);
      FollowedOn(st, acts, t, j);
    }
  }

  /** The arithmetic of the step above: the first send, the later ones, what is left. */
  lemma FollowedOn(st: State, acts: seq<Action>, t: nat, j: Index)
    requires acts != []
    ensures AllBegun(st, acts, t) == Begun(st, acts[0], t) + AllBegun(Act(st, acts[0]), acts[1..], t)
    ensures StateAfter(st, acts) == StateAfter(Act(st, acts[0]), acts[1..])
  {
    hide Act, Begun;
  }

  /** A plan that begins with a loop over the other slots, come to its end in any interleaving:
      a slot that was active all the while has been sent the loop's message exactly once, one
      that was inactive never, and the sender itself never; and then whatever the rest of the
      plan holds for it, which for the sender of a broadcast is its acknowledgement. */
  lemma LoopReaches(st: State, acts: seq<Action>, t: nat, j: Index)
    requires ThreadsOk(st) && SteadyFor(st, acts, t, j)
    requires var todo := Todo(st.peers[t].pc); todo != [] && todo[0].Others? && todo[0].i == 0
    requires var st2 := StateAfter(st, acts); t < |st2.peers| && Todo(st2.peers[t].pc) == []
    ensures var todo, home := Todo(st.peers[t].pc), st.peers[t].home;
            For(AllBegun(st, acts, t), j)
            == (if j != home && st.slots[j].active then [todo[0].msg] else [])
               + For(Planned(todo[1..], home, st.slots), j)
  {
    hide Act, Planned, From, Begun, ThreadsOk, Todo, For, AllBegun, StateAfter;
    var todo, home := Todo(st.peers[t].pc), st.peers[t].home;
    PlanFollowed(st, acts, t, j);
    PlannedNone(home, StateAfter(st, acts).slots);
    ForNone(j);
    assert For(AllBegun(st, acts, t), j) + [] == For(AllBegun(st, acts, t), j);
    assert todo == [todo[0]] + todo[1..];
    PlannedCons(todo[0], todo[1..], home, st.slots);
    PlannedOne(todo[0], home, st.slots);
    ForConcat(From(st.slots, home, todo[0].msg, 0), Planned(todo[1..], home, st.slots), j);
    FromReaches(st.slots, home, todo[0].msg, 0, j);
  }

  /** A broadcast, from the moment its request is read to the end of its plan: every other slot
      gets the message once if it was active all the while and never if it was inactive, and
      the sender gets its acknowledgement and nothing else. */
  lemma BroadcastReaches(st: State, t: nat, ch: Choice, acts: seq<Action>, j: Index)
    requires Good(st) && Runs(st, t) && st.peers[t].pc.Recv? && ch.msg.Some?
    requires ch.msg.value.kind == MSG_BROADCAST && st.slots[st.peers[t].home].active
    requires SteadyFor(Receive(st, t, ch), acts, t, j)
    requires var st2 := StateAfter(Receive(st, t, ch), acts); t < |st2.peers| && Todo(st2.peers[t].pc) == []
    ensures var m, home := ch.msg.value, st.peers[t].home;
            For(AllBegun(Receive(st, t, ch), acts, t), j)
            == if j == home then [Say(MSG_ACK, CStr(m.sender), [], ch.now)]
               else if st.slots[j].active then [m] else []
  {
    var m, home, st1 := ch.msg.value, st.peers[t].home, Receive(st, t, ch);
    var ack := Say(MSG_ACK, CStr(m.sender), [], ch.now);
    BroadcastPlan(st, t, ch);
    hide CStr, Say, Receive, For, Planned, AllBegun, StateAfter, SteadyFor, Good, Todo;
    hide ThreadsOk;
    ReceivedOk(st, t, ch);
    LoopReaches(st1, acts, t, j);
    assert [Others(0, Copy, m), One(home, Answer, ack)][1..] == [One(home, Answer, ack)];
    PlannedOne(One(home, Answer, ack), home, st.slots);
    ForNone(j);
    ForAppend([], Out(home, ack), j);
    assert [] + [Out(home, ack)] == [Out(home, ack)];
  }

  lemma BroadcastPlan(st: State, t: nat, ch: Choice)
    requires Runs(st, t) && st.peers[t].pc.Recv? && ch.msg.Some?
    requires ch.msg.value.kind == MSG_BROADCAST && st.slots[st.peers[t].home].active
    ensures var m, home, st1 := ch.msg.value, st.peers[t].home, Receive(st, t, ch);
            && t < |st1.peers| && st1.slots == st.slots && st1.peers[t].home == home
            && Todo(st1.peers[t].pc)
               == [Others(0, Copy, m), One(home, Answer, Say(MSG_ACK, CStr(m.sender), [], ch.now))]
  {
    hide CStr, Say, LogOf, History.Reply;
  }

  lemma ReceivedOk(st: State, t: nat, ch: Choice)
    requires Good(st) && Runs(st, t) && st.peers[t].pc.Recv?
    ensures ThreadsOk(Receive(st, t, ch))
  {
    GoodParts(st);
    hide Good, ActThread, Receive, ThreadsOk;
    ThreadsKept(st, Thread(t, ch));
    ReceiveIs(st, t, ch);
  }

  lemma ReceiveIs(st: State, t: nat, ch: Choice)
    requires Runs(st, t) && st.peers[t].pc.Recv?
    ensures Act(st, Thread(t, ch)) == Receive(st, t, ch)
  {
    hide Receive;
  }

  // ---------- the record of a request ----------

  /** A step of somebody else leaves a running thread, its request and its slot's number alone. */
  lemma OthersAside(st: State, a: Action, t: nat)
    requires ThreadsOk(st) && Runs(st, t) && (a.Thread? ==> a.t != t)
    ensures var st2 := Act(st, a);
            && Runs(st2, t)
            && st2.peers[t].pc == st.peers[t].pc
            && st2.peers[t].requests == st.peers[t].requests
  {
    match a {
      case Main(ch) =>
        hide ActMain;
        MainIsApart(st, ch);
      case Thread(u, ch) =>
        if Runs(st, u) {
          PcsKept(st, u, ch);
          RequestsAside(st, u, ch, t);
        }
        hide ActThread;
    }
  }

  lemma RequestsAside(st: State, u: nat, ch: Choice, t: nat)
    requires Runs(st, u) && t < |st.peers| && t != u
    ensures t < |ActThread(st, u, ch).peers| && ActThread(st, u, ch).peers[t].requests == st.peers[t].requests
  {
    if st.peers[u].pc.Write? {
      hide Pack;
    } else if st.peers[u].pc.Next? {
    } else {
      hide Start, AfterSection, NextPhase, Touch, Noted, Push, Proceed;
    }
  }

  /** A thread about to save adds its record to the logs as it finds them, however late. */
  lemma {:induction false} SavedLater(st: State, acts: seq<Action>, t: nat, ch: Choice)
    requires ThreadsOk(st) && Runs(st, t) && st.peers[t].pc.Save?
    requires forall k :: 0 <= k < |acts| && acts[k].Thread? ==> acts[k].t != t
    ensures var st2, st3 := StateAfter(st, acts), StateAfter(st, acts + [Thread(t, ch)]);
            && st3.logs == Noted(st.peers[t].pc, Current(st.peers[t]), st2.logs, ch.stamp)
            && st3.slots == st2.slots
    decreases |acts|
  {
    hide Noted, ThreadsOk;
    if acts == [] {
      assert StateAfter(st, [] + [Thread(t, ch)]) == Act(st, Thread(t, ch)) by {
        assert [] + [Thread(t, ch)] == [Thread(t, ch)];
        hide Act;
      }
    } else {
      OthersAside(st, acts[0], t);
      ThreadsKept(st, acts[0]);
      hide Act;
      var all := acts + [Thread(t, ch)];
      assert all[0] == acts[0] && all[1..] == acts[1..] + [Thread(t, ch)];
      SavedLater(Act(st, acts[0]), acts[1..], t, ch);
    }
  }

  /** The record of a private message: whatever others do between the release of `table_lock`
      and the saving, the logs become what the step of the service makes of them as they then
      are. */
  lemma PrivateSaved(st: State, t: nat, ch: Choice, acts: seq<Action>, later: Choice)
    requires Good(st) && Runs(st, t) && st.peers[t].pc.Hold? && st.peers[t].pc.phase.End?
    requires st.peers[t].pc.phase.result.Found?
    requires forall k :: 0 <= k < |acts| && acts[k].Thread? ==> acts[k].t != t
    ensures var p, st1 := st.peers[t], ActThread(st, t, ch);
            var before, after := StateAfter(st1, acts), StateAfter(st1, acts + [Thread(t, later)]);
            var env := Env(ch.now, later.stamp, p.valid);
            after.logs == Step(Chat(st.base, before.logs), p.home, Current(p), env, false).chat.logs
  {
    var st1 := ActThread(st, t, ch);
    ReleasedToSave(st, t, ch);
    GoodParts(st);
    hide Good, LocksOk, SeatsOk, SectionsOk, Noted, Step, StateAfter;
    PcsKept(st, t, ch);
    assert ThreadsOk(st1) by {
      ThreadsKept(st, Thread(t, ch));
    }
    hide ActThread, ThreadsOk;
    SavedLater(st1, acts, t, later);
    SectionIsStep(st, t, ch, StateAfter(st1, acts).logs, later.stamp);
  }

  lemma ReleasedToSave(st: State, t: nat, ch: Choice)
    requires Runs(st, t) && st.peers[t].pc.Hold? && st.peers[t].pc.phase.End? && st.peers[t].pc.phase.result.Found?
    ensures var st1 := ActThread(st, t, ch);
            Runs(st1, t) && st1.peers[t].pc.Save? && Current(st1.peers[t]) == Current(st.peers[t])
  {
    hide CStr, Say;
  }

  /** The line a step adds to the log of `u`: that of the request a thread is about to pass on. */
  function LineSaved(st: State, a: Action, u: seq<Byte>): seq<seq<Byte>> {
    if a.Thread? && Runs(st, a.t) && st.peers[a.t].pc.Save? && CStr(Current(st.peers[a.t]).sender) == u then
      [ServiceLaws.Line(st.peers[a.t].pc.to, CStr(Current(st.peers[a.t]).payload), a.ch.stamp)]
    else []
  }

  function LinesSaved(acts: seq<Action>, u: seq<Byte>): seq<seq<Byte>> {
    if acts == [] then []
    else LinesSaved(acts[..|acts| - 1], u) + LineSaved(After(acts[..|acts| - 1]), acts[|acts| - 1], u)
  }

  lemma ActLogs(st: State, a: Action)
    ensures Act(st, a).logs
         == if a.Thread? && Runs(st, a.t) && st.peers[a.t].pc.Save? then
              Noted(st.peers[a.t].pc, Current(st.peers[a.t]), st.logs, a.ch.stamp)
            else st.logs
  {
    hide Noted, Pack, Start, NextPhase, Touch, AfterSection, Refusal, Lit;
  }

  /** In every interleaving the log of a name is exactly the lines saved under it, one after the
      other in the order of the saving. */
  lemma {:induction false} LogOfActs(acts: seq<Action>, u: seq<Byte>)
    ensures LogOf(After(acts).logs, u) == ServiceLaws.Text(LinesSaved(acts, u))
  {
    hide Act, Saved, CStr, ServiceLaws.Line, LogOf;
    if acts == [] {
      NoLogs();
      EmptyLog(u);
    } else {
      var front, a := acts[..|acts| - 1], acts[|acts| - 1];
      var st := After(front);
      LogOfActs(front, u);
      ActLogs(st, a);
      if a.Thread? && Runs(st, a.t) && st.peers[a.t].pc.Save? {
        var m := Current(st.peers[a.t]);
        ServiceLaws.SavedLine(st.logs, CStr(m.sender), st.peers[a.t].pc.to, CStr(m.payload), a.ch.stamp, u);
        ServiceLaws.TextMore(LinesSaved(front, u),
                             ServiceLaws.Line(st.peers[a.t].pc.to, CStr(m.payload), a.ch.stamp));
      }
      assert LinesSaved(front, u) + [] == LinesSaved(front, u);
    }
  }

  lemma EmptyLog(u: seq<Byte>)
    ensures LogOf(map[], u) == []
  {
  }

  // ---------- every message begun is handed to a connection ----------

  predicate Addressable(st: State, item: Item) {
    item.One? ==> st.seats[item.dst].conn.Some?
  }

  /** An active slot has a connection, and so has every slot something is planned for. */
  ghost predicate Addressed(st: State) {
    && (forall i: Index :: st.slots[i].active || st.base[i].active ==> st.seats[i].conn.Some?)
    && (forall t :: 0 <= t < |st.peers| ==> Housed(st, t))
    && (forall t, k :: 0 <= t < |st.peers| && 0 <= k < |Todo(st.peers[t].pc)| ==>
                         Addressable(st, Todo(st.peers[t].pc)[k]))
  }

  predicate Housed(st: State, t: nat)
    requires t < |st.peers|
  {
    st.peers[t].home < MAX_CLIENTS ==> st.seats[st.peers[t].home].conn.Some?
  }

  /** A slot that has had a connection keeps some; a slot becomes active only by its own thread. */
  predicate SeatsStay(st: State, st2: State) {
    && (forall i: Index :: st.seats[i].conn.Some? ==> st2.seats[i].conn.Some?)
    && (forall i: Index :: st2.slots[i].active ==> st.slots[i].active || st2.seats[i].conn.Some?)
    && (forall i: Index :: st2.base[i].active ==> st.base[i].active || st.slots[i].active)
  }

  /** Everything in a plan was in it before, is for the thread's own slot, or is for a slot that
      is or was active. */
  predicate PlanGrows(st: State, t: nat, todo: seq<Item>)
    requires t < |st.peers|
  {
    forall k :: 0 <= k < |todo| && todo[k].One? ==>
      || todo[k] in Todo(st.peers[t].pc)
      || todo[k].dst == st.peers[t].home
      || st.slots[todo[k].dst].active
      || st.base[todo[k].dst].active
  }

  lemma MainStays(st: State, ch: Choice)
    ensures SeatsStay(st, ActMain(st, ch))
  {
    hide Pack, Refusal, Lit, Hand, Break, Deliver;
  }

  lemma ThreadStays(st: State, t: nat, ch: Choice)
    requires SeatsOk(st) && Runs(st, t)
    ensures SeatsStay(st, ActThread(st, t, ch))
  {
    hide Pack, Start, AfterSection, Saved, NextPhase, Hand, Break, Deliver;
    if st.peers[t].pc.Hold? {
      assert SeatedAt(st, t);
    }
  }

  lemma ReceivePlan(st: State, t: nat, ch: Choice)
    requires Runs(st, t) && st.peers[t].pc.Recv?
    ensures PlanGrows(st, t, Todo(ActThread(st, t, ch).peers[t].pc))
  {
    hide ScanLogin, CStr, Say, Refusal, Saved, LogOf, Lit, AskedStatus, History.Reply;
  }

  lemma ReleasePlan(st: State, t: nat, ch: Choice)
    requires Good(st) && Runs(st, t) && st.peers[t].pc.Hold? && st.peers[t].pc.phase.End?
    ensures PlanGrows(st, t, Todo(ActThread(st, t, ch).peers[t].pc))
  {
    hide CStr, Say, Refusal, Saved, SnPrintf, CopiedName, Lit, Left, TableOk, LocksOk, SeatsOk, Find;
    var p := st.peers[t];
    assert Aware(p, st.base);
    FoundActive(st.base, CStr(Current(p).receiver));
  }

  lemma FoundActive(base: Slots, u: seq<Byte>)
    ensures Find(base, u) != -1 ==> base[Find(base, u)].active
  {
    FindFromSpec(base, u, 0);
  }

  lemma ProceedPlan(st: State, t: nat)
    requires Runs(st, t) && st.peers[t].pc.Next?
    ensures PlanGrows(st, t, Todo(Proceed(st, t).peers[t].pc))
  {
    hide Hand;
    if st.peers[t].pc.todo != [] && st.peers[t].pc.todo[0].One? {
      hide Begin;
      BeginPlan(st, t);
    }
  }

  lemma BeginPlan(st: State, t: nat)
    requires Runs(st, t) && st.peers[t].pc.Next? && st.peers[t].pc.todo != [] && st.peers[t].pc.todo[0].One?
    ensures Todo(Begin(st, t).peers[t].pc) == st.peers[t].pc.todo[1..]
  {
  }

  lemma PushPlan(st: State, t: nat, ch: Choice)
    requires Runs(st, t) && st.peers[t].pc.Write?
    ensures Todo(Push(st, t, ch).peers[t].pc) == Todo(st.peers[t].pc)
  {
    hide Pack;
  }

  lemma OtherPlan(st: State, t: nat, ch: Choice)
    requires Runs(st, t) && !OnPlan(st.peers[t].pc) && !st.peers[t].pc.Recv?
    requires st.peers[t].pc.Hold? ==> !st.peers[t].pc.phase.End?
    ensures Todo(ActThread(st, t, ch).peers[t].pc) == []
  {
    hide NextPhase, Touch;
  }

  lemma DropPlan(st: State, t: nat)
    requires Runs(st, t) && st.peers[t].pc.Drop?
    ensures Todo(Unlock(st, t).peers[t].pc) == Todo(st.peers[t].pc)
  {
  }

  lemma SavePlan(st: State, t: nat, ch: Choice)
    requires Runs(st, t) && st.peers[t].pc.Save?
    ensures Todo(SaveRecord(st, t, ch).peers[t].pc) == Todo(st.peers[t].pc)
  {
    hide Noted;
  }

  lemma AddressedKept(st: State, a: Action)
    requires Good(st) && Addressed(st)
    ensures Addressed(Act(st, a))
  {
    GoodParts(st);
    hide Good, LocksOk, SeatsOk, SectionsOk, ActMain, ActThread, Todo;
    var st2 := Act(st, a);
    match a {
      case Main(ch) =>
        MainStays(st, ch);
        MainIsApart(st, ch);
        forall t | 0 <= t < |st2.peers|
          ensures Housed(st2, t)
        {
          MainHouses(st, ch, t);
        }
        forall t, k | 0 <= t < |st2.peers| && 0 <= k < |Todo(st2.peers[t].pc)|
          ensures Addressable(st2, Todo(st2.peers[t].pc)[k])
        {
          NothingToDo(st2.peers[t].pc);
          assert Addressable(st, Todo(st.peers[t].pc)[k]);
        }
      case Thread(t, ch) =>
        if Runs(st, t) {
          ThreadStays(st, t, ch);
          PcsKept(st, t, ch);
          OwnPlan(st, t, ch);
          hide PlanGrows;
          forall u | 0 <= u < |st2.peers|
            ensures Housed(st2, u)
          {
            assert Housed(st, u);
          }
          forall u, k | 0 <= u < |st2.peers| && 0 <= k < |Todo(st2.peers[u].pc)|
            ensures Addressable(st2, Todo(st2.peers[u].pc)[k])
          {
            if u == t {
              GrownAddressed(st, st2, t, Todo(st2.peers[t].pc), k);
            } else {
              assert Addressable(st, Todo(st.peers[u].pc)[k]);
            }
          }
        }
    }
  }

  lemma MainHouses(st: State, ch: Choice, t: nat)
    requires ThreadsOk(st) && t < |ActMain(st, ch).peers|
    requires forall u :: 0 <= u < |st.peers| ==> Housed(st, u)
    ensures Housed(ActMain(st, ch), t)
  {
    hide Pack, Refusal, Lit;
    assert t < |st.peers| ==> Housed(st, t);
  }

  lemma NothingToDo(pc: Pc)
    ensures pc.Unborn? || pc.Recv? ==> Todo(pc) == []
  {
  }

  lemma OwnPlan(st: State, t: nat, ch: Choice)
    requires Good(st) && Runs(st, t)
    ensures t < |ActThread(st, t, ch).peers| && PlanGrows(st, t, Todo(ActThread(st, t, ch).peers[t].pc))
  {
    hide Good, ActThread, Todo, PlanGrows;
    PcsKept(st, t, ch);
    OldPlan(st, t);
    if OnPlan(st.peers[t].pc) {
      SendingPlan(st, t, ch);
    } else if st.peers[t].pc.Recv? {
      ReceivePlan(st, t, ch);
    } else if st.peers[t].pc.Hold? && st.peers[t].pc.phase.End? {
      ReleasePlan(st, t, ch);
    } else {
      OtherPlan(st, t, ch);
    }
  }

  lemma SendingPlan(st: State, t: nat, ch: Choice)
    requires Runs(st, t) && OnPlan(st.peers[t].pc)
    ensures PlanGrows(st, t, Todo(ActThread(st, t, ch).peers[t].pc))
  {
    hide Proceed, Push, Unlock, SaveRecord, Todo, PlanGrows;
    OldPlan(st, t);
    match st.peers[t].pc {
      case Save(_, _, _) => SavePlan(st, t, ch);
      case Next(_, _) => ProceedPlan(st, t);
      case Write(_, _, _, _, _, _) => PushPlan(st, t, ch);
      case _ => DropPlan(st, t);
    }
  }

  lemma OldPlan(st: State, t: nat)
    requires Runs(st, t)
    ensures PlanGrows(st, t, Todo(st.peers[t].pc)) && PlanGrows(st, t, [])
  {
    hide Todo;
  }

  lemma GrownAddressed(st: State, st2: State, t: nat, todo: seq<Item>, k: nat)
    requires Addressed(st) && SeatsStay(st, st2) && t < |st.peers| && st.peers[t].home < MAX_CLIENTS
    requires PlanGrows(st, t, todo) && k < |todo|
    ensures Addressable(st2, todo[k])
  {
    assert Housed(st, t);
  }

  lemma InitAddressed()
    ensures Addressed(Init())
  {
  }

  lemma {:induction false} AfterAddressed(acts: seq<Action>)
    ensures Addressed(After(acts))
  {
    hide Addressed, Good, Act, Init;
    if acts == [] {
      InitAddressed();
    } else {
      AfterAddressed(acts[..|acts| - 1]);
      AfterGood(acts[..|acts| - 1]);
      AddressedKept(After(acts[..|acts| - 1]), acts[|acts| - 1]);
    }
  }

  /** In every reachable state, beginning a send of a plan hands its message to the connection
      that the destination slot holds at that moment, and to nobody else. */
  lemma BegunIsHanded(acts: seq<Action>, t: nat, ch: Choice)
    requires Begun(After(acts), Thread(t, ch), t) != []
    ensures var st, st2 := After(acts), After(acts + [Thread(t, ch)]);
            var p := st.peers[t];
            var item := p.pc.todo[0];
            && st.seats[item.dst].conn.Some? && st.seats[item.dst].conn.value < |st.peers| == |st2.peers|
            && forall c :: 0 <= c < |st.peers| ==>
                 st2.peers[c].handed == st.peers[c].handed
                                        + if st.seats[item.dst].conn == Some(c)
                                          then [Letter(t, |p.requests|, item.sort, item.msg)] else []
  {
    hide After;
    AfterAddressed(acts);
    AfterGood(acts);
    AfterOne(acts, Thread(t, ch));
    var st := After(acts);
    var item := Todo(st.peers[t].pc)[0];
    assert Addressable(st, item);
    GoodParts(st);
    hide Good, LocksOk, SectionsOk, Addressed;
    BeginHandsOver(st, t);
  }

  /** The accepting thread gives slot `i` to a new connection. */
  predicate Reseats(st: State, a: Action, i: Index) {
    a.Main? && st.main.Install? && st.main.slot == i
  }

  predicate Reseated(st: State, acts: seq<Action>, i: Index)
    decreases |acts|
  {
    acts != [] && (Reseats(st, acts[0], i) || Reseated(Act(st, acts[0]), acts[1..], i))
  }

  lemma SeatMoves(st: State, a: Action, i: Index, c: nat)
    requires Good(st) && c < |st.peers| && st.peers[c].home == i
    ensures var st2 := Act(st, a);
            && c < |st2.peers| && st2.peers[c].home == i
            && (st2.seats[i].conn == Some(c) <==> st.seats[i].conn == Some(c) && !Reseats(st, a, i))
  {
    GoodParts(st);
    hide Good, LocksOk, SectionsOk, ActMain, ActThread;
    match a {
      case Main(ch) => MainSeatMoves(st, ch, i, c);
      case Thread(t, ch) =>
        if Runs(st, t) {
          PcsKept(st, t, ch);
          ThreadSeats(st, t, ch);
        }
        hide SeatsOk;
    }
  }

  lemma MainSeatMoves(st: State, ch: Choice, i: Index, c: nat)
    requires ThreadsOk(st) && SeatsOk(st) && c < |st.peers| && st.peers[c].home == i
    ensures var st2 := ActMain(st, ch);
            && c < |st2.peers| && st2.peers[c].home == i
            && (st2.seats[i].conn == Some(c) <==> st.seats[i].conn == Some(c) && !Reseats(st, Main(ch), i))
  {
    if st.main.Install? {
      NotHomeless(st, i, c);
    }
    hide Pack, Refusal, Lit;
  }

  lemma NotHomeless(st: State, i: Index, c: nat)
    requires SeatsOk(st) && c < |st.peers| && st.peers[c].home == i && st.main.Install?
    ensures st.main.c != c
  {
  }

  /** A connection that was given slot `i` holds it for exactly as long as the slot is not given
      to another. */
  lemma {:induction false} SameConnection(st: State, acts: seq<Action>, i: Index, c: nat)
    requires Good(st) && c < |st.peers| && st.peers[c].home == i
    ensures StateAfter(st, acts).seats[i].conn == Some(c)
            <==> st.seats[i].conn == Some(c) && !Reseated(st, acts, i)
    decreases |acts|
  {
    hide Good, Act, Reseats;
    if acts != [] {
      SeatMoves(st, acts[0], i, c);
      GoodKept(st, acts[0]);
      SameConnection(Act(st, acts[0]), acts[1..], i, c);
    }
  }

  lemma {:induction false} AfterMore(acts: seq<Action>, more: seq<Action>)
    ensures After(acts + more) == StateAfter(After(acts), more)
    decreases |more|
  {
    hide Act, Init;
    if more == [] {
      assert acts + more == acts;
    } else {
      AfterOne(acts, more[0]);
      assert (acts + [more[0]]) + more[1..] == acts + more;
      AfterMore(acts + [more[0]], more[1..]);
    }
  }

  /** Connection `c` holds slot `i` when a name is looked up and found there. The message that
      is then begun for the slot, whatever has happened meanwhile, is handed to `c` exactly if
      the accepting thread has not given the slot to another connection in between. */
  lemma ReachesWhoWasFound(acts: seq<Action>, more: seq<Action>, t: nat, ch: Choice, c: nat)
    requires Begun(After(acts + more), Thread(t, ch), t) != []
    requires var i := After(acts + more).peers[t].pc.todo[0].dst; After(acts).seats[i].conn == Some(c)
    ensures var was, st, st2 := After(acts), After(acts + more), After(acts + more + [Thread(t, ch)]);
            var item := st.peers[t].pc.todo[0];
            && c < |st.peers| == |st2.peers|
            && st2.peers[c].handed == st.peers[c].handed
                                      + if Reseated(was, more, item.dst) then []
                                        else [Letter(t, |st.peers[t].requests|, item.sort, item.msg)]
  {
    hide After, Reseated, StateAfter;
    var was, st := After(acts), After(acts + more);
    var i := st.peers[t].pc.todo[0].dst;
    AfterGood(acts);
    AfterMore(acts, more);
    SeatHome(was, i, c);
    SameConnection(was, more, i, c);
    PeersStay(was, more, c);
    BegunIsHanded(acts + more, t, ch);
  }

  lemma SeatHome(st: State, i: Index, c: nat)
    requires Good(st) && st.seats[i].conn == Some(c)
    ensures c < |st.peers| && st.peers[c].home == i
  {
    hide LocksOk, ThreadsOk, SectionsOk;
  }

  lemma {:induction false} PeersStay(st: State, acts: seq<Action>, c: nat)
    requires ThreadsOk(st) && c < |st.peers|
    ensures c < |StateAfter(st, acts).peers|
    decreases |acts|
  {
    hide Act, ThreadsOk;
    if acts != [] {
      ThreadsKept(st, acts[0]);
      PeerStays(st, acts[0], c);
      PeersStay(Act(st, acts[0]), acts[1..], c);
    }
  }

  lemma PeerStays(st: State, a: Action, c: nat)
    requires ThreadsOk(st) && c < |st.peers|
    ensures c < |Act(st, a).peers|
  {
    match a {
      case Main(ch) =>
        MainIsApart(st, ch);
        hide ActMain;
      case Thread(t, ch) =>
        if Runs(st, t) {
          PcsKept(st, t, ch);
        }
        hide ActThread;
    }
  }

  lemma AfterOne(acts: seq<Action>, a: Action)
    ensures After(acts + [a]) == Act(After(acts), a)
  {
    hide Act, Init;
    assert (acts + [a])[..|acts|] == acts;
  }

  lemma BeginHandsOver(st: State, t: nat)
    requires Runs(st, t) && st.peers[t].pc.Next? && st.peers[t].pc.todo != [] && st.peers[t].pc.todo[0].One?
    ensures var p, item, st2 := st.peers[t], st.peers[t].pc.todo[0], Begin(st, t);
            && |st2.peers| == |st.peers|
            && forall c :: 0 <= c < |st.peers| ==>
                 st2.peers[c].handed == st.peers[c].handed
                                        + if st.seats[item.dst].conn == Some(c)
                                          then [Letter(t, |p.requests|, item.sort, item.msg)] else []
  {
  }
}
