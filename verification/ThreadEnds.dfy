/** How a thread of the threaded server gets on: it is back at its receive loop, or at its end,
    after a bounded number of its own steps; and when its connection is lost it clears its slot,
    tells the others and is done. */
module ThreadEnds {
  import opened Bytes
  import opened Codec
  import opened History
  import opened Scanf
  import opened ChatSpec
  import opened ThreadProtocol
  import opened ThreadLocks
  import opened ThreadTable
  import opened ThreadSections
  import opened ThreadPlans

  // ---------- steps left ----------

  const LONGEST := HEADER_SIZE + MAX_PAYLOAD_LEN

  /** The most steps an item of a plan takes: a send is its lock operations and at most one write
      for each byte; a loop looks at each slot once. */
  function ItemSteps(item: Item): nat {
    match item
    case One(_, _, _) => LONGEST + 3
    case Others(i, _, _) => 1 + (MAX_CLIENTS - i) * (LONGEST + 4)
  }

  function TodoSteps(todo: seq<Item>): nat {
    if todo == [] then 0 else ItemSteps(todo[0]) + TodoSteps(todo[1..])
  }

  const NOTE_STEPS := 1 + MAX_CLIENTS * (LONGEST + 4)

  /** From the clearing section on: the note to the others, and the closing. */
  const CLOSING := NOTE_STEPS + 2

  /** The lock, the three steps of the section, and what follows. */
  const CLEANING := 4 + CLOSING

  const REPLYING := 2 * (LONGEST + 3) + 2

  function GoalSteps(goal: Goal): nat {
    match goal
    case ToRecv => 0
    case ToClean => CLEANING
    case ToClose => 1
  }

  /** The steps left to a thread in a section. */
  function PhaseSteps(phase: Phase): nat {
    PhaseRank(phase)
    + match phase
      case LogoutClear(_) => NOTE_STEPS + 1 + CLEANING
      case LogoutWipe(_) => NOTE_STEPS + 1 + CLEANING
      case CleanClear => CLOSING
      case CleanWipe(_, _) => CLOSING
      case End(result) =>
        (if result.LoggedOut? then NOTE_STEPS + 1 + CLEANING else if result.Cleared? then CLOSING else REPLYING)
      case _ => REPLYING
  }

  /** The most steps of its own that a thread can take before it is back at its receive loop or
      at its end. */
  function StepsLeft(pc: Pc): nat {
    match pc
    case Wait(phase) => 1 + PhaseSteps(phase)
    case Hold(phase) => PhaseSteps(phase)
    case Save(_, todo, goal) => 1 + TodoSteps(todo) + 1 + GoalSteps(goal)
    case Next(todo, goal) => TodoSteps(todo) + 1 + GoalSteps(goal)
    case Write(_, _, m, off, todo, goal) =>
      (if off >= |Pack(m)| then 2 else |Pack(m)| - off + 2) + TodoSteps(todo) + 1 + GoalSteps(goal)
    case Drop(_, todo, goal) => 1 + TodoSteps(todo) + 1 + GoalSteps(goal)
    case Close => 1
    case _ => 0
  }

  /** Neither in the receive loop nor at the end. */
  predicate Occupied(pc: Pc) {
    !pc.Recv? && !pc.Done? && !pc.Unborn?
  }

  lemma FrameFits(m: Message)
    ensures HEADER_SIZE <= |Pack(m)| <= LONGEST
  {
  }

  lemma TodoOne(a: Item)
    ensures TodoSteps([a]) == ItemSteps(a)
  {
    assert [a][1..] == [];
  }

  lemma TodoTwo(a: Item, b: Item)
    ensures TodoSteps([a, b]) == ItemSteps(a) + ItemSteps(b)
  {
    TodoOne(b);
    assert [a, b][1..] == [b];
  }

  lemma TodoMore(a: Item, rest: seq<Item>)
    ensures TodoSteps([a] + rest) == ItemSteps(a) + TodoSteps(rest)
  {
    assert ([a] + rest)[1..] == rest;
  }

  lemma ReleaseLowers(result: Result, s: Index, req: Message, ch: Choice)
    ensures StepsLeft(AfterSection(result, s, req, ch)) < PhaseSteps(End(result))
  {
    hide CStr, Say, Refusal, SnPrintf, CopiedName, Lit, Left, TodoSteps;
    var pc := AfterSection(result, s, req, ch);
    if !pc.Close? {
      TodoOne(pc.todo[0]);
      if |pc.todo| == 2 {
        TodoTwo(pc.todo[0], pc.todo[1]);
      }
    }
  }

  lemma PhaseStepsLower(phase: Phase, slots: Slots, s: Index, valid: Oracle)
    requires !phase.End?
    ensures PhaseSteps(NextPhase(phase, slots, s, valid)) < PhaseSteps(phase)
  {
    hide Entry, Lit;
  }

  lemma ProceedLowers(st: State, t: nat)
    requires Runs(st, t) && st.peers[t].pc.Next?
    ensures var pc, pc2 := st.peers[t].pc, Proceed(st, t).peers[t].pc;
            pc2 == pc || StepsLeft(pc2) < StepsLeft(pc)
    ensures Proceed(st, t).peers[t].pc == st.peers[t].pc ==>
              var todo := st.peers[t].pc.todo;
              todo != [] && todo[0].One? && !st.sendLock[todo[0].dst].Free?
  {
    var pc := st.peers[t].pc;
    var todo, goal := pc.todo, pc.goal;
    if todo == [] {
      ArriveLowers(st, t);
    } else if todo[0].One? {
      BeginLowers(st, t);
    } else {
      hide TodoSteps;
      LookLowers(todo, st.peers[t].home, st.slots);
    }
  }

  lemma ArriveLowers(st: State, t: nat)
    requires Runs(st, t) && st.peers[t].pc.Next? && st.peers[t].pc.todo == []
    ensures StepsLeft(Proceed(st, t).peers[t].pc) < StepsLeft(st.peers[t].pc)
  {
    hide TodoSteps;
  }

  lemma BeginLowers(st: State, t: nat)
    requires Runs(st, t) && st.peers[t].pc.Next? && st.peers[t].pc.todo != [] && st.peers[t].pc.todo[0].One?
    ensures var pc, pc2 := st.peers[t].pc, Proceed(st, t).peers[t].pc;
            if st.sendLock[pc.todo[0].dst].Free? then pc2 != pc && StepsLeft(pc2) < StepsLeft(pc) else pc2 == pc
  {
    var pc := st.peers[t].pc;
    FrameFits(pc.todo[0].msg);
    BegunPc(st, t);
    SendSteps(pc.todo, pc.goal, pc.todo[0].dst, pc.todo[0].msg);
    hide Begin, StepsLeft, Pack, TodoSteps;
  }

  lemma BegunPc(st: State, t: nat)
    requires Runs(st, t) && st.peers[t].pc.Next? && st.peers[t].pc.todo != [] && st.peers[t].pc.todo[0].One?
    ensures var pc, pc2 := st.peers[t].pc, Begin(st, t).peers[t].pc;
            || pc2 == Drop(pc.todo[0].dst, pc.todo[1..], pc.goal)
            || exists c :: pc2 == Write(pc.todo[0].dst, c, pc.todo[0].msg, 0, pc.todo[1..], pc.goal)
  {
  }

  lemma SendSteps(todo: seq<Item>, goal: Goal, dst: Index, m: Message)
    requires todo != [] && todo[0].One? && HEADER_SIZE <= |Pack(m)| <= LONGEST
    ensures StepsLeft(Drop(dst, todo[1..], goal)) < StepsLeft(Next(todo, goal))
    ensures forall c :: StepsLeft(Write(dst, c, m, 0, todo[1..], goal)) < StepsLeft(Next(todo, goal))
  {
    hide Pack;
  }

  lemma LookLowers(todo: seq<Item>, home: Bound, slots: Slots)
    requires todo != [] && todo[0].Others?
    ensures var Others(i, sort, m) := todo[0];
            var n := TodoSteps(todo);
            && (i == MAX_CLIENTS ==> TodoSteps(todo[1..]) < n)
            && (i < MAX_CLIENTS ==>
                  && TodoSteps([One(i, sort, m), Others(i + 1, sort, m)] + todo[1..]) < n
                  && TodoSteps([Others(i + 1, sort, m)] + todo[1..]) < n)
  {
    hide TodoSteps;
    var Others(i, sort, m) := todo[0];
    var rest := todo[1..];
    assert [todo[0]] + rest == todo;
    TodoMore(todo[0], rest);
    if i < MAX_CLIENTS {
      var one, more := One(i, sort, m), Others(i + 1, sort, m);
      TodoMore(more, rest);
      TodoMore(one, [more] + rest);
      assert [one] + ([more] + rest) == [one, more] + rest;
      assert (MAX_CLIENTS - i) * (LONGEST + 4) == (MAX_CLIENTS - i - 1) * (LONGEST + 4) + (LONGEST + 4);
    }
  }

  lemma PushLowersSteps(st: State, t: nat, ch: Choice)
    requires Runs(st, t) && st.peers[t].pc.Write?
    ensures var pc, pc2 := st.peers[t].pc, Push(st, t, ch).peers[t].pc;
            if ch.n == 0 then pc2 == pc else StepsLeft(pc2) < StepsLeft(pc)
  {
    hide Pack, TodoSteps;
  }

  /** Every step of an occupied thread brings it nearer to its receive loop or its end, or leaves
      it where it is; and that only while a lock it asks for is taken, or a signal cuts a write
      short. */
  lemma EveryStepCounts(st: State, t: nat, ch: Choice)
    requires Runs(st, t) && Occupied(st.peers[t].pc)
    ensures var pc, pc2 := st.peers[t].pc, ActThread(st, t, ch).peers[t].pc;
            && (pc2 == pc || StepsLeft(pc2) < StepsLeft(pc))
            && (pc2 == pc ==>
                  (exists l :: Waits(st, Client(t), l) && !OwnerOf(st, l).Free?) || (pc.Write? && ch.n == 0))
    ensures StepsLeft(st.peers[t].pc) > 0
  {
    hide Receive, Enter, Work, Release, SaveRecord, Proceed, Push, Unlock, Shut, TodoSteps, Pack, PhaseSteps;
    var p := st.peers[t];
    match p.pc {
      case Wait(_) => QuickLowers(st, t, ch);
      case Hold(phase) =>
        if phase.End? {
          ReleaseLowers(phase.result, p.home, Current(p), ch);
          ReleasePc(st, t, ch);
        } else {
          PhaseStepsLower(phase, st.slots, p.home, p.valid);
          WorkPc(st, t, ch);
        }
      case Next(_, _) => ProceedLowers(st, t);
      case Write(_, _, _, _, _, _) => PushLowersSteps(st, t, ch);
      case _ => QuickLowers(st, t, ch);
    }
    AsksFor(st, t);
  }

  lemma ReleasePc(st: State, t: nat, ch: Choice)
    requires Runs(st, t) && st.peers[t].pc.Hold? && st.peers[t].pc.phase.End?
    ensures var p := st.peers[t];
            Release(st, t, ch).peers[t].pc == AfterSection(p.pc.phase.result, p.home, Current(p), ch)
  {
    hide AfterSection;
  }

  lemma WorkPc(st: State, t: nat, ch: Choice)
    requires Runs(st, t) && st.peers[t].pc.Hold? && !st.peers[t].pc.phase.End?
    ensures var p := st.peers[t];
            Work(st, t, ch).peers[t].pc == Hold(NextPhase(p.pc.phase, st.slots, p.home, p.valid))
  {
    hide NextPhase, Touch;
  }

  lemma QuickLowers(st: State, t: nat, ch: Choice)
    requires Runs(st, t)
    ensures var pc := st.peers[t].pc;
            && (pc.Wait? ==> Enter(st, t).peers[t].pc == if st.tableLock.Free? then Hold(pc.phase) else pc)
            && (pc.Save? ==> GoesOn(SaveRecord(st, t, ch).peers[t].pc, pc))
            && (pc.Drop? ==> GoesOn(Unlock(st, t).peers[t].pc, pc))
            && (pc.Close? ==> Shut(st, t).peers[t].pc == Done)
  {
    hide Noted, TodoSteps;
  }

  /** The plan goes on unchanged. */
  predicate GoesOn(pc2: Pc, pc: Pc)
    requires pc.Save? || pc.Drop?
  {
    pc2 == Next(pc.todo, pc.goal)
  }

  lemma AsksFor(st: State, t: nat)
    requires Runs(st, t)
    ensures st.peers[t].pc.Wait? ==> Waits(st, Client(t), Table) && OwnerOf(st, Table) == st.tableLock
    ensures var pc := st.peers[t].pc;
            pc.Next? && pc.todo != [] && pc.todo[0].One? ==>
              && Waits(st, Client(t), Send(pc.todo[0].dst))
              && OwnerOf(st, Send(pc.todo[0].dst)) == st.sendLock[pc.todo[0].dst]
  {
  }

  /** The steps by which thread `t` gets on. */
  function OwnSteps(st: State, acts: seq<Action>, t: nat): nat
    decreases |acts|
  {
    if acts == [] then 0
    else
      var st2 := Act(st, acts[0]);
      (if t < |st.peers| && t < |st2.peers| && st2.peers[t].pc != st.peers[t].pc then 1 else 0)
      + OwnSteps(st2, acts[1..], t)
  }

  /** Thread `t` is occupied all the time. */
  predicate Away(st: State, acts: seq<Action>, t: nat)
    decreases |acts|
  {
    && Runs(st, t) && !st.peers[t].pc.Recv?
    && (acts != [] ==> Away(Act(st, acts[0]), acts[1..], t))
  }

  /** In any interleaving a thread that has left its receive loop takes at most `StepsLeft` steps
      before it is back there, or at its end; while it is neither, only a taken lock or a signal
      keeps its next step from being one of them. */
  lemma {:induction false} BackInTime(st: State, acts: seq<Action>, t: nat)
    requires ThreadsOk(st) && Away(st, acts, t)
    ensures var st2 := StateAfter(st, acts);
            && Runs(st2, t)
            && OwnSteps(st, acts, t) + StepsLeft(st2.peers[t].pc) <= StepsLeft(st.peers[t].pc)
            && (StepsLeft(st2.peers[t].pc) == 0 ==> st2.peers[t].pc.Done?)
    decreases |acts|
  {
    hide Act, ThreadsOk, StepsLeft;
    if acts == [] {
      AtTheEnd(st.peers[t].pc);
    } else {
      ThreadsKept(st, acts[0]);
      OneStepCounts(st, acts[0], t);
      BackInTime(Act(st, acts[0]), acts[1..], t);
    }
  }

  lemma AtTheEnd(pc: Pc)
    ensures StepsLeft(pc) == 0 ==> pc.Recv? || pc.Done? || pc.Unborn?
  {
    hide TodoSteps, PhaseSteps, Pack;
    match pc {
      case Hold(phase) => PhasePositive(phase);
      case _ =>
    }
  }

  lemma PhasePositive(phase: Phase)
    ensures PhaseSteps(phase) > 0
  {
  }

  lemma OneStepCounts(st: State, a: Action, t: nat)
    requires ThreadsOk(st) && Runs(st, t) && !st.peers[t].pc.Recv?
    ensures var st2 := Act(st, a);
            && Runs(st2, t)
            && var pc, pc2 := st.peers[t].pc, st2.peers[t].pc;
               pc2 == pc || StepsLeft(pc2) < StepsLeft(pc)
  {
    hide StepsLeft;
    if a.Thread? && a.t == t {
      PcsKept(st, t, a.ch);
      if Occupied(st.peers[t].pc) {
        EveryStepCounts(st, t, a.ch);
      } else {
        DoneStays(st, t, a.ch);
      }
      hide ActThread;
    } else {
      OthersAside(st, a, t);
    }
  }

  lemma DoneStays(st: State, t: nat, ch: Choice)
    requires Runs(st, t) && st.peers[t].pc.Done?
    ensures ActThread(st, t, ch) == st
  {
  }

  // ---------- the way out ----------

  /** On the way from a LOGOUT, or from a lost connection, to the end. */
  predicate Leaving(pc: Pc) {
    match pc
    case Wait(phase) => PhaseLeaving(phase)
    case Hold(phase) => PhaseLeaving(phase)
    case Save(_, _, goal) => !goal.ToRecv?
    case Next(_, goal) => !goal.ToRecv?
    case Write(_, _, _, _, _, goal) => !goal.ToRecv?
    case Drop(_, _, goal) => !goal.ToRecv?
    case Close => true
    case Done => true
    case _ => false
  }

  predicate PhaseLeaving(phase: Phase) {
    || phase.LogoutClear? || phase.LogoutWipe? || phase.CleanClear? || phase.CleanWipe?
    || (phase.End? && (phase.result.LoggedOut? || phase.result.Cleared?))
  }

  /** A thread that sends keeps its goal until it arrives there. */
  predicate SameGoal(pc: Pc, pc2: Pc)
    requires OnPlan(pc)
  {
    if pc.Next? && pc.todo == [] then pc2 == Arrive(pc.goal)
    else (pc2.Next? || pc2.Write? || pc2.Drop?) && pc2.goal == pc.goal
  }

  lemma SendKeepsGoal(st: State, t: nat, ch: Choice)
    requires Runs(st, t) && OnPlan(st.peers[t].pc)
    ensures SameGoal(st.peers[t].pc, ActThread(st, t, ch).peers[t].pc)
  {
    hide Proceed, Push, Unlock, SaveRecord, SameGoal;
    match st.peers[t].pc {
      case Next(_, _) => ProceedGoal(st, t);
      case Write(_, _, _, _, _, _) => PushGoal(st, t, ch);
      case _ => QuickGoal(st, t, ch);
    }
  }

  lemma ProceedGoal(st: State, t: nat)
    requires Runs(st, t) && st.peers[t].pc.Next?
    ensures SameGoal(st.peers[t].pc, Proceed(st, t).peers[t].pc)
  {
    if st.peers[t].pc.todo != [] && st.peers[t].pc.todo[0].One? {
      BegunPc(st, t);
      hide Begin;
    }
  }

  lemma PushGoal(st: State, t: nat, ch: Choice)
    requires Runs(st, t) && st.peers[t].pc.Write?
    ensures SameGoal(st.peers[t].pc, Push(st, t, ch).peers[t].pc)
  {
    hide Pack;
  }

  lemma QuickGoal(st: State, t: nat, ch: Choice)
    requires Runs(st, t)
    ensures st.peers[t].pc.Save? ==> SameGoal(st.peers[t].pc, SaveRecord(st, t, ch).peers[t].pc)
    ensures st.peers[t].pc.Drop? ==> SameGoal(st.peers[t].pc, Unlock(st, t).peers[t].pc)
  {
    hide Noted;
  }

  /** Only the receive loop adds requests. */
  lemma OwnRequests(st: State, t: nat, ch: Choice)
    requires Runs(st, t) && !st.peers[t].pc.Recv?
    ensures ActThread(st, t, ch).peers[t].requests == st.peers[t].requests
  {
    if st.peers[t].pc.Write? {
      hide Pack;
    } else if st.peers[t].pc.Next? {
    } else {
      hide AfterSection, NextPhase, Touch, Noted, Push, Proceed;
    }
  }

  lemma OwnLeaving(st: State, t: nat, ch: Choice)
    requires Runs(st, t) && Leaving(st.peers[t].pc)
    ensures var st2 := ActThread(st, t, ch);
            && Leaving(st2.peers[t].pc)
            && st2.peers[t].requests == st.peers[t].requests
  {
    OwnRequests(st, t, ch);
    hide Receive, Enter, Work, Release, SaveRecord, Proceed, Push, Unlock, Shut;
    var p := st.peers[t];
    match p.pc {
      case Wait(_) => QuickLowers(st, t, ch);
      case Hold(phase) =>
        if phase.End? {
          ReleasePc(st, t, ch);
          ResultLeaving(phase.result, p.home, Current(p), ch);
        } else {
          WorkPc(st, t, ch);
          NextLeaving(phase, st.slots, p.home, p.valid);
        }
      case Close => QuickLowers(st, t, ch);
      case Done =>
      case _ => SendKeepsGoal(st, t, ch);
    }
  }

  lemma ResultLeaving(result: Result, s: Index, req: Message, ch: Choice)
    requires result.LoggedOut? || result.Cleared?
    ensures Leaving(AfterSection(result, s, req, ch))
  {
    hide CStr, Say, Refusal, SnPrintf, CopiedName, Lit, Left;
  }

  lemma NextLeaving(phase: Phase, slots: Slots, s: Index, valid: Oracle)
    requires PhaseLeaving(phase) && !phase.End?
    ensures PhaseLeaving(NextPhase(phase, slots, s, valid))
  {
  }

  lemma StillLeaving(st: State, a: Action, t: nat)
    requires ThreadsOk(st) && Runs(st, t) && Leaving(st.peers[t].pc)
    ensures var st2 := Act(st, a);
            && Runs(st2, t)
            && Leaving(st2.peers[t].pc)
            && st2.peers[t].requests == st.peers[t].requests
  {
    if a.Thread? && a.t == t {
      PcsKept(st, t, a.ch);
      OwnLeaving(st, t, a.ch);
      hide ActThread, Leaving;
    } else {
      hide Leaving;
      OthersAside(st, a, t);
    }
  }

  /** A thread on its way out never reads again: whatever the others do, it acts on no further
      request, and it is done after at most `StepsLeft` steps of its own. */
  lemma {:induction false} LeavesInTime(st: State, acts: seq<Action>, t: nat)
    requires ThreadsOk(st) && Runs(st, t) && Leaving(st.peers[t].pc)
    ensures var st2 := StateAfter(st, acts);
            && Runs(st2, t) && Leaving(st2.peers[t].pc)
            && st2.peers[t].requests == st.peers[t].requests
            && OwnSteps(st, acts, t) + StepsLeft(st2.peers[t].pc) <= StepsLeft(st.peers[t].pc)
            && (StepsLeft(st2.peers[t].pc) == 0 <==> st2.peers[t].pc.Done?)
    decreases |acts|
  {
    hide Act, ThreadsOk, StepsLeft, Leaving;
    LeavingPc(st.peers[t].pc);
    if acts != [] {
      ThreadsKept(st, acts[0]);
      OneStepCounts(st, acts[0], t);
      StillLeaving(st, acts[0], t);
      LeavesInTime(Act(st, acts[0]), acts[1..], t);
    }
  }

  lemma LeavingPc(pc: Pc)
    requires Leaving(pc)
    ensures !pc.Recv? && !pc.Unborn?
    ensures StepsLeft(pc) == 0 <==> pc.Done?
  {
    hide StepsLeft, PhaseLeaving;
    AtTheEnd(pc);
    DoneIsZero();
  }

  lemma DoneIsZero()
    ensures StepsLeft(Done) == 0
  {
  }

  // ---------- a lost connection ----------

  /** Before the release of its section: the thread still has to clear its slot, which held `was`
      when the table was last free, and gives it back on the way. */
  predicate Clearing(st: State, t: nat, was: Slot) {
    && Runs(st, t)
    && var p := st.peers[t];
       && (p.pc.Wait? || p.pc.Hold?)
       && (p.pc.phase.CleanClear?
           || (p.pc.Hold? && !st.seats[p.home].inUse
               && (p.pc.phase.CleanWipe? || (p.pc.phase.End? && p.pc.phase.result.Cleared?))))
       && st.base[p.home] == was
  }

  /** After it: announcing, closing or done. */
  predicate Announcing(pc: Pc) {
    match pc
    case Next(_, goal) => goal.ToClose?
    case Write(_, _, _, _, _, goal) => goal.ToClose?
    case Drop(_, _, goal) => goal.ToClose?
    case Close => true
    case Done => true
    case _ => false
  }

  /** Slot `j` does not log in or out meanwhile. */
  predicate Standing(st: State, acts: seq<Action>, j: Index)
    decreases |acts|
  {
    acts != [] ==> Act(st, acts[0]).slots[j].active == st.slots[j].active && Standing(Act(st, acts[0]), acts[1..], j)
  }

  /** The slot has been given back, nobody is shown in it, and nobody new has it yet. */
  predicate GivenBack(st: State, home: Index) {
    !st.base[home].active && st.base[home].name == [] && st.slots[home] == st.base[home] && !st.seats[home].inUse
  }

  /** The rest of an announcement: what the plan still holds for a slot is sent to it. */
  lemma {:induction false} RestAnnounced(st: State, acts: seq<Action>, t: nat, j: Index)
    requires ThreadsOk(st) && Runs(st, t) && Announcing(st.peers[t].pc)
    requires Standing(st, acts, j)
    requires var st2 := StateAfter(st, acts); t < |st2.peers| && st2.peers[t].pc.Done?
    ensures For(AllBegun(st, acts, t), j) == For(Planned(Todo(st.peers[t].pc), st.peers[t].home, st.slots), j)
    decreases |acts|
  {
    hide Act, Planned, Begun, ThreadsOk, For, Announcing;
    var home := st.peers[t].home;
    PlannedNone(home, st.slots);
    ForNone(j);
    if acts != [] {
      var st1 := Act(st, acts[0]);
      ThreadsKept(st, acts[0]);
      AnnouncingFollows(st, acts[0], t);
      RestAnnounced(st1, acts[1..], t, j);
      var todo1 := Todo(st1.peers[t].pc);
      PlannedAgrees(todo1, home, st.slots, st1.slots, j);
      ForConcat(Begun(st, acts[0], t), Planned(todo1, home, st.slots), j);
      ForConcat(Begun(st, acts[0], t), AllBegun(st1, acts[1..], t), j);
      FollowedOn(st, acts, t, j);
    }
  }

  lemma AnnouncingFollows(st: State, a: Action, t: nat)
    requires ThreadsOk(st) && Runs(st, t) && Announcing(st.peers[t].pc)
    ensures var st2 := Act(st, a);
            && Runs(st2, t) && Announcing(st2.peers[t].pc)
            && st2.peers[t].home == st.peers[t].home
            && Begun(st, a, t) + Planned(Todo(st2.peers[t].pc), st.peers[t].home, st.slots)
               == Planned(Todo(st.peers[t].pc), st.peers[t].home, st.slots)
  {
    hide Planned, Begun;
    if a.Thread? && a.t == t {
      PcsKept(st, t, a.ch);
      OwnAnnouncing(st, t, a.ch);
      hide ActThread, Announcing;
      PlannedNone(st.peers[t].home, st.slots);
      if Underway(st, t) && Underway(Act(st, a), t) {
        StepFollows(st, a, t);
      } else {
        NothingBegun(st, a, t);
      }
    } else {
      OthersAside(st, a, t);
      HomeStays(st, a, t);
      NotBegun(st, a, t);
      hide Act;
      assert [] + Planned(Todo(st.peers[t].pc), st.peers[t].home, st.slots)
          == Planned(Todo(st.peers[t].pc), st.peers[t].home, st.slots);
    }
  }

  lemma OwnAnnouncing(st: State, t: nat, ch: Choice)
    requires Runs(st, t) && Announcing(st.peers[t].pc)
    ensures var st2 := ActThread(st, t, ch);
            && Announcing(st2.peers[t].pc)
            && (!(Underway(st, t) && Underway(st2, t)) ==> Todo(st.peers[t].pc) == [] && Todo(st2.peers[t].pc) == [])
  {
    PcsKept(st, t, ch);
    if OnPlan(st.peers[t].pc) {
      SendKeepsGoal(st, t, ch);
    } else {
      QuickLowers(st, t, ch);
    }
    hide Proceed, Push, Unlock, SaveRecord, Shut;
  }

  lemma NothingBegun(st: State, a: Action, t: nat)
    requires t < |st.peers| && Todo(st.peers[t].pc) == []
    ensures Begun(st, a, t) == []
  {
  }

  lemma NotBegun(st: State, a: Action, t: nat)
    requires a.Thread? ==> a.t != t
    ensures Begun(st, a, t) == []
  {
  }

  lemma HomeStays(st: State, a: Action, t: nat)
    requires ThreadsOk(st) && Runs(st, t)
    ensures t < |Act(st, a).peers| && Act(st, a).peers[t].home == st.peers[t].home
  {
    match a {
      case Main(ch) =>
        MainHomes(st, ch);
        hide ActMain;
      case Thread(u, ch) =>
        if Runs(st, u) {
          PcsKept(st, u, ch);
        }
        hide ActThread;
    }
  }

  // ---------- the section of a lost connection ----------

  /** Nobody else's step changes what the table last held, or in whose use it is, for the slot of
      a thread that has it or is in its section. */
  lemma BaseHomeStays(st: State, a: Action, t: nat)
    requires Good(st) && Runs(st, t) && (a.Thread? ==> a.t != t)
    requires st.peers[t].pc.Wait? || st.peers[t].pc.Hold?
    ensures var home := st.peers[t].home;
            && Act(st, a).base[home] == st.base[home]
            && (st.peers[t].pc.Hold? && !st.seats[home].inUse ==> !Act(st, a).seats[home].inUse)
  {
    GoodParts(st);
    hide Good;
    match a {
      case Main(ch) => MainBaseHome(st, ch, t);
      case Thread(u, ch) =>
        if Runs(st, u) {
          OtherBaseHome(st, u, ch, t);
        }
        hide ActThread;
    }
  }

  lemma KeptOrHeld(st: State, t: nat)
    requires SeatsOk(st) && Runs(st, t) && (st.peers[t].pc.Wait? || st.peers[t].pc.Hold?)
    ensures Keeps(st.peers[t].pc) || st.peers[t].pc.Hold?
  {
  }

  lemma MainBaseHome(st: State, ch: Choice, t: nat)
    requires LocksOk(st) && ThreadsOk(st) && SeatsOk(st) && SectionsOk(st)
    requires Runs(st, t) && (st.peers[t].pc.Wait? || st.peers[t].pc.Hold?)
    ensures var home := st.peers[t].home;
            && ActMain(st, ch).base[home] == st.base[home]
            && (st.peers[t].pc.Hold? && !st.seats[home].inUse ==> !ActMain(st, ch).seats[home].inUse)
  {
    MainLock(st);
    KeptOrHeld(st, t);
    if st.main.Leave? {
      HomesApart(st, t, st.main.c);
    }
    HoldsTable(st, t);
    hide Pack, Refusal, Lit, SeatsOk, TableOk, Hand, Break, Deliver, LocksOk;
  }

  lemma HoldsTable(st: State, t: nat)
    requires LocksOk(st) && t < |st.peers|
    ensures st.peers[t].pc.Hold? <==> st.tableLock == Client(t)
  {
  }

  lemma OtherBaseHome(st: State, u: nat, ch: Choice, t: nat)
    requires LocksOk(st) && ThreadsOk(st) && SeatsOk(st) && SectionsOk(st)
    requires Runs(st, t) && (st.peers[t].pc.Wait? || st.peers[t].pc.Hold?) && Runs(st, u) && u != t
    ensures var home := st.peers[t].home;
            && ActThread(st, u, ch).base[home] == st.base[home]
            && (!st.seats[home].inUse ==> !ActThread(st, u, ch).seats[home].inUse)
  {
    KeptOrHeld(st, t);
    HoldsTable(st, u);
    ThreadSeats(st, u, ch);
    if st.peers[u].pc.Hold? && st.peers[u].pc.phase.End? {
      HomesApart(st, t, u);
      ReleaseBase(st, u, ch);
      ReleaseSlots(st, u, ch);
    } else {
      OtherBase(st, u, ch);
    }
    hide ActThread, SeatsOk, TableOk, Shown, LocksOk;
  }

  lemma ReleaseSlots(st: State, t: nat, ch: Choice)
    requires Runs(st, t) && st.peers[t].pc.Hold? && st.peers[t].pc.phase.End?
    ensures ActThread(st, t, ch).slots == st.slots && ActThread(st, t, ch).seats == st.seats
  {
    hide AfterSection, CStr;
  }

  /** A step of the thread itself in its section, or at the lock before it. */
  lemma OwnClearing(st: State, t: nat, ch: Choice, was: Slot)
    requires Good(st) && Clearing(st, t, was)
    ensures var p, st2 := st.peers[t], ActThread(st, t, ch);
            && Todo(p.pc) == []
            && if p.pc.Hold? && p.pc.phase.End? then
                 && GivenBack(st2, p.home)
                 && st2.peers[t].home == p.home
                 && Announcing(st2.peers[t].pc)
                 && st2.slots == st.slots
                 && Todo(st2.peers[t].pc)
                    == (if was.active then [Others(0, Note, Farewell(was.name, ch.junk, ch.now))] else [])
               else Clearing(st2, t, was)
  {
    GoodParts(st);
    var p := st.peers[t];
    PcsKept(st, t, ch);
    if p.pc.Hold? && p.pc.phase.End? {
      SectionClears(st, t, ch);
      ReleaseSlots(st, t, ch);
      ReleaseBase(st, t, ch);
      hide ActThread, Good, LocksOk, SeatsOk, SectionsOk, Farewell;
    } else {
      hide Good, LocksOk, SeatsOk, SectionsOk, Saved, CStr, Farewell, ThreadsOk;
    }
  }

  lemma StillClearing(st: State, a: Action, t: nat, was: Slot)
    requires Good(st) && Clearing(st, t, was) && (a.Thread? ==> a.t != t)
    ensures Clearing(Act(st, a), t, was)
  {
    GoodParts(st);
    BaseHomeStays(st, a, t);
    OthersAside(st, a, t);
    HomeStays(st, a, t);
    hide Good, Act, LocksOk, SeatsOk, SectionsOk, ThreadsOk;
  }

  /** What a lost connection's announcement is: from the server, naming the user; exactly so for
      names of at most 30 bytes, and beginning so for the others. */
  predicate Names(m: Message, name: seq<Byte>) {
    && m.kind == MSG_BROADCAST
    && CStr(m.sender) == Lit("server")
    && name <= CStr(m.payload)
    && (|name| < USER_MAX ==> CStr(m.payload) == name + Lit(" disconnected"))
  }

  lemma FarewellNames(name: seq<Byte>, junk: seq<Byte>, now: Time)
    requires NameOk(name)
    ensures Names(Farewell(name, junk, now), name)
  {
    hide CStr, Field;
    LitText("server");
    LitText(" disconnected");
    CStrOfField(SERVER, MAX_USERNAME_LEN);
    StrLenUnique(SERVER, 6);
    ServerText();
    var copy := CopiedName(name, junk);
    CleanCopy(name, junk);
    var text := copy + Lit(" disconnected");
    var note := SnPrintf(text, 64);
    assert note == text[..|note|];
    PayloadText(MSG_BROADCAST, SERVER, [], note, now);
    assert name <= note;
    if |name| < USER_MAX {
      assert text[..|text|] == text;
    }
  }

  lemma ServerText()
    ensures CStr(SERVER)[..6] == Lit("server")
  {
    LitText("server");
    StrLenUnique(SERVER, 6);
  }

  lemma CleanCopy(name: seq<Byte>, junk: seq<Byte>)
    requires NameOk(name)
    ensures NoNul(CopiedName(name, junk)) && name <= CopiedName(name, junk)
    ensures |name| < USER_MAX ==> CopiedName(name, junk) == name
  {
  }

  /** `ms` is one announcement that names the user, if there is one to be made. */
  predicate OneNote(ms: seq<Message>, due: bool, name: seq<Byte>) {
    if due then |ms| == 1 && Names(ms[0], name) else ms == []
  }

  lemma BaseName(st: State, home: Index)
    requires Good(st)
    ensures st.base[home].active ==> NameOk(st.base[home].name)
  {
    hide LocksOk, ThreadsOk, SeatsOk;
  }

  lemma ClearingPc(st: State, t: nat, was: Slot)
    requires Clearing(st, t, was)
    ensures Runs(st, t) && !st.peers[t].pc.Done? && Todo(st.peers[t].pc) == []
  {
  }

  lemma GoodHome(st: State, a: Action, t: nat)
    requires Good(st) && Runs(st, t)
    ensures t < |Act(st, a).peers| && Act(st, a).peers[t].home == st.peers[t].home
  {
    GoodParts(st);
    hide Good, Act, ThreadsOk, LocksOk, SeatsOk, SectionsOk;
    HomeStays(st, a, t);
  }

  /** The step is the release of the thread's section. */
  predicate Releases(st: State, a: Action, t: nat) {
    a.Thread? && a.t == t && Runs(st, t) && st.peers[t].pc.Hold? && st.peers[t].pc.phase.End?
  }

  lemma OwnClearingAct(st: State, a: Action, t: nat, was: Slot)
    requires Good(st) && Clearing(st, t, was) && a.Thread? && a.t == t
    ensures !Releases(st, a, t) ==> Clearing(Act(st, a), t, was)
    ensures Releases(st, a, t) ==>
              var p, st2 := st.peers[t], Act(st, a);
              && GivenBack(st2, p.home)
              && Runs(st2, t) && Announcing(st2.peers[t].pc)
              && st2.slots == st.slots
              && Todo(st2.peers[t].pc)
                 == (if was.active then [Others(0, Note, Farewell(was.name, a.ch.junk, a.ch.now))] else [])
  {
    hide Good, GivenBack, Announcing, Farewell;
    ClearingPc(st, t, was);
    PcsKept(st, t, a.ch);
    OwnClearing(st, t, a.ch, was);
    hide ActThread;
  }

  /** From the release on. */
  lemma TellsOnRelease(st: State, acts: seq<Action>, t: nat, was: Slot, j: Index)
    requires Good(st) && Clearing(st, t, was) && j != st.peers[t].home
    requires acts != [] && Releases(st, acts[0], t) && Standing(st, acts, j)
    requires var st2 := StateAfter(st, acts); t < |st2.peers| && st2.peers[t].pc.Done?
    ensures OneNote(For(AllBegun(Act(st, acts[0]), acts[1..], t), j), was.active && st.slots[j].active, was.name)
  {
    hide Act, For, Planned, From, Farewell, Names, Announcing, GivenBack, Clearing;
    var a, st1, home := acts[0], Act(st, acts[0]), st.peers[t].home;
    ClearedBase(st, t, was);
    GoodKept(st, a);
    GoodHome(st, a, t);
    BaseName(st, home);
    OwnClearingAct(st, a, t, was);
    GoodParts(st1);
    hide Good, LocksOk, SeatsOk, SectionsOk, ThreadsOk;
    RestAnnounced(st1, acts[1..], t, j);
    PlannedNone(home, st1.slots);
    ForNone(j);
    if was.active {
      var m := Farewell(was.name, a.ch.junk, a.ch.now);
      FarewellNames(was.name, a.ch.junk, a.ch.now);
      PlannedOne(Others(0, Note, m), home, st1.slots);
      FromReaches(st1.slots, home, m, 0, j);
    }
  }

  lemma ClearedBase(st: State, t: nat, was: Slot)
    requires Clearing(st, t, was)
    ensures Runs(st, t) && st.base[st.peers[t].home] == was
  {
  }

  /** From the moment a thread has found its connection gone: each other slot that stands still is
      sent one note naming the user, if the user was logged in, and nothing otherwise; and on the
      way the slot has been given back. */
  lemma {:induction false} ClearsAndTells(st: State, acts: seq<Action>, t: nat, was: Slot, j: Index) returns (k: nat)
    requires Good(st) && Clearing(st, t, was)
    requires var st2 := StateAfter(st, acts); t < |st2.peers| && st2.peers[t].pc.Done?
    ensures k <= |acts| && GivenBack(StateAfter(st, acts[..k]), st.peers[t].home)
    ensures j != st.peers[t].home && Standing(st, acts, j) ==>
              OneNote(For(AllBegun(st, acts, t), j), was.active && st.slots[j].active, was.name)
    decreases |acts|
  {
    hide Act, Good, Clearing, GivenBack, For, Planned, Begun, Farewell, Names, OneNote;
    ClearingPc(st, t, was);
    if acts == [] {
      assert false;
    } else {
      var a, st1 := acts[0], Act(st, acts[0]);
      GoodKept(st, a);
      GoodHome(st, a, t);
      NothingBegun(st, a, t);
      FollowedOn(st, acts, t, j);
      assert [] + AllBegun(st1, acts[1..], t) == AllBegun(st1, acts[1..], t);
      if a.Thread? && a.t == t {
        OwnClearingAct(st, a, t, was);
      } else {
        StillClearing(st, a, t, was);
      }
      if !Releases(st, a, t) {
        var n := ClearsAndTells(st1, acts[1..], t, was, j);
        k := n + 1;
        assert acts[..k][1..] == acts[1..][..n] && acts[..k][0] == a;
      } else {
        k := 1;
        assert acts[..1][1..] == [] && acts[..1][0] == a;
        if j != st.peers[t].home && Standing(st, acts, j) {
          TellsOnRelease(st, acts, t, was, j);
        }
      }
    }
  }

  lemma NothingRead(st: State, t: nat, ch: Choice)
    requires Good(st) && Runs(st, t) && st.peers[t].pc.Recv? && ch.msg.None?
    ensures var st1 := Act(st, Thread(t, ch));
            && Clearing(st1, t, st.slots[st.peers[t].home])
            && st1.peers[t].home == st.peers[t].home && st1.slots == st.slots
            && st1.peers[t].requests == st.peers[t].requests
            && Leaving(st1.peers[t].pc) && StepsLeft(st1.peers[t].pc) == CLEANING
  {
    OwnSlotStable(st, t);
    hide Good;
  }

  /** A lost connection, in any interleaving. The thread whose `recv_message` fails acts on no
      further request, and is done after at most `CLEANING` steps of its own, none of which only a
      taken lock or a signal can keep waiting. By then its slot has been given back with nobody
      shown in it; every other slot that stood still has been sent one note naming the user if the
      user was logged in, and nothing otherwise; and the connection, unless the slot has gone to
      another, is closed. */
  lemma ConnectionLost(acts: seq<Action>, t: nat, ch: Choice, more: seq<Action>, j: Index) returns (k: nat)
    requires Runs(After(acts), t) && After(acts).peers[t].pc.Recv? && ch.msg.None?
    ensures var st, st1 := After(acts), After(acts + [Thread(t, ch)]);
            var home, st2 := st.peers[t].home, StateAfter(st1, more);
            && Runs(st1, t) && Runs(st2, t)
            && st2.peers[t].requests == st.peers[t].requests
            && OwnSteps(st1, more, t) <= CLEANING
            && (OwnSteps(st1, more, t) == CLEANING ==> st2.peers[t].pc.Done?)
            && (st2.peers[t].pc.Done? ==>
                  && k <= |more| && GivenBack(StateAfter(st1, more[..k]), home)
                  && (st2.seats[home].conn == Some(t) ==> st2.peers[t].broken)
                  && (j != home && Standing(st1, more, j) ==>
                        OneNote(For(AllBegun(st1, more, t), j), st.slots[home].active && st.slots[j].active,
                                st.slots[home].name)))
  {
    hide Act, Good, Clearing, GivenBack, For, Leaving, OneNote, StepsLeft, Init;
    var st := After(acts);
    AfterGood(acts);
    AfterOne(acts, Thread(t, ch));
    var st1 := After(acts + [Thread(t, ch)]);
    NothingRead(st, t, ch);
    AfterGood(acts + [Thread(t, ch)]);
    assert ThreadsOk(st1) by {
      GoodParts(st1);
    }
    hide ThreadsOk;
    ClearingPc(st1, t, st.slots[st.peers[t].home]);
    LeavesInTime(st1, more, t);
    k := 0;
    if StateAfter(st1, more).peers[t].pc.Done? {
      k := ClearsAndTells(st1, more, t, st.slots[st.peers[t].home], j);
      AfterMore(acts + [Thread(t, ch)], more);
      DoneIsShut(acts + [Thread(t, ch)] + more);
      HomesStay(st1, more, t);
    }
  }

  lemma {:induction false} HomesStay(st: State, acts: seq<Action>, t: nat)
    requires ThreadsOk(st) && Runs(st, t)
    ensures t < |StateAfter(st, acts).peers| && StateAfter(st, acts).peers[t].home == st.peers[t].home
    decreases |acts|
  {
    hide Act, ThreadsOk;
    if acts != [] {
      ThreadsKept(st, acts[0]);
      HomeStays(st, acts[0], t);
      StillRuns(st, acts[0], t);
      HomesStay(Act(st, acts[0]), acts[1..], t);
    }
  }

  lemma StillRuns(st: State, a: Action, t: nat)
    requires ThreadsOk(st) && Runs(st, t)
    ensures Runs(Act(st, a), t)
  {
    if a.Thread? && a.t == t {
      PcsKept(st, t, a.ch);
      hide ActThread;
    } else {
      OthersAside(st, a, t);
    }
  }

  /** A thread that is done has closed its connection, if it was still the slot's. */
  ghost predicate AllShut(st: State) {
    forall t :: 0 <= t < |st.peers| && Runs(st, t) && st.peers[t].pc.Done? ==>
                  st.seats[st.peers[t].home].conn == Some(t) ==> st.peers[t].broken
  }

  lemma ShutKept(st: State, a: Action)
    requires Good(st) && AllShut(st)
    ensures AllShut(Act(st, a))
  {
    var st2 := Act(st, a);
    forall t | 0 <= t < |st2.peers| && Runs(st2, t) && st2.peers[t].pc.Done?
      ensures st2.seats[st2.peers[t].home].conn == Some(t) ==> st2.peers[t].broken
    {
      ShutOne(st, a, t);
    }
    hide Act;
  }

  lemma ShutOne(st: State, a: Action, t: nat)
    requires Good(st) && AllShut(st)
    requires t < |Act(st, a).peers| && Runs(Act(st, a), t) && Act(st, a).peers[t].pc.Done?
    ensures var st2 := Act(st, a);
            st2.seats[st2.peers[t].home].conn == Some(t) ==> st2.peers[t].broken
  {
    GoodParts(st);
    hide Good, LocksOk, SectionsOk;
    RanBefore(st, a, t);
    SeatHomeStays(st, a, t);
    BrokenStays(st, a, t);
    if a.Thread? && a.t == t {
      OwnShut(st, t, a.ch);
    } else {
      OthersAside(st, a, t);
    }
    hide Act;
  }

  lemma RanBefore(st: State, a: Action, t: nat)
    requires ThreadsOk(st)
    requires t < |Act(st, a).peers| && Runs(Act(st, a), t) && Act(st, a).peers[t].pc.Done?
    ensures Runs(st, t)
  {
    match a {
      case Main(ch) =>
        MainIsApart(st, ch);
        hide ActMain;
      case Thread(u, ch) =>
        if Runs(st, u) {
          PcsKept(st, u, ch);
        }
        hide ActThread;
    }
  }

  lemma SeatHomeStays(st: State, a: Action, t: nat)
    requires ThreadsOk(st) && SeatsOk(st) && Runs(st, t)
    ensures var st2 := Act(st, a);
            && t < |st2.peers| && st2.peers[t].home == st.peers[t].home
            && (st2.seats[st.peers[t].home].conn == Some(t) ==> st.seats[st.peers[t].home].conn == Some(t))
  {
    HomeStays(st, a, t);
    match a {
      case Main(ch) =>
        hide Pack, Refusal, Lit, Hand, Break, Deliver;
      case Thread(u, ch) =>
        if Runs(st, u) {
          ThreadSeats(st, u, ch);
        }
        hide ActThread, SeatsOk;
    }
  }

  lemma BrokenStays(st: State, a: Action, t: nat)
    requires t < |st.peers|
    ensures t < |Act(st, a).peers| && (st.peers[t].broken ==> Act(st, a).peers[t].broken)
  {
    match a {
      case Main(ch) => MainBroken(st, ch, t);
      case Thread(u, ch) =>
        if Runs(st, u) {
          ThreadBroken(st, u, ch, t);
        }
    }
    hide ActMain, ActThread;
  }

  lemma MainBroken(st: State, ch: Choice, t: nat)
    requires t < |st.peers|
    ensures t < |ActMain(st, ch).peers| && (st.peers[t].broken ==> ActMain(st, ch).peers[t].broken)
  {
    hide Pack, Refusal, Lit;
  }

  lemma ThreadBroken(st: State, u: nat, ch: Choice, t: nat)
    requires Runs(st, u) && t < |st.peers|
    ensures var peers := ActThread(st, u, ch).peers;
            t < |peers| && (st.peers[t].broken ==> peers[t].broken)
  {
    if st.peers[u].pc.Write? {
      hide Pack;
    } else if st.peers[u].pc.Next? {
    } else {
      hide Start, AfterSection, NextPhase, Touch, Noted, Push, Proceed;
    }
  }

  lemma OwnShut(st: State, t: nat, ch: Choice)
    requires Runs(st, t) && ActThread(st, t, ch).peers[t].pc.Done?
    ensures st.peers[t].pc.Done? || st.peers[t].pc.Close?
    ensures st.peers[t].pc.Close? && st.seats[st.peers[t].home].conn == Some(t) ==> ActThread(st, t, ch).peers[t].broken
  {
    if OnPlan(st.peers[t].pc) {
      SendKeepsGoal(st, t, ch);
    } else if st.peers[t].pc.Hold? && st.peers[t].pc.phase.End? {
      var p := st.peers[t];
      AfterSectionPc(p.pc.phase.result, p.home, Current(p), ch);
    }
    hide Proceed, Push, Unlock, SaveRecord, AfterSection, Start, NextPhase, Touch;
    StartAware(st.peers[t].home, st.slots[st.peers[t].home], st.logs, if ch.msg.Some? then ch.msg.value else NO_MESSAGE,
               ch.now);
    StartNotDone(st.peers[t].home, st.slots[st.peers[t].home], st.logs,
                 if ch.msg.Some? then ch.msg.value else NO_MESSAGE, ch.now);
  }

  lemma StartNotDone(s: Index, me: Slot, logs: Logs, m: Message, now: Time)
    ensures !Start(s, me, logs, m, now).Done?
  {
    hide ScanLogin, CStr, Say, Refusal, LogOf, Lit, AskedStatus, History.Reply;
  }

  lemma InitShut()
    ensures AllShut(Init())
  {
  }

  lemma {:induction false} DoneIsShut(acts: seq<Action>)
    ensures AllShut(After(acts))
  {
    hide Act, Good, AllShut, Init;
    if acts == [] {
      InitShut();
    } else {
      DoneIsShut(acts[..|acts| - 1]);
      AfterGood(acts[..|acts| - 1]);
      ShutKept(After(acts[..|acts| - 1]), acts[|acts| - 1]);
    }
  }

  // ---------- a request, a LOGOUT ----------

  /** The most steps a request takes from being read to the return to the receive loop. */
  const SERVING := MAX_CLIENTS + 6 + REPLYING

  lemma StartSteps(s: Index, me: Slot, logs: Logs, m: Message, now: Time)
    ensures var pc := Start(s, me, logs, m, now);
            && Occupied(pc)
            && if m.kind == MSG_LOGOUT then Leaving(pc) && StepsLeft(pc) <= NOTE_STEPS + 5 + CLEANING
               else StepsLeft(pc) <= NOTE_STEPS + SERVING
  {
    hide ScanLogin, CStr, Say, Refusal, LogOf, Lit, AskedStatus, History.Reply, TodoSteps;
    var pc := Start(s, me, logs, m, now);
    if pc.Next? {
      TodoOne(pc.todo[0]);
    } else if pc.Save? {
      TodoTwo(pc.todo[0], pc.todo[1]);
    }
  }

  /** A LOGOUT ends the thread: it acts on nothing that comes after it, and is done after a
      bounded number of its own steps, whatever the others do. */
  lemma LogoutEnds(acts: seq<Action>, t: nat, ch: Choice, more: seq<Action>)
    requires Runs(After(acts), t) && After(acts).peers[t].pc.Recv?
    requires ch.msg.Some? && ch.msg.value.kind == MSG_LOGOUT
    ensures var st, st1 := After(acts), After(acts + [Thread(t, ch)]);
            var st2 := StateAfter(st1, more);
            && Runs(st2, t)
            && st2.peers[t].requests == st.peers[t].requests + [ch.msg.value]
            && OwnSteps(st1, more, t) <= NOTE_STEPS + 5 + CLEANING
            && (OwnSteps(st1, more, t) == NOTE_STEPS + 5 + CLEANING ==> st2.peers[t].pc.Done?)
  {
    hide Act, Good, Leaving, StepsLeft, Init;
    var st := After(acts);
    AfterGood(acts);
    AfterOne(acts, Thread(t, ch));
    var st1 := After(acts + [Thread(t, ch)]);
    SomethingRead(st, t, ch);
    AfterGood(acts + [Thread(t, ch)]);
    assert ThreadsOk(st1) by {
      GoodParts(st1);
    }
    hide ThreadsOk;
    LeavesInTime(st1, more, t);
  }

  lemma SomethingRead(st: State, t: nat, ch: Choice)
    requires Runs(st, t) && st.peers[t].pc.Recv? && ch.msg.Some?
    ensures var st1 := Act(st, Thread(t, ch));
            && Runs(st1, t) && Occupied(st1.peers[t].pc)
            && st1.peers[t].requests == st.peers[t].requests + [ch.msg.value]
            && if ch.msg.value.kind == MSG_LOGOUT then
                 Leaving(st1.peers[t].pc) && StepsLeft(st1.peers[t].pc) <= NOTE_STEPS + 5 + CLEANING
               else StepsLeft(st1.peers[t].pc) <= NOTE_STEPS + SERVING
  {
    var home := st.peers[t].home;
    StartSteps(home, st.slots[home], st.logs, ch.msg.value, ch.now);
    hide Start, Leaving, StepsLeft;
  }

  /** Any other request is dealt with in a bounded number of the thread's own steps: as long as
      it is not back at its receive loop it has taken no more. */
  lemma ServedInTime(acts: seq<Action>, t: nat, ch: Choice, more: seq<Action>)
    requires Runs(After(acts), t) && After(acts).peers[t].pc.Recv?
    requires ch.msg.Some? && ch.msg.value.kind != MSG_LOGOUT
    requires Away(After(acts + [Thread(t, ch)]), more, t)
    ensures OwnSteps(After(acts + [Thread(t, ch)]), more, t) <= NOTE_STEPS + SERVING
  {
    hide Act, Good, StepsLeft, Init, Away;
    AfterGood(acts);
    AfterOne(acts, Thread(t, ch));
    var st1 := After(acts + [Thread(t, ch)]);
    SomethingRead(After(acts), t, ch);
    AfterGood(acts + [Thread(t, ch)]);
    assert ThreadsOk(st1) by {
      GoodParts(st1);
    }
    hide ThreadsOk;
    BackInTime(st1, more, t);
  }
}
