/** The sections of the threaded server that `table_lock` protects: each is one step of the
    chat service, whatever the other threads do meanwhile. */
module ThreadSections {
  import opened Bytes
  import opened Codec
  import opened History
  import opened Scanf
  import opened ChatSpec
  import opened ThreadProtocol
  import opened ThreadLocks
  import opened ThreadTable

  // ---------- what a thread in a section knows ----------

  /** How far the section has changed the thread's own slot, which was `me` on entry. */
  function Shown(phase: Phase, me: Slot): Slot {
    match phase
    case LoginActive(user) => me.(name := user)
    case LogoutWipe(_) => me.(active := false)
    case CleanWipe(_, _) => me.(active := false)
    case End(result) =>
      (match result
       case LoggedIn(user) => Slot(true, user, STATUS_AVAILABLE)
       case LoggedOut(_) => me.(active := false, name := [])
       case Changed(status) => me.(status := status)
       case Cleared(_, _) => me.(active := false, name := [])
       case _ => me)
    case _ => me
  }

  predicate Fresh(phase: Phase) {
    match phase
    case LoginScan(_, _, i) => i == 0
    case LogoutClear(_) => true
    case FindScan(_, i) => i == 0
    case ListScan(list, i) => list == [] && i == 0
    case PutStatus(_) => true
    case CleanClear => true
    case _ => false
  }

  predicate LoginOf(user: seq<Byte>, req: Message) {
    req.kind == MSG_LOGIN && ScanLogin(CStr(req.payload)).count == 2 && ScanLogin(CStr(req.payload)).user == user
  }

  /** The name and the password are those of the request. */
  predicate AskedOf(user: seq<Byte>, pass: seq<Byte>, req: Message) {
    LoginOf(user, req) && ScanLogin(CStr(req.payload)).pass == pass
  }

  /** The verdict on the request's name and password. */
  predicate Valid(req: Message, valid: Oracle) {
    valid(ScanLogin(CStr(req.payload)).user, ScanLogin(CStr(req.payload)).pass)
  }

  predicate StatusOf(status: int, req: Message) {
    req.kind == MSG_STATUS_CHANGE && status == AskedStatus(req.payload)
  }

  /** The section is the one that the request being served calls for. */
  predicate Fits(phase: Phase, req: Message) {
    match phase
    case LoginScan(user, pass, _) => AskedOf(user, pass, req)
    case LoginCheck(user, pass) => AskedOf(user, pass, req)
    case LoginName(user) => LoginOf(user, req)
    case LoginActive(user) => LoginOf(user, req)
    case LogoutClear(_) => req.kind == MSG_LOGOUT
    case LogoutWipe(_) => req.kind == MSG_LOGOUT
    case FindScan(name, _) => req.kind == MSG_PRIVATE && name == CStr(req.receiver)
    case ListScan(_, _) => req.kind == MSG_LIST_USERS
    case PutStatus(status) => StatusOf(status, req)
    case CleanClear => true
    case CleanWipe(_, _) => true
    case End(result) =>
      (match result
       case LoggedIn(user) => LoginOf(user, req)
       case Taken(user) => LoginOf(user, req)
       case Rejected(user) => LoginOf(user, req)
       case LoggedOut(_) => req.kind == MSG_LOGOUT
       case Found(_) => req.kind == MSG_PRIVATE
       case NotFound => req.kind == MSG_PRIVATE
       case Listing(_) => req.kind == MSG_LIST_USERS
       case Changed(status) => StatusOf(status, req)
       case Cleared(_, _) => true)
  }

  /** What the thread has read of its own slot still stands. */
  predicate Own(phase: Phase, me: Slot) {
    match phase
    case LogoutClear(name) => name == me.name
    case LogoutWipe(name) => name == me.name
    case FindScan(_, _) => me.active
    case CleanWipe(wasActive, name) => wasActive == me.active && name == me.name
    case End(result) =>
      (match result
       case LoggedOut(name) => name == me.name
       case Found(_) => me.active
       case NotFound => me.active
       case Cleared(wasActive, name) => wasActive == me.active && name == me.name
       case _ => true)
    case _ => true
  }

  /** A search for `u` that has reached `i`: the slots passed do not match. */
  predicate Scanned(base: Slots, u: seq<Byte>, i: Bound) {
    Find(base, u) == FindFrom(base, u, i)
  }

  /** What the section has found out is true of the table as it was on entry. */
  predicate Seen(phase: Phase, base: Slots, req: Message, valid: Oracle) {
    match phase
    case LoginScan(user, _, i) => Scanned(base, user, i)
    case LoginCheck(user, _) => Find(base, user) == -1
    case LoginName(user) => Find(base, user) == -1 && Valid(req, valid)
    case LoginActive(user) => Find(base, user) == -1 && Valid(req, valid)
    case FindScan(name, i) => Scanned(base, name, i)
    case ListScan(list, i) => list == UserList(base, i)
    case End(result) =>
      (match result
       case LoggedIn(user) => Find(base, user) == -1 && Valid(req, valid)
       case Taken(user) => Find(base, user) != -1
       case Rejected(user) => Find(base, user) == -1 && !Valid(req, valid)
       case Found(to) => Find(base, CStr(req.receiver)) == to
       case NotFound => Find(base, CStr(req.receiver)) == -1
       case Listing(list) => list == UserList(base, MAX_CLIENTS)
       case _ => true)
    case _ => true
  }

  predicate Knows(phase: Phase, base: Slots, s: Index, req: Message, valid: Oracle) {
    Fits(phase, req) && Own(phase, base[s]) && Seen(phase, base, req, valid)
  }

  lemma FreshKnows(phase: Phase, base: Slots, s: Index, req: Message, valid: Oracle)
    requires Fresh(phase) && Fits(phase, req) && Own(phase, base[s])
    ensures Knows(phase, base, s, req, valid)
    ensures Shown(phase, base[s]) == base[s]
  {
    hide FindFrom, ScanLogin, CStr, AskedStatus;
  }

  /** One more step inside a section keeps what the thread knows true. */
  lemma PhaseStep(phase: Phase, base: Slots, s: Index, req: Message, valid: Oracle)
    requires Knows(phase, base, s, req, valid) && !phase.End?
    ensures var slots := base[s := Shown(phase, base[s])];
            var next := NextPhase(phase, slots, s, valid);
            && Knows(next, base, s, req, valid)
            && slots[s := Touch(phase, slots[s])] == base[s := Shown(next, base[s])]
  {
    hide ScanLogin, CStr, AskedStatus, Entry, Lit, Listed;
  }

  /** The table a section leaves behind is well-formed. */
  lemma EndKeepsTable(result: Result, base: Slots, s: Index, req: Message, valid: Oracle)
    requires TableOk(base) && Knows(End(result), base, s, req, valid)
    ensures TableOk(base[s := Shown(End(result), base[s])])
  {
    hide TableOk, ScanLogin, CStr, Find, UserList;
    TableSize(base);
    match result {
      case LoggedIn(user) =>
        LoginScanOk(req);
        NewNameKeeps(base, s, user);
      case Changed(status) =>
        SlotOnlyKeeps(base, s, base[s].(status := status));
      case _ =>
        SlotOnlyKeeps(base, s, base[s].(active := false, name := []));
        assert base[s := base[s]] == base;
    }
  }

  lemma NewNameKeeps(base: Slots, s: Index, user: seq<Byte>)
    requires TableOk(base) && NameOk(user) && Find(base, user) == -1
    ensures TableOk(base[s := Slot(true, user, STATUS_AVAILABLE)])
  {
    FindFromSpec(base, user, 0);
  }

  // ---------- the invariant ----------

  /** The table differs from what it was when `table_lock` was last free exactly by what the
      present holder's section has done to its own slot so far. */
  predicate TableNow(st: State) {
    match st.tableLock
    case Free => st.slots == st.base
    case Acceptor => st.slots == if st.main.Leave? then st.base[st.main.slot := FREE] else st.base
    case Client(t) =>
      Runs(st, t) && st.peers[t].pc.Hold? ==>
        st.slots == st.base[st.peers[t].home := Shown(st.peers[t].pc.phase, st.base[st.peers[t].home])]
  }

  predicate Aware(p: Peer, base: Slots) {
    p.home < MAX_CLIENTS ==>
      && (p.pc.Wait? ==> Fresh(p.pc.phase) && Fits(p.pc.phase, Current(p)) && Own(p.pc.phase, base[p.home]))
      && (p.pc.Hold? ==> Knows(p.pc.phase, base, p.home, Current(p), p.valid))
  }

  ghost predicate SectionsOk(st: State) {
    && TableOk(st.base)
    && TableNow(st)
    && (forall t :: 0 <= t < |st.peers| ==> Aware(st.peers[t], st.base))
  }

  ghost predicate Good(st: State) {
    LocksOk(st) && ThreadsOk(st) && SeatsOk(st) && SectionsOk(st)
  }

  /** Another thread's section never reaches the slot of a thread that keeps its own. */
  lemma HomesApart(st: State, t: nat, u: nat)
    requires SeatsOk(st)
    requires t < |st.peers| && u < |st.peers| && t != u
    requires Keeps(st.peers[t].pc) || st.peers[t].pc.Hold?
    requires Keeps(st.peers[u].pc) || st.peers[u].pc.Hold? || st.peers[u].seated
    ensures st.peers[t].home != st.peers[u].home
  {
    assert SeatedAt(st, t);
    assert SeatedAt(st, u);
  }

  /** A thread that keeps its slot reads in it what the last free table held. */
  lemma OwnSlotStable(st: State, t: nat)
    requires Good(st) && Runs(st, t) && Keeps(st.peers[t].pc) && !st.peers[t].pc.Hold?
    ensures st.slots[st.peers[t].home] == st.base[st.peers[t].home]
  {
    hide Shown, Keeps, Aware, TableOk;
    match st.tableLock {
      case Free =>
      case Acceptor =>
        if st.main.Leave? {
          HomesApart(st, t, st.main.c);
        }
      case Client(u) =>
        assert st.peers[u].pc.Hold?;
        HomesApart(st, t, u);
    }
  }

  lemma StartAware(s: Index, me: Slot, logs: Logs, m: Message, now: Time)
    ensures var pc := Start(s, me, logs, m, now);
            && !pc.Hold?
            && (pc.Wait? ==> Fresh(pc.phase) && Fits(pc.phase, m) && Own(pc.phase, me))
  {
    hide ScanLogin, CStr, Say, Refusal, LogOf, Lit, AskedStatus, History.Reply;
  }

  /** A step that leaves the table, the base and the other threads' knowledge alone. */
  lemma QuietStep(st: State, st2: State, t: nat)
    requires Good(st) && t < |st.peers| && OnlyPc(st, st2, t) && SameRequests(st, st2, t)
    requires st2.slots == st.slots && st2.base == st.base && st2.tableLock == st.tableLock
    requires !st.peers[t].pc.Hold?
    requires Aware(st2.peers[t], st.base)
    ensures SectionsOk(st2)
  {
    hide Knows, Fits, Own, Fresh, Shown, TableOk;
  }

  ghost predicate SameRequests(st: State, st2: State, t: nat) {
    && |st2.peers| == |st.peers|
    && forall u :: 0 <= u < |st.peers| && u != t ==> && st2.peers[u].requests == st.peers[u].requests
                                                     && st2.peers[u].valid == st.peers[u].valid
  }

  lemma ReceiveSections(st: State, t: nat, ch: Choice)
    requires Good(st) && Runs(st, t) && st.peers[t].pc.Recv?
    ensures SectionsOk(Receive(st, t, ch))
  {
    hide Good, Start, Knows, Fits, Own, Fresh;
    OwnSlotStable(st, t);
    var home := st.peers[t].home;
    if ch.msg.Some? {
      StartAware(home, st.slots[home], st.logs, ch.msg.value, ch.now);
    } else {
      FreshClean(Current(st.peers[t]), st.base[home]);
    }
    PcsKept(st, t, ch);
    QuietStep(st, Receive(st, t, ch), t);
  }

  lemma FreshClean(req: Message, me: Slot)
    ensures Fresh(CleanClear) && Fits(CleanClear, req) && Own(CleanClear, me)
  {
  }

  lemma EnterSections(st: State, t: nat)
    requires Good(st) && Runs(st, t) && st.peers[t].pc.Wait?
    ensures SectionsOk(Enter(st, t))
  {
    hide LocksOk, SeatsOk, Knows, Fits, Own, Fresh, Shown, TableOk;
    var p := st.peers[t];
    FreshKnows(p.pc.phase, st.base, p.home, Current(p), p.valid);
    assert st.base[p.home := st.base[p.home]] == st.base;
  }

  lemma WorkSections(st: State, t: nat, ch: Choice)
    requires Good(st) && Runs(st, t) && st.peers[t].pc.Hold? && !st.peers[t].pc.phase.End?
    ensures SectionsOk(Work(st, t, ch))
  {
    hide SeatsOk, Knows, Fits, Own, Fresh, Shown, TableOk, NextPhase, Touch;
    var p := st.peers[t];
    assert st.tableLock == Client(t);
    PhaseStep(p.pc.phase, st.base, p.home, Current(p), p.valid);
  }

  lemma ReleaseSections(st: State, t: nat, ch: Choice)
    requires Good(st) && Runs(st, t) && st.peers[t].pc.Hold? && st.peers[t].pc.phase.End?
    ensures SectionsOk(Release(st, t, ch))
  {
    hide SeatsOk, Knows, Fits, Fresh, Shown, TableOk, AfterSection, Saved;
    var p := st.peers[t];
    assert st.tableLock == Client(t);
    EndKeepsTable(p.pc.phase.result, st.base, p.home, Current(p), p.valid);
    SectionPcs(st, t, ch);
    var st2 := Release(st, t, ch);
    forall u | 0 <= u < |st.peers|
      ensures Aware(st2.peers[u], st2.base)
    {
      if u == t {
        AfterSectionPc(p.pc.phase.result, p.home, Current(p), ch);
      } else {
        assert Aware(st.peers[u], st.base);
        if st.peers[u].pc.Wait? {
          HomesApart(st, u, t);
        }
      }
    }
  }

  lemma AfterSectionPc(result: Result, s: Index, req: Message, ch: Choice)
    ensures var pc := AfterSection(result, s, req, ch); pc.Next? || pc.Save? || pc.Close?
  {
    hide CStr, Say, Refusal, SnPrintf, CopiedName, Lit, Left;
  }

  lemma SendSections(st: State, t: nat, ch: Choice)
    requires Good(st) && Runs(st, t)
    requires var pc := st.peers[t].pc; pc.Save? || pc.Next? || pc.Write? || pc.Drop? || pc.Close? || pc.Done?
    ensures SectionsOk(ActThread(st, t, ch))
  {
    hide Good, Knows, Fits, Own, Fresh, ActThread;
    PcsKept(st, t, ch);
    SendQuiet(st, t, ch);
    FreshClean(Current(ActThread(st, t, ch).peers[t]), st.base[st.peers[t].home]);
    QuietStep(st, ActThread(st, t, ch), t);
  }

  lemma SendQuiet(st: State, t: nat, ch: Choice)
    requires Runs(st, t)
    requires var pc := st.peers[t].pc; pc.Save? || pc.Next? || pc.Write? || pc.Drop? || pc.Close? || pc.Done?
    ensures var st2 := ActThread(st, t, ch);
            && st2.slots == st.slots && st2.base == st.base && st2.tableLock == st.tableLock
            && SameRequests(st, st2, t)
            && !st2.peers[t].pc.Hold?
            && (st2.peers[t].pc.Wait? ==> st2.peers[t].pc.phase == CleanClear)
  {
    hide Proceed, Push, Unlock, SaveRecord, Shut, SameRequests;
    match st.peers[t].pc {
      case Next(_, _) => ProceedQuiet(st, t);
      case Write(_, _, _, _, _, _) => PushQuiet(st, t, ch);
      case _ => RestQuiet(st, t, ch);
    }
  }

  lemma ProceedQuiet(st: State, t: nat)
    requires Runs(st, t) && st.peers[t].pc.Next?
    ensures var st2 := Proceed(st, t);
            && st2.slots == st.slots && st2.base == st.base && st2.tableLock == st.tableLock
            && SameRequests(st, st2, t)
            && !st2.peers[t].pc.Hold?
            && (st2.peers[t].pc.Wait? ==> st2.peers[t].pc.phase == CleanClear)
  {
  }

  lemma PushQuiet(st: State, t: nat, ch: Choice)
    requires Runs(st, t) && st.peers[t].pc.Write?
    ensures var st2 := Push(st, t, ch);
            && st2.slots == st.slots && st2.base == st.base && st2.tableLock == st.tableLock
            && SameRequests(st, st2, t)
            && !st2.peers[t].pc.Hold?
            && (st2.peers[t].pc.Wait? ==> st2.peers[t].pc.phase == CleanClear)
  {
    hide Pack;
  }

  lemma RestQuiet(st: State, t: nat, ch: Choice)
    requires Runs(st, t)
    requires var pc := st.peers[t].pc; pc.Save? || pc.Drop? || pc.Close? || pc.Done?
    ensures var st2 := ActThread(st, t, ch);
            && st2.slots == st.slots && st2.base == st.base && st2.tableLock == st.tableLock
            && SameRequests(st, st2, t)
            && !st2.peers[t].pc.Hold?
            && (st2.peers[t].pc.Wait? ==> st2.peers[t].pc.phase == CleanClear)
  {
    hide Noted;
  }

  /** What a step of the accepting thread leaves as it was for the running threads. */
  ghost predicate MainApart(st: State, st2: State) {
    && |st2.peers| >= |st.peers|
    && (forall u :: 0 <= u < |st.peers| && !st.peers[u].pc.Unborn? ==>
          (&& st2.peers[u].pc == st.peers[u].pc
           && st2.peers[u].home == st.peers[u].home
           && st2.peers[u].requests == st.peers[u].requests
           && st2.peers[u].valid == st.peers[u].valid))
    && (forall u :: 0 <= u < |st2.peers| && (u >= |st.peers| || st.peers[u].pc.Unborn?) ==>
          st2.peers[u].pc.Unborn? || st2.peers[u].pc.Recv?)
  }

  lemma MainIsApart(st: State, ch: Choice)
    requires ThreadsOk(st)
    ensures MainApart(st, ActMain(st, ch))
  {
    hide Pack, Refusal, Lit;
  }

  /** How the accepting thread moves the table. */
  lemma MainTable(st: State, ch: Choice)
    requires ThreadsOk(st)
    requires MainHolds(st.main) <==> st.tableLock.Acceptor?
    requires st.tableLock.Acceptor? || st.tableLock.Free? ==> TableNow(st)
    ensures var st2 := ActMain(st, ch);
            && (!st.tableLock.Client? ==> !st2.tableLock.Client? && TableNow(st2))
            && (st.tableLock.Client? ==> st2.slots == st.slots && st2.tableLock == st.tableLock)
            && (st2.base == st.base || (st.main.Leave? && st2.base == st.base[st.main.slot := FREE]))
  {
    hide Pack, Refusal, Lit, Hand, Break, Deliver;
  }

  lemma MainSections(st: State, ch: Choice)
    requires Good(st)
    ensures SectionsOk(ActMain(st, ch))
  {
    MainLock(st);
    MainIsApart(st, ch);
    MainTable(st, ch);
    hide ActMain, SeatsOk, Knows, Fits, Own, Fresh, Shown, TableOk;
    TableSize(st.base);
    var st2 := ActMain(st, ch);
    if st2.base != st.base {
      SlotOnlyKeeps(st.base, st.main.slot, FREE);
    }
    forall u | 0 <= u < |st2.peers|
      ensures Aware(st2.peers[u], st2.base)
    {
      if u < |st.peers| && !st.peers[u].pc.Unborn? {
        assert Aware(st.peers[u], st.base);
        if st2.base != st.base && st.peers[u].pc.Wait? {
          MainSeated(st);
          HomesApart(st, u, st.main.c);
        }
      }
    }
  }

  lemma MainSeated(st: State)
    requires Good(st) && st.main.Leave?
    ensures st.peers[st.main.c].seated && st.peers[st.main.c].home == st.main.slot
  {
  }

  lemma GoodKept(st: State, a: Action)
    requires Good(st)
    ensures Good(Act(st, a))
  {
    LocksKept(st, a);
    SeatsKept(st, a);
    hide LocksOk, ThreadsOk, SeatsOk, SectionsOk, Good, ActMain, ActThread;
    assert SectionsOk(st) by {
      GoodParts(st);
    }
    match a {
      case Main(ch) => MainSections(st, ch);
      case Thread(t, ch) =>
        if Runs(st, t) {
          ThreadSections(st, t, ch);
        }
    }
    GoodOf(Act(st, a));
  }

  lemma GoodParts(st: State)
    requires Good(st)
    ensures LocksOk(st) && ThreadsOk(st) && SeatsOk(st) && SectionsOk(st)
  {
  }

  lemma GoodOf(st: State)
    requires LocksOk(st) && ThreadsOk(st) && SeatsOk(st) && SectionsOk(st)
    ensures Good(st)
  {
  }

  lemma ThreadSections(st: State, t: nat, ch: Choice)
    requires Good(st) && Runs(st, t)
    ensures SectionsOk(ActThread(st, t, ch))
  {
    match st.peers[t].pc {
      case Recv => ReceiveSections(st, t, ch);
      case Wait(_) => EnterSections(st, t);
      case Hold(phase) => if phase.End? { ReleaseSections(st, t, ch); } else { WorkSections(st, t, ch); }
      case _ => SendSections(st, t, ch);
    }
  }

  lemma InitGood()
    ensures Good(Init())
  {
  }

  lemma {:induction false} AfterGood(acts: seq<Action>)
    ensures Good(After(acts))
  {
    hide Good, Act, Init;
    if acts == [] {
      InitGood();
    } else {
      AfterGood(acts[..|acts| - 1]);
      GoodKept(After(acts[..|acts| - 1]), acts[|acts| - 1]);
    }
  }

  // ---------- names ----------

  /** Active slots carry distinct, well-formed names. */
  predicate NamesUnique(slots: seq<Slot>) {
    && (forall i :: 0 <= i < |slots| && slots[i].active ==> NameOk(slots[i].name))
    && (forall i, j :: 0 <= i < j < |slots| && slots[i].active && slots[j].active ==> slots[i].name != slots[j].name)
    && (forall i :: 0 <= i < |slots| ==> 0 <= slots[i].status <= 2)
  }

  /** In every reachable state names are unique, even inside a section, and whenever the table
      is free it is fully well-formed: an inactive slot has no name left in it. */
  lemma NamesStayUnique(acts: seq<Action>)
    ensures NamesUnique(After(acts).slots)
    ensures After(acts).tableLock.Free? ==> TableOk(After(acts).slots)
  {
    AfterGood(acts);
    hide After;
    NamesInState(After(acts));
  }

  lemma NamesInState(st: State)
    requires Good(st)
    ensures NamesUnique(st.slots)
    ensures st.tableLock.Free? ==> TableOk(st.slots)
  {
    hide Knows, Shown, SeatsOk, TableOk, NamesUnique;
    TableOkNames(st.base);
    match st.tableLock {
      case Free =>
      case Acceptor =>
        if st.main.Leave? {
          SlotOnlyKeeps(st.base, st.main.slot, FREE);
          TableOkNames(st.slots);
        }
      case Client(t) =>
        var p := st.peers[t];
        assert p.pc.Hold?;
        assert Aware(p, st.base);
        ShownNames(p.pc.phase, st.base, p.home, Current(p), p.valid);
    }
  }

  lemma TableOkNames(slots: seq<Slot>)
    requires TableOk(slots)
    ensures NamesUnique(slots)
  {
  }

  lemma ShownNames(phase: Phase, base: Slots, s: Index, req: Message, valid: Oracle)
    requires TableOk(base) && Knows(phase, base, s, req, valid)
    ensures NamesUnique(base[s := Shown(phase, base[s])])
  {
    hide ScanLogin, CStr, UserList;
    LoginScanOk(req);
    match phase {
      case LoginActive(user) => FindFromSpec(base, user, 0);
      case End(result) =>
        hide Knows, TableOk;
        EndKeepsTable(result, base, s, req, valid);
        TableOkNames(base[s := Shown(phase, base[s])]);
      case _ =>
    }
  }

  // ---------- each section is one step of the service ----------

  /** The rest of a loop over the slots: `m` to every active one from `i` on but `skip`. */
  function From(slots: Slots, skip: nat, m: Message, i: Bound): seq<Out>
    decreases MAX_CLIENTS - i
  {
    if i == MAX_CLIENTS then []
    else (if i != skip && slots[i].active then [Out(i, m)] else []) + From(slots, skip, m, i + 1)
  }

  /** What a thread with slot `home` is about to send, should the table stay as it is. */
  function Planned(todo: seq<Item>, home: Bound, slots: Slots): seq<Out> {
    if todo == [] then []
    else
      (if todo[0].One? then [Out(todo[0].dst, todo[0].msg)] else From(slots, home, todo[0].msg, todo[0].i))
      + Planned(todo[1..], home, slots)
  }

  lemma {:induction false} FromIsRest(slots: Slots, skip: nat, m: Message, i: Bound)
    ensures ToOthers(slots, skip, m, i) + From(slots, skip, m, i) == ToOthers(slots, skip, m, MAX_CLIENTS)
    decreases MAX_CLIENTS - i
  {
    if i < MAX_CLIENTS {
      FromIsRest(slots, skip, m, i + 1);
      var one := if i != skip && slots[i].active then [Out(i, m)] else [];
      assert ToOthers(slots, skip, m, i) + (one + From(slots, skip, m, i + 1))
          == (ToOthers(slots, skip, m, i) + one) + From(slots, skip, m, i + 1);
    }
  }

  lemma PlannedOne(a: Item, home: Bound, slots: Slots)
    ensures Planned([a], home, slots) == if a.One? then [Out(a.dst, a.msg)] else From(slots, home, a.msg, a.i)
  {
    assert [a][1..] == [];
  }

  lemma PlannedNone(home: Bound, slots: Slots)
    ensures Planned([], home, slots) == []
  {
  }

  lemma PlannedTwo(a: Item, b: Item, home: Bound, slots: Slots)
    ensures Planned([a, b], home, slots) == Planned([a], home, slots) + Planned([b], home, slots)
  {
    PlannedOne(a, home, slots);
    assert [a, b][1..] == [b];
  }

  lemma PlannedOthers(slots: Slots, home: Bound, sort: Sort, m: Message)
    ensures Planned([Others(0, sort, m)], home, slots) == ToOthers(slots, home, m, MAX_CLIENTS)
  {
    PlannedOne(Others(0, sort, m), home, slots);
    FromIsRest(slots, home, m, 0);
  }

  /** Releasing `table_lock` completes exactly one step of the chat service, taken from the
      table as it was on entry: the same table; with the table as it is now, the same messages
      planned for the same slots in the same order; and, whatever the logs are by the time the
      thread gets to save, the same record added to them. */
  lemma SectionIsStep(st: State, t: nat, ch: Choice, logs: Logs, stamp: seq<Byte>)
    requires Good(st) && Runs(st, t) && st.peers[t].pc.Hold? && st.peers[t].pc.phase.End?
    requires !st.peers[t].pc.phase.result.Cleared?
    ensures var p, result, st2 := st.peers[t], st.peers[t].pc.phase.result, ActThread(st, t, ch);
            var e := Step(Chat(st.base, logs), p.home, Current(p), Env(ch.now, stamp, p.valid), false);
            var pc := st2.peers[t].pc;
            && st2.slots == e.chat.slots && st2.logs == st.logs
            && (pc.Save? || pc.Next?)
            && Noted(pc, Current(p), logs, stamp) == e.chat.logs
            && Planned(pc.todo, p.home, st2.slots) == e.outs
            && pc.goal == if result.LoggedOut? then ToClean else ToRecv
  {
    hide SeatsOk, ThreadsOk, Shown, Knows, TableOk, AfterSection, Step, Saved, CStr;
    var p := st.peers[t];
    assert st.tableLock == Client(t);
    assert Aware(p, st.base);
    ResultIsStep(p.pc.phase.result, st.base, logs, p.home, Current(p), p.valid, ch, stamp);
  }

  lemma ResultIsStep(result: Result, base: Slots, logs: Logs, s: Index, req: Message, valid: Oracle, ch: Choice,
                     stamp: seq<Byte>)
    requires Knows(End(result), base, s, req, valid) && !result.Cleared?
    ensures var e := Step(Chat(base, logs), s, req, Env(ch.now, stamp, valid), false);
            var pc := AfterSection(result, s, req, ch);
            && base[s := Shown(End(result), base[s])] == e.chat.slots
            && (pc.Save? || pc.Next?)
            && e.chat.logs == Noted(pc, req, logs, stamp)
            && Planned(pc.todo, s, base[s := Shown(End(result), base[s])]) == e.outs
            && pc.goal == if result.LoggedOut? then ToClean else ToRecv
  {
    hide ScanLogin, CStr, Find, Saved, LogOf, UserList, AskedStatus, History.Reply, MakeMessage, Lit, ToOthers, Planned;
    assert base[s := base[s]] == base;
    var slots := base[s := Shown(End(result), base[s])];
    var todo := AfterSection(result, s, req, ch).todo;
    if result.LoggedOut? {
      PlannedOthers(slots, s, Note, todo[0].msg);
    } else {
      PlannedOne(todo[0], s, slots);
      if result.Found? {
        PlannedOne(todo[1], s, slots);
        PlannedTwo(todo[0], todo[1], s, slots);
      }
    }
  }

  /** The announcement of a lost connection, given what the stack held behind the name. */
  function Farewell(name: seq<Byte>, junk: seq<Byte>, now: Time): Message {
    Say(MSG_BROADCAST, [], SnPrintf(CopiedName(name, junk) + Lit(" disconnected"), 64), now)
  }

  /** The section of a thread whose connection is gone clears its slot, and an announcement is
      planned exactly if it had been logged in. */
  lemma SectionClears(st: State, t: nat, ch: Choice)
    requires Good(st) && Runs(st, t) && st.peers[t].pc.Hold? && st.peers[t].pc.phase.End?
    requires st.peers[t].pc.phase.result.Cleared?
    ensures var p, st2 := st.peers[t], ActThread(st, t, ch);
            var me := st.base[p.home];
            && st2.slots == st.base[p.home := me.(active := false, name := [])]
            && st2.peers[t].pc == if me.active then Next([Others(0, Note, Farewell(me.name, ch.junk, ch.now))], ToClose)
                                  else Close
  {
    hide SeatsOk, ThreadsOk, TableOk, Saved, CStr, MakeMessage, Lit;
    var p := st.peers[t];
    assert st.tableLock == Client(t);
    assert Aware(p, st.base);
  }

  /** The announcement is what the service says, whatever the stack holds, exactly for names of
      at most 30 bytes: a name of 31 is copied without its terminator. */
  lemma FarewellExact(name: seq<Byte>, now: Time)
    requires NoNul(name) && |name| <= USER_MAX
    ensures (forall junk :: Farewell(name, junk, now) == Left(name, " disconnected", now)) <==> |name| < USER_MAX
  {
    if |name| < USER_MAX {
      forall junk
        ensures Farewell(name, junk, now) == Left(name, " disconnected", now)
      {
        var text := CopiedName(name, junk) + Lit(" disconnected");
        assert text[..|text|] == text;
      }
    } else {
      var junk: seq<Byte> := [65];
      assert CStr(junk) == junk by {
        assert junk + [] == junk;
        CStrOf(junk, []);
      }
      assert Farewell(name, junk, now).payloadLen == 45;
      assert Left(name, " disconnected", now).payloadLen == 44;
    }
  }

  // ---------- the whole run, one section at a time ----------

  /** What a step completes, if it releases `table_lock`. */
  function Commits(st: State, a: Action): (cs: seq<Event>)
    ensures Within(cs, MAX_CLIENTS)
  {
    match a
    case Main(_) => if st.main.Leave? then [Filled(st.main.slot)] else []
    case Thread(t, ch) =>
      if !Runs(st, t) || !st.peers[t].pc.Hold? || !st.peers[t].pc.phase.End? then []
      else
        var result := st.peers[t].pc.phase.result;
        if result.Cleared? then [Wiped(st.peers[t].home)]
        else [Request(st.peers[t].home, Current(st.peers[t]), Env(ch.now, ch.stamp, st.peers[t].valid))]
  }

  function AllCommits(acts: seq<Action>): (cs: seq<Event>)
    ensures Within(cs, MAX_CLIENTS)
  {
    if acts == [] then [] else AllCommits(acts[..|acts| - 1]) + Commits(After(acts[..|acts| - 1]), acts[|acts| - 1])
  }

  /** What an event does to the table does not depend on the logs. */
  lemma TableApart(slots: Slots, a: Logs, b: Logs, ev: Event)
    requires ev.s < MAX_CLIENTS
    ensures Apply(Chat(slots, a), ev, false).chat.slots == Apply(Chat(slots, b), ev, false).chat.slots
  {
    hide ScanLogin, CStr, Find, Saved, LogOf, UserList, AskedStatus, History.Reply, MakeMessage, Lit, ToOthers;
  }

  lemma BaseMoves(st: State, a: Action, logs: Logs)
    requires Good(st)
    ensures var cs := Commits(st, a);
            && |cs| <= 1
            && Act(st, a).base == if cs == [] then st.base else Apply(Chat(st.base, logs), cs[0], false).chat.slots
  {
    match a {
      case Main(ch) =>
        hide SectionsOk, SeatsOk, LocksOk, ThreadsOk;
        MainBase(st, ch);
      case Thread(t, ch) =>
        if Runs(st, t) {
          if st.peers[t].pc.Hold? && st.peers[t].pc.phase.End? {
            hide LocksOk, SeatsOk, SectionsOk, ThreadsOk, Step;
            ReleaseBase(st, t, ch);
            if st.peers[t].pc.phase.result.Cleared? {
              SectionClears(st, t, ch);
            } else {
              SectionIsStep(st, t, ch, st.logs, ch.stamp);
              TableApart(st.base, st.logs, logs, Commits(st, a)[0]);
            }
          } else {
            OtherBase(st, t, ch);
          }
        }
    }
  }

  lemma ReleaseBase(st: State, t: nat, ch: Choice)
    requires Runs(st, t) && st.peers[t].pc.Hold? && st.peers[t].pc.phase.End?
    ensures ActThread(st, t, ch).base == ActThread(st, t, ch).slots
  {
    hide AfterSection, Saved, CStr;
  }

  lemma MainBase(st: State, ch: Choice)
    requires Good(st)
    ensures ActMain(st, ch).base == if st.main.Leave? then st.base[st.main.slot := FREE] else st.base
  {
    MainLock(st);
    hide Pack, Refusal, Lit, SeatsOk, ThreadsOk, TableOk, Hand;
  }

  lemma OtherBase(st: State, t: nat, ch: Choice)
    requires Runs(st, t) && !(st.peers[t].pc.Hold? && st.peers[t].pc.phase.End?)
    ensures ActThread(st, t, ch).base == st.base
  {
    hide Pack, Start, NextPhase, Touch, Saved;
  }

  /** Serialisability: at every moment of every interleaving the table, as last left free, is
      what serving the completed sections one at a time in that order would have made of it. */
  lemma {:induction false} Serializable(acts: seq<Action>)
    ensures After(acts).base == Run(Blank(), AllCommits(acts), false).chat.slots
    ensures After(acts).tableLock.Free? ==> After(acts).slots == Run(Blank(), AllCommits(acts), false).chat.slots
  {
    hide Good, Act, Commits, Apply, Init, Run;
    AfterGood(acts);
    assert After(acts).tableLock.Free? ==> After(acts).slots == After(acts).base by {
      FreeIsBase(After(acts));
    }
    if acts == [] {
      RunNone(Blank(), false);
      InitBase();
    } else {
      var front, a := acts[..|acts| - 1], acts[|acts| - 1];
      Serializable(front);
      AfterGood(front);
      var c, cs := Run(Blank(), AllCommits(front), false).chat, Commits(After(front), a);
      BaseMoves(After(front), a, c.logs);
      if cs == [] {
        assert AllCommits(front) + [] == AllCommits(front);
      } else {
        assert cs == [cs[0]];
        RunOne(Blank(), AllCommits(front), cs[0], false);
      }
    }
  }

  lemma FreeIsBase(st: State)
    requires Good(st)
    ensures st.tableLock.Free? ==> st.slots == st.base
  {
    hide SeatsOk, LocksOk, TableOk;
  }

  lemma InitBase()
    ensures Init().base == Blank().slots
  {
  }

  // ---------- the logs ----------

  lemma LogsStep(st: State, a: Action)
    ensures LogsGrown(st.logs, Act(st, a).logs)
  {
    hide LogsGrown, Pack, Start, NextPhase, Touch, AfterSection, Saved, CStr, Refusal, Lit;
    SavedGrows(st.logs, [], [], [], []);
    if a.Thread? && Runs(st, a.t) && st.peers[a.t].pc.Save? {
      var m := Current(st.peers[a.t]);
      SavedGrows(st.logs, CStr(m.sender), st.peers[a.t].pc.to, CStr(m.payload), a.ch.stamp);
    }
  }

  lemma {:induction false} LogsGrow(acts: seq<Action>, k: nat)
    requires k <= |acts|
    ensures LogsGrown(After(acts[..k]).logs, After(acts).logs)
    decreases |acts|
  {
    hide LogsGrown, Act, Init;
    var n := |acts| - 1;
    if k == |acts| {
      assert acts[..k] == acts;
      SavedGrows(After(acts).logs, [], [], [], []);
    } else {
      LogsGrow(acts[..n], k);
      assert acts[..n][..k] == acts[..k];
      LogsStep(After(acts[..n]), acts[n]);
      GrownTransitive(After(acts[..k]).logs, After(acts[..n]).logs, After(acts).logs);
    }
  }

  /** In every interleaving logs only grow by whole records, so that a history reply drawn
      from a later state only extends an earlier one. */
  lemma HistoryGrows(acts: seq<Action>, k: nat, name: seq<Byte>)
    requires k <= |acts|
    ensures LogsGrown(After(acts[..k]).logs, After(acts).logs)
    ensures Extends(LogOf(After(acts[..k]).logs, name), LogOf(After(acts).logs, name))
    ensures Ended(LogOf(After(acts).logs, name))
  {
    hide Extends, After, LogsGrown;
    LogsGrow(acts, k);
    LogsGrow(acts[..k], 0);
    NoLogs();
    assert acts[..k][..0] == [];
    GrownIsOk(After(acts[..k]).logs);
    LogsMonotone(After(acts[..k]).logs, After(acts).logs, name);
  }

  lemma NoLogs()
    ensures After([]).logs == map[]
  {
  }
}
