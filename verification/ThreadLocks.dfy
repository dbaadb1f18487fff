/** The locks of the threaded server: who holds what in every reachable state, and why nobody
    waits for ever on a holder that is stuck. */
module ThreadLocks {
  import opened Bytes
  import opened Codec
  import opened History
  import opened Scanf
  import opened ChatSpec
  import opened ThreadProtocol

  datatype Lock = Table | Send(i: Index)

  function OwnerOf(st: State, l: Lock): Owner {
    match l
    case Table => st.tableLock
    case Send(i) => st.sendLock[i]
  }

  /** Whether the accepting thread is between locking and unlocking the table. */
  predicate MainHolds(m: MainPc) {
    m.ScanSlots? || m.Install? || m.Reset? || m.Leave? || m.LeaveFull?
  }

  predicate Sends(pc: Pc, i: Index) {
    (pc.Write? || pc.Drop?) && pc.dst == i
  }

  /** Every lock is held exactly by the thread whose program counter says so. */
  ghost predicate LocksOk(st: State) {
    && (forall t :: 0 <= t < |st.peers| ==> (st.peers[t].pc.Hold? <==> st.tableLock == Client(t)))
    && (MainHolds(st.main) <==> st.tableLock.Acceptor?)
    && (st.tableLock.Client? ==> st.tableLock.t < |st.peers|)
    && (forall t, i: Index :: 0 <= t < |st.peers| ==> (Sends(st.peers[t].pc, i) <==> st.sendLock[i] == Client(t)))
    && (forall i: Index :: !st.sendLock[i].Acceptor? && (st.sendLock[i].Client? ==> st.sendLock[i].t < |st.peers|))
  }

  /** Threads that run have a slot, and a connection being accepted has no thread yet. */
  predicate ThreadsOk(st: State) {
    && (forall t :: 0 <= t < |st.peers| ==> st.peers[t].home < MAX_CLIENTS || st.peers[t].pc.Unborn?)
    && (!st.main.Idle? ==> st.main.c < |st.peers| && st.peers[st.main.c].pc.Unborn?)
    && ((st.main.Reset? || st.main.Leave? || st.main.Spawn?) ==> st.peers[st.main.c].home == st.main.slot)
  }

  lemma ThreadsKept(st: State, a: Action)
    requires ThreadsOk(st)
    ensures ThreadsOk(Act(st, a))
  {
    hide Pack, ActThread, Refusal, Lit;
    match a {
      case Main(ch) =>
      case Thread(t, ch) =>
        if Runs(st, t) {
          PcsKept(st, t, ch);
        }
    }
  }

  /** A thread's step changes no other thread's program counter, and nobody's home. */
  predicate OnlyPc(st: State, st2: State, t: nat) {
    && |st2.peers| == |st.peers|
    && st2.main == st.main
    && (forall u :: 0 <= u < |st.peers| ==> st2.peers[u].home == st.peers[u].home)
    && (forall u :: 0 <= u < |st.peers| && u != t ==> st2.peers[u].pc == st.peers[u].pc)
    && (t < |st.peers| ==> !st2.peers[t].pc.Unborn?)
  }

  lemma PcsKept(st: State, t: nat, ch: Choice)
    requires Runs(st, t)
    ensures OnlyPc(st, ActThread(st, t, ch), t)
  {
    hide Receive, Enter, Work, Release, SaveRecord, Proceed, Push, Unlock, Shut, OnlyPc;
    match st.peers[t].pc {
      case Recv => ReceivePcs(st, t, ch);
      case Wait(_) => QuickPcs(st, t, ch);
      case Hold(_) => SectionPcs(st, t, ch);
      case Next(_, _) => ProceedPcs(st, t);
      case Write(_, _, _, _, _, _) => PushPcs(st, t, ch);
      case Drop(_, _, _) => QuickPcs(st, t, ch);
      case Close => QuickPcs(st, t, ch);
      case _ => QuickPcs(st, t, ch);
    }
  }

  lemma QuickPcs(st: State, t: nat, ch: Choice)
    requires Runs(st, t)
    ensures OnlyPc(st, st, t)
    ensures st.peers[t].pc.Wait? ==> OnlyPc(st, Enter(st, t), t)
    ensures st.peers[t].pc.Drop? ==> OnlyPc(st, Unlock(st, t), t)
    ensures st.peers[t].pc.Close? ==> OnlyPc(st, Shut(st, t), t)
    ensures st.peers[t].pc.Save? ==> OnlyPc(st, SaveRecord(st, t, ch), t)
  {
    hide Noted;
  }

  lemma ReceivePcs(st: State, t: nat, ch: Choice)
    requires Runs(st, t)
    ensures OnlyPc(st, Receive(st, t, ch), t)
  {
    hide ScanLogin, CStr, Say, Refusal, Saved, LogOf, Lit, AskedStatus, History.Reply;
  }

  lemma SectionPcs(st: State, t: nat, ch: Choice)
    requires Runs(st, t) && st.peers[t].pc.Hold?
    ensures st.peers[t].pc.phase.End? ==> OnlyPc(st, Release(st, t, ch), t)
    ensures !st.peers[t].pc.phase.End? ==> OnlyPc(st, Work(st, t, ch), t)
  {
    hide NextPhase, Touch, CStr, Say, Refusal, Saved, SnPrintf, CopiedName, Lit, Left;
  }

  lemma ProceedPcs(st: State, t: nat)
    requires Runs(st, t) && st.peers[t].pc.Next?
    ensures OnlyPc(st, Proceed(st, t), t)
  {
  }

  lemma PushPcs(st: State, t: nat, ch: Choice)
    requires Runs(st, t) && st.peers[t].pc.Write?
    ensures OnlyPc(st, Push(st, t, ch), t)
  {
    hide Pack;
  }

  // ---------- every lock is where the program counters say ----------

  /** What a step of thread `t` may do to the locks, given its program counter before and
      after: none, or one of the four lock operations. */
  predicate LockMove(st: State, st2: State, t: nat)
    requires t < |st.peers| && t < |st2.peers|
  {
    var pc, pc2 := st.peers[t].pc, st2.peers[t].pc;
    || (st2.tableLock == st.tableLock && st2.sendLock == st.sendLock && (pc.Hold? <==> pc2.Hold?)
        && ((pc.Write? || pc.Drop?) <==> (pc2.Write? || pc2.Drop?))
        && (pc.Write? || pc.Drop? ==> pc2.dst == pc.dst))
    || (st2.sendLock == st.sendLock && !Busy(pc) && st.tableLock.Free? && pc2.Hold? && st2.tableLock == Client(t))
    || (st2.sendLock == st.sendLock && pc.Hold? && !Busy(pc2) && st2.tableLock.Free?)
    || (exists i: Index :: && st2.tableLock == st.tableLock && !Busy(pc) && Sends(pc2, i)
                           && st.sendLock[i].Free? && st2.sendLock == st.sendLock[i := Client(t)])
    || (exists i: Index :: && st2.tableLock == st.tableLock && Sends(pc, i) && !Busy(pc2)
                           && st2.sendLock == st.sendLock[i := Free])
  }

  /** Holding some lock. */
  predicate Busy(pc: Pc) {
    pc.Hold? || pc.Write? || pc.Drop?
  }

  lemma MoveKeepsLocks(st: State, st2: State, t: nat)
    requires LocksOk(st) && t < |st.peers| && OnlyPc(st, st2, t) && LockMove(st, st2, t)
    ensures LocksOk(st2)
  {
  }

  lemma QuickMoves(st: State, t: nat, ch: Choice)
    requires Runs(st, t)
    ensures LockMove(st, st, t)
    ensures st.peers[t].pc.Wait? ==> LockMove(st, Enter(st, t), t)
    ensures st.peers[t].pc.Drop? ==> LockMove(st, Unlock(st, t), t)
    ensures st.peers[t].pc.Close? ==> LockMove(st, Shut(st, t), t)
    ensures st.peers[t].pc.Save? ==> LockMove(st, SaveRecord(st, t, ch), t)
  {
    hide Noted;
    if st.peers[t].pc.Drop? {
      assert Sends(st.peers[t].pc, st.peers[t].pc.dst);
    }
  }

  lemma ReceiveMoves(st: State, t: nat, ch: Choice)
    requires Runs(st, t) && st.peers[t].pc.Recv?
    ensures LockMove(st, Receive(st, t, ch), t)
  {
    hide ScanLogin, CStr, Say, Refusal, Saved, LogOf, Lit, AskedStatus, History.Reply;
  }

  lemma SectionMoves(st: State, t: nat, ch: Choice)
    requires Runs(st, t) && st.peers[t].pc.Hold?
    ensures st.peers[t].pc.phase.End? ==> LockMove(st, Release(st, t, ch), t)
    ensures !st.peers[t].pc.phase.End? ==> LockMove(st, Work(st, t, ch), t)
  {
    hide NextPhase, Touch, CStr, Say, Refusal, Saved, SnPrintf, CopiedName, Lit, Left;
  }

  lemma ProceedMoves(st: State, t: nat)
    requires Runs(st, t) && st.peers[t].pc.Next?
    ensures LockMove(st, Proceed(st, t), t)
  {
    var todo := st.peers[t].pc.todo;
    if todo != [] && todo[0].One? && st.sendLock[todo[0].dst].Free? {
      assert Sends(Proceed(st, t).peers[t].pc, todo[0].dst);
    }
  }

  lemma PushMoves(st: State, t: nat, ch: Choice)
    requires Runs(st, t) && st.peers[t].pc.Write?
    ensures LockMove(st, Push(st, t, ch), t)
  {
    hide Pack;
  }

  lemma ThreadMoves(st: State, t: nat, ch: Choice)
    requires Runs(st, t)
    ensures OnlyPc(st, ActThread(st, t, ch), t)
    ensures LockMove(st, ActThread(st, t, ch), t)
  {
    hide Receive, Enter, Work, Release, SaveRecord, Proceed, Push, Unlock, Shut, LockMove;
    PcsKept(st, t, ch);
    match st.peers[t].pc {
      case Recv => ReceiveMoves(st, t, ch);
      case Wait(_) => QuickMoves(st, t, ch);
      case Hold(_) => SectionMoves(st, t, ch);
      case Next(_, _) => ProceedMoves(st, t);
      case Write(_, _, _, _, _, _) => PushMoves(st, t, ch);
      case Drop(_, _, _) => QuickMoves(st, t, ch);
      case Close => QuickMoves(st, t, ch);
      case _ => QuickMoves(st, t, ch);
    }
  }

  lemma LocksKept(st: State, a: Action)
    requires LocksOk(st) && ThreadsOk(st)
    ensures LocksOk(Act(st, a)) && ThreadsOk(Act(st, a))
  {
    hide ActThread, LockMove, OnlyPc, ActMain, LocksOk, ThreadsOk;
    ThreadsKept(st, a);
    match a {
      case Main(ch) => MainKeepsLocks(st, ch);
      case Thread(t, ch) =>
        if Runs(st, t) {
          ThreadMoves(st, t, ch);
          MoveKeepsLocks(st, ActThread(st, t, ch), t);
        }
    }
  }

  /** A step of the accepting thread leaves the running threads where they are. */
  predicate CalmPeers(st: State, st2: State) {
    && |st2.peers| >= |st.peers|
    && (forall u :: 0 <= u < |st.peers| ==>
                      st2.peers[u].pc == st.peers[u].pc || (st.peers[u].pc.Unborn? && st2.peers[u].pc.Recv?))
    && (forall u :: |st.peers| <= u < |st2.peers| ==> st2.peers[u].pc.Unborn?)
  }

  lemma MainCalm(st: State, ch: Choice)
    requires ThreadsOk(st)
    ensures CalmPeers(st, ActMain(st, ch))
  {
    hide Pack, Refusal, Lit;
  }

  lemma MainKeepsLocks(st: State, ch: Choice)
    requires LocksOk(st) && ThreadsOk(st)
    ensures LocksOk(ActMain(st, ch))
  {
    hide ActMain, LocksOk, CalmPeers, MainLockMove, ThreadsOk;
    MainCalm(st, ch);
    MainLock(st);
    MainMoves(st, ch);
    MainMoveKeeps(st, ActMain(st, ch));
  }

  lemma MainMoves(st: State, ch: Choice)
    requires MainHolds(st.main) <==> st.tableLock.Acceptor?
    ensures ActMain(st, ch).sendLock == st.sendLock && MainLockMove(st, ActMain(st, ch))
  {
    hide Pack, Refusal, Lit, Hand, Break, Deliver;
  }

  lemma MainMoveKeeps(st: State, st2: State)
    requires LocksOk(st) && CalmPeers(st, st2) && st2.sendLock == st.sendLock && MainLockMove(st, st2)
    ensures LocksOk(st2)
  {
  }

  predicate MainLockMove(st: State, st2: State) {
    || (st2.tableLock == st.tableLock && (MainHolds(st2.main) <==> MainHolds(st.main)))
    || (st.tableLock.Free? && st2.tableLock.Acceptor? && MainHolds(st2.main))
    || (st.tableLock.Acceptor? && st2.tableLock.Free? && !MainHolds(st2.main))
  }

  lemma MainLock(st: State)
    requires LocksOk(st)
    ensures MainHolds(st.main) <==> st.tableLock.Acceptor?
  {
  }

  lemma InitLocks()
    ensures LocksOk(Init()) && ThreadsOk(Init())
  {
  }

  /** In every reachable state of every interleaving. */
  lemma {:induction false} AfterLocks(acts: seq<Action>)
    ensures LocksOk(After(acts)) && ThreadsOk(After(acts))
  {
    hide LocksOk, ThreadsOk, Act, Init;
    if acts == [] {
      InitLocks();
    } else {
      AfterLocks(acts[..|acts| - 1]);
      LocksKept(After(acts[..|acts| - 1]), acts[|acts| - 1]);
    }
  }

  // ---------- nobody waits for ever ----------

  predicate Waits(st: State, who: Owner, l: Lock) {
    match who
    case Free => false
    case Acceptor => st.main.WaitTable? && l.Table?
    case Client(t) =>
      && Runs(st, t)
      && (match st.peers[t].pc
          case Wait(_) => l.Table?
          case Next(todo, _) => todo != [] && todo[0].One? && l == Send(todo[0].dst)
          case _ => false)
  }

  /** A thread has at most one lock, and waits for a lock only while it has none. */
  lemma OneLockEach(acts: seq<Action>, who: Owner, l: Lock, m: Lock)
    requires !who.Free? && OwnerOf(After(acts), l) == who
    ensures OwnerOf(After(acts), m) == who ==> l == m
    ensures !Waits(After(acts), who, m)
  {
    hide After;
    AfterLocks(acts);
    var st := After(acts);
    if who.Client? {
      var pc := st.peers[who.t].pc;
      assert l.Send? ==> Sends(pc, l.i);
      assert m.Send? ==> (Sends(pc, m.i) <==> OwnerOf(st, m) == who);
    }
  }

  function StepBy(who: Owner, ch: Choice): Action
    requires !who.Free?
  {
    if who.Acceptor? then Main(ch) else Thread(who.t, ch)
  }

  function PhaseRank(phase: Phase): nat {
    match phase
    case LoginScan(_, _, i) => MAX_CLIENTS - i + 5
    case LoginCheck(_, _) => 4
    case LoginName(_) => 3
    case LoginActive(_) => 2
    case LogoutClear(_) => 3
    case LogoutWipe(_) => 2
    case FindScan(_, i) => MAX_CLIENTS - i + 2
    case ListScan(_, i) => MAX_CLIENTS - i + 2
    case PutStatus(_) => 2
    case CleanClear => 3
    case CleanWipe(_, _) => 2
    case End(_) => 1
  }

  /** How many steps a holder can still take before it lets go of its lock. */
  function Rank(st: State, who: Owner): nat {
    match who
    case Free => 0
    case Acceptor =>
      (match st.main
       case ScanSlots(_, i) => MAX_CLIENTS - i + 4
       case Install(_, _) => 3
       case Reset(_, _) => 2
       case _ => 1)
    case Client(t) =>
      if t >= |st.peers| then 0
      else match st.peers[t].pc
        case Hold(phase) => PhaseRank(phase)
        case Write(_, _, m, off, _, _) => if off >= |Pack(m)| then 2 else |Pack(m)| - off + 2
        case _ => 1
  }

  /** The holder of a lock is never stuck: whatever it finds, short of a signal during a
      write, its next step lets go of the lock or brings that moment nearer. */
  lemma HolderMoves(st: State, who: Owner, l: Lock, ch: Choice)
    requires LocksOk(st) && ThreadsOk(st)
    requires !who.Free? && OwnerOf(st, l) == who && ch.n > 0
    ensures var st2 := Act(st, StepBy(who, ch));
            OwnerOf(st2, l).Free? || (OwnerOf(st2, l) == who && Rank(st2, who) < Rank(st, who))
  {
    hide Hand, Break, LocksOk;
    if who.Acceptor? {
      HolderPc(st, who, l);
      hide Pack, Refusal, Lit;
    } else {
      HolderPc(st, who, l);
      ClientMoves(st, who.t, l, ch);
    }
  }

  lemma HolderPc(st: State, who: Owner, l: Lock)
    requires LocksOk(st) && ThreadsOk(st)
    requires !who.Free? && OwnerOf(st, l) == who
    ensures who.Acceptor? ==> l.Table? && MainHolds(st.main)
    ensures who.Client? ==> && Runs(st, who.t)
                            && (if l.Table? then st.peers[who.t].pc.Hold? else Sends(st.peers[who.t].pc, l.i))
  {
  }

  lemma ClientMoves(st: State, t: nat, l: Lock, ch: Choice)
    requires Runs(st, t) && ch.n > 0
    requires OwnerOf(st, l) == Client(t)
    requires if l.Table? then st.peers[t].pc.Hold? else Sends(st.peers[t].pc, l.i)
    ensures var st2 := ActThread(st, t, ch);
            OwnerOf(st2, l).Free? || (OwnerOf(st2, l) == Client(t) && Rank(st2, Client(t)) < Rank(st, Client(t)))
  {
    hide Pack, Touch, Saved, AfterSection, CStr, Entry, Lit, Hand, Break, Deliver;
    if st.peers[t].pc.Write? {
      PushLowers(st, t, ch);
    } else if st.peers[t].pc.Hold? && !st.peers[t].pc.phase.End? {
      PhaseLowers(st.peers[t].pc.phase, st.slots, st.peers[t].home, st.peers[t].valid);
    }
  }

  lemma PhaseLowers(phase: Phase, slots: Slots, s: Index, valid: Oracle)
    requires !phase.End?
    ensures PhaseRank(NextPhase(phase, slots, s, valid)) < PhaseRank(phase)
  {
    hide Entry, Lit;
  }

  lemma PushLowers(st: State, t: nat, ch: Choice)
    requires Runs(st, t) && ch.n > 0 && st.peers[t].pc.Write?
    ensures Rank(Push(st, t, ch), Client(t)) < Rank(st, Client(t))
  {
    hide Pack;
  }

  /** The state after thread `who` has run alone. */
  function Alone(st: State, who: Owner, chs: seq<Choice>): State
    requires !who.Free?
    decreases |chs|
  {
    if chs == [] then st else Alone(Act(st, StepBy(who, chs[0])), who, chs[1..])
  }

  /** `waiter` needs only its own next step to have the lock. */
  predicate Grantable(st: State, waiter: Owner, l: Lock) {
    OwnerOf(st, l).Free? && Waits(st, waiter, l)
  }

  /** A lock held by one thread and waited for by another: the holder, left to run, lets go
      of it within `Rank` steps, while the other goes on waiting. */
  lemma {:induction false} HolderLetsGo(st: State, who: Owner, waiter: Owner, l: Lock, chs: seq<Choice>)
    requires LocksOk(st) && ThreadsOk(st)
    requires !who.Free? && OwnerOf(st, l) == who && Waits(st, waiter, l)
    requires |chs| >= Rank(st, who) && forall k :: 0 <= k < |chs| ==> chs[k].n > 0
    ensures exists k :: 0 <= k <= |chs| && Grantable(Alone(st, who, chs[..k]), waiter, l)
    decreases |chs|
  {
    hide Act, LocksOk, ThreadsOk, OwnerOf, Waits;
    if chs == [] {
      RankPositive(st, who, l);
    } else {
      var st2 := Act(st, StepBy(who, chs[0]));
      HolderMoves(st, who, l, chs[0]);
      LocksKept(st, StepBy(who, chs[0]));
      StillWaits(st, who, waiter, l, chs[0]);
      if OwnerOf(st2, l).Free? {
        AloneOnce(st, who, chs);
        assert Grantable(Alone(st, who, chs[..1]), waiter, l);
      } else {
        HolderLetsGo(st2, who, waiter, l, chs[1..]);
        var k :| 0 <= k <= |chs[1..]| && Grantable(Alone(st2, who, chs[1..][..k]), waiter, l);
        assert chs[..k + 1][1..] == chs[1..][..k];
      }
    }
  }

  lemma StillWaits(st: State, who: Owner, waiter: Owner, l: Lock, ch: Choice)
    requires LocksOk(st) && ThreadsOk(st)
    requires !who.Free? && OwnerOf(st, l) == who && Waits(st, waiter, l)
    ensures Waits(Act(st, StepBy(who, ch)), waiter, l)
  {
    HolderPc(st, who, l);
    if who.Client? {
      hide ActThread;
      PcsKept(st, who.t, ch);
    } else {
      MainCalm(st, ch);
      MainHomes(st, ch);
      hide ActMain;
    }
  }

  lemma MainHomes(st: State, ch: Choice)
    requires ThreadsOk(st)
    ensures forall u :: 0 <= u < |st.peers| && !st.peers[u].pc.Unborn? ==>
              u < |ActMain(st, ch).peers| && ActMain(st, ch).peers[u].home == st.peers[u].home
  {
    hide Pack, Refusal, Lit;
  }

  lemma AloneOnce(st: State, who: Owner, chs: seq<Choice>)
    requires !who.Free? && chs != []
    ensures Alone(st, who, chs[..1]) == Act(st, StepBy(who, chs[0]))
  {
    hide Act;
    assert chs[..1][1..] == [];
  }

  lemma RankPositive(st: State, who: Owner, l: Lock)
    requires LocksOk(st) && ThreadsOk(st)
    requires !who.Free? && OwnerOf(st, l) == who
    ensures Rank(st, who) > 0
  {
    HolderPc(st, who, l);
  }

  /** No deadlock, in any reachable state: a lock somebody waits for is either free, or held
      by a thread that itself waits for nothing and gives it up on its own; from there one step
      of the waiting thread takes it. */
  lemma NoDeadlock(acts: seq<Action>, waiter: Owner, l: Lock, chs: seq<Choice>)
    requires Waits(After(acts), waiter, l)
    requires |chs| >= Rank(After(acts), OwnerOf(After(acts), l)) && forall k :: 0 <= k < |chs| ==> chs[k].n > 0
    ensures var st := After(acts);
            var who := OwnerOf(st, l);
            || Grantable(st, waiter, l)
            || (&& !who.Free? && (forall m :: !Waits(st, who, m))
                && exists k :: 0 <= k <= |chs| && Grantable(Alone(st, who, chs[..k]), waiter, l))
  {
    hide After, Waits;
    AfterLocks(acts);
    var st := After(acts);
    var who := OwnerOf(st, l);
    if !who.Free? {
      HolderLetsGo(st, who, waiter, l, chs);
      forall m ensures !Waits(st, who, m) {
        OneLockEach(acts, who, l, m);
      }
    }
  }

  lemma GrantableTakes(st: State, waiter: Owner, l: Lock, ch: Choice)
    requires Grantable(st, waiter, l) && !waiter.Free?
    ensures OwnerOf(Act(st, StepBy(waiter, ch)), l) == waiter
  {
    hide Hand;
  }
}
