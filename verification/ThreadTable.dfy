/** The slot table of the threaded server under every interleaving: each section protected by
    `table_lock` behaves like one step of the chat service, and names stay unique. */
module ThreadTable {
  import opened Bytes
  import opened Codec
  import opened History
  import opened Scanf
  import opened ChatSpec
  import opened ThreadProtocol
  import opened ThreadLocks

  // ---------- who owns which slot ----------

  /** Before a thread has given its slot back. */
  predicate Keeps(pc: Pc) {
    match pc
    case Recv => true
    case Wait(_) => true
    case Hold(phase) => !phase.CleanWipe? && !(phase.End? && phase.result.Cleared?)
    case Save(_, _, goal) => !goal.ToClose?
    case Next(_, goal) => !goal.ToClose?
    case Write(_, _, _, _, _, goal) => !goal.ToClose?
    case Drop(_, _, goal) => !goal.ToClose?
    case _ => false
  }

  predicate SeatedAt(st: State, t: nat)
    requires t < |st.peers|
  {
    var p := st.peers[t];
    p.home < MAX_CLIENTS && st.seats[p.home].conn == Some(t)
  }

  /** A slot's descriptor is that of a connection whose slot it is; a thread that has not given
      its slot back, or is inside a section, finds its own connection there. */
  ghost predicate SeatsOk(st: State) {
    && (forall i: Index :: st.seats[i].conn.Some? ==>
          st.seats[i].conn.value < |st.peers| && st.peers[st.seats[i].conn.value].home == i)
    && (forall t :: 0 <= t < |st.peers| && st.peers[t].seated ==> SeatedAt(st, t) && st.seats[st.peers[t].home].inUse)
    && (forall t :: 0 <= t < |st.peers| && Keeps(st.peers[t].pc) ==> st.peers[t].seated)
    && (forall t :: 0 <= t < |st.peers| && st.peers[t].pc.Hold? ==> SeatedAt(st, t))
    && (st.main.Install? ==> !st.seats[st.main.slot].inUse)
    && (st.main.Reset? ==> !st.seats[st.main.slot].inUse && st.seats[st.main.slot].conn == Some(st.main.c))
    && ((st.main.Leave? || st.main.Spawn?) ==> st.main.c < |st.peers| && st.peers[st.main.c].seated)
    && (Homeless(st.main) ==> st.main.c < |st.peers| && st.peers[st.main.c].home == MAX_CLIENTS)
  }

  /** A connection has been accepted and has no slot. */
  predicate Homeless(m: MainPc) {
    m.WaitTable? || m.ScanSlots? || m.Install? || m.LeaveFull? || m.Refuse?
  }

  /** Everything the invariant looks at, unchanged but for what a message does. */
  predicate SameSeats(st: State, st2: State) {
    && st2.seats == st.seats
    && |st2.peers| == |st.peers|
    && forall t :: 0 <= t < |st.peers| ==> && st2.peers[t].home == st.peers[t].home
                                           && st2.peers[t].seated == st.peers[t].seated
                                           && st2.peers[t].pc == st.peers[t].pc
  }

  lemma MainKeepsSeats(st: State, ch: Choice)
    requires LocksOk(st) && ThreadsOk(st) && SeatsOk(st)
    ensures SeatsOk(ActMain(st, ch))
  {
    hide LocksOk, ThreadsOk, SeatsOk, SameSeats, ActMain;
    match st.main {
      case Idle => IdleSeats(st, ch);
      case Install(_, _) => InstallSeats(st, ch);
      case Reset(_, _) => ResetSeats(st, ch);
      case Spawn(_, _) => SpawnSeats(st, ch);
      case _ =>
        OtherMain(st, ch);
        SameSeatsOk(st, ActMain(st, ch));
    }
  }

  lemma OtherMain(st: State, ch: Choice)
    requires ThreadsOk(st) && SeatsOk(st)
    requires !st.main.Idle? && !st.main.Install? && !st.main.Reset? && !st.main.Spawn?
    ensures var st2 := ActMain(st, ch);
            && SameSeats(st, st2)
            && !st2.main.Reset?
            && (st2.main.Install? ==> !st.seats[st2.main.slot].inUse)
            && (st2.main.Leave? || st2.main.Spawn? ==> (st.main.Leave? || st.main.Spawn?) && st2.main.c == st.main.c)
            && (Homeless(st2.main) ==> Homeless(st.main) && st2.main.c == st.main.c)
  {
    hide Pack, Refusal, Lit;
  }

  lemma SameSeatsOk(st: State, st2: State)
    requires SeatsOk(st) && SameSeats(st, st2)
    requires !st2.main.Reset?
    requires st2.main.Install? ==> !st.seats[st2.main.slot].inUse
    requires st2.main.Leave? || st2.main.Spawn? ==> (st.main.Leave? || st.main.Spawn?) && st2.main.c == st.main.c
    requires Homeless(st2.main) ==> Homeless(st.main) && st2.main.c == st.main.c
    ensures SeatsOk(st2)
  {
  }

  lemma IdleSeats(st: State, ch: Choice)
    requires SeatsOk(st) && st.main.Idle?
    ensures SeatsOk(ActMain(st, ch))
  {
  }

  lemma InstallSeats(st: State, ch: Choice)
    requires LocksOk(st) && ThreadsOk(st) && SeatsOk(st) && st.main.Install?
    ensures SeatsOk(ActMain(st, ch))
  {
    forall t | 0 <= t < |st.peers|
      ensures !st.peers[t].pc.Hold?
    {
    }
  }

  lemma ResetSeats(st: State, ch: Choice)
    requires ThreadsOk(st) && SeatsOk(st) && st.main.Reset?
    ensures SeatsOk(ActMain(st, ch))
  {
  }

  lemma SpawnSeats(st: State, ch: Choice)
    requires ThreadsOk(st) && SeatsOk(st) && st.main.Spawn?
    ensures SeatsOk(ActMain(st, ch))
  {
  }

  /** What a step of thread `t` does to the seats: nothing, or it gives its own one back. */
  predicate SeatStep(st: State, st2: State, t: nat)
    requires t < |st.peers|
  {
    var pc := st.peers[t].pc;
    && OnlyPc(st, st2, t)
    && (forall u :: 0 <= u < |st.peers| && u != t ==> st2.peers[u].seated == st.peers[u].seated)
    && (Keeps(st2.peers[t].pc) ==> Keeps(pc))
    && (st2.peers[t].pc.Hold? ==> pc.Hold? || Keeps(pc))
    && (if pc.Hold? && pc.phase.CleanClear? && st.peers[t].home < MAX_CLIENTS then
          && !Keeps(st2.peers[t].pc)
          && !st2.peers[t].seated
          && st2.seats == st.seats[st.peers[t].home := st.seats[st.peers[t].home].(inUse := false)]
        else
          st2.seats == st.seats && st2.peers[t].seated == st.peers[t].seated)
  }

  lemma ThreadKeepsSeats(st: State, t: nat, ch: Choice)
    requires ThreadsOk(st) && SeatsOk(st) && Runs(st, t)
    ensures SeatsOk(ActThread(st, t, ch))
  {
    hide SeatStep, SeatsOk, ThreadsOk, ActThread;
    ThreadSeats(st, t, ch);
    SeatStepOk(st, ActThread(st, t, ch), t);
  }

  lemma SeatStepOk(st: State, st2: State, t: nat)
    requires ThreadsOk(st) && SeatsOk(st) && Runs(st, t) && SeatStep(st, st2, t)
    ensures SeatsOk(st2)
  {
    hide Keeps;
  }

  lemma ThreadSeats(st: State, t: nat, ch: Choice)
    requires Runs(st, t)
    ensures SeatStep(st, ActThread(st, t, ch), t)
  {
    hide Receive, Enter, Work, Release, SaveRecord, Proceed, Push, Unlock, Shut, SeatStep;
    match st.peers[t].pc {
      case Recv => ReceiveSeats(st, t, ch);
      case Wait(_) => QuickSeats(st, t);
      case Hold(_) => SectionSeats(st, t, ch);
      case Save(_, _, _) => SaveSeats(st, t, ch);
      case Next(_, _) => ProceedSeats(st, t);
      case Write(_, _, _, _, _, _) => PushSeats(st, t, ch);
      case _ => QuickSeats(st, t);
    }
  }

  lemma QuickSeats(st: State, t: nat)
    requires Runs(st, t) && !st.peers[t].pc.Hold?
    ensures SeatStep(st, st, t)
    ensures st.peers[t].pc.Wait? ==> SeatStep(st, Enter(st, t), t)
    ensures st.peers[t].pc.Drop? ==> SeatStep(st, Unlock(st, t), t)
    ensures st.peers[t].pc.Close? ==> SeatStep(st, Shut(st, t), t)
  {
  }

  lemma SaveSeats(st: State, t: nat, ch: Choice)
    requires Runs(st, t) && st.peers[t].pc.Save?
    ensures SeatStep(st, SaveRecord(st, t, ch), t)
  {
    hide Noted;
  }

  lemma ReceiveSeats(st: State, t: nat, ch: Choice)
    requires Runs(st, t) && st.peers[t].pc.Recv?
    ensures SeatStep(st, Receive(st, t, ch), t)
  {
    hide ScanLogin, CStr, Say, Refusal, Saved, LogOf, Lit, AskedStatus, History.Reply;
  }

  lemma SectionSeats(st: State, t: nat, ch: Choice)
    requires Runs(st, t) && st.peers[t].pc.Hold?
    ensures st.peers[t].pc.phase.End? ==> SeatStep(st, Release(st, t, ch), t)
    ensures !st.peers[t].pc.phase.End? ==> SeatStep(st, Work(st, t, ch), t)
  {
    hide Touch, CStr, Say, Refusal, Saved, SnPrintf, CopiedName, Lit, Left, Entry;
  }

  lemma ProceedSeats(st: State, t: nat)
    requires Runs(st, t) && st.peers[t].pc.Next?
    ensures SeatStep(st, Proceed(st, t), t)
  {
  }

  lemma PushSeats(st: State, t: nat, ch: Choice)
    requires Runs(st, t) && st.peers[t].pc.Write?
    ensures SeatStep(st, Push(st, t, ch), t)
  {
    hide Pack;
  }

  lemma SeatsKept(st: State, a: Action)
    requires LocksOk(st) && ThreadsOk(st) && SeatsOk(st)
    ensures SeatsOk(Act(st, a))
  {
    hide LocksOk, ThreadsOk, SeatsOk, ActThread, ActMain;
    match a {
      case Main(ch) => MainKeepsSeats(st, ch);
      case Thread(t, ch) =>
        if Runs(st, t) {
          ThreadKeepsSeats(st, t, ch);
        }
    }
  }
}
