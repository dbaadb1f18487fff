/** The accepting thread of the threaded server: who gets a slot, who is refused, and that no
    connection is forgotten. */
module ThreadAdmission {
  import opened Bytes
  import opened Codec
  import opened ChatSpec
  import opened ServiceLaws
  import opened ThreadProtocol
  import opened ThreadLocks
  import opened ThreadTable
  import opened ThreadSections
  import opened ThreadEnds

  /** All slots below `n` are in use. */
  predicate UsedBelow(seats: Seats, n: Bound) {
    forall j :: 0 <= j < n ==> seats[j].inUse
  }

  /** What the accepting thread, holding `table_lock`, has found out. */
  predicate Surveyed(st: State) {
    match st.main
    case ScanSlots(_, i) => UsedBelow(st.seats, i)
    case Install(_, i) => UsedBelow(st.seats, i) && !st.seats[i].inUse
    case LeaveFull(_) => UsedBelow(st.seats, MAX_CLIENTS)
    case _ => true
  }

  /** Every connection but the one being accepted has a thread or is closed. */
  predicate NobodyForgotten(st: State) {
    forall c :: 0 <= c < |st.peers| && (st.main.Idle? || c != st.main.c) ==>
                  !st.peers[c].pc.Unborn? || st.peers[c].broken
  }

  lemma MainSurveys(st: State, ch: Choice)
    requires Surveyed(st)
    ensures Surveyed(ActMain(st, ch))
  {
    hide Pack, Refusal, Lit, Hand, Break, Deliver;
  }

  lemma ThreadSurveys(st: State, t: nat, ch: Choice)
    requires LocksOk(st) && Runs(st, t) && Surveyed(st)
    ensures Surveyed(ActThread(st, t, ch))
  {
    MainLock(st);
    HolderIsClient(st, t);
    PcsKept(st, t, ch);
    ThreadSeats(st, t, ch);
    hide ActThread, LocksOk;
  }

  lemma HolderIsClient(st: State, t: nat)
    requires LocksOk(st) && t < |st.peers|
    ensures st.peers[t].pc.Hold? ==> st.tableLock == Client(t)
  {
  }

  lemma MainForgetsNobody(st: State, ch: Choice)
    requires ThreadsOk(st) && NobodyForgotten(st)
    ensures NobodyForgotten(ActMain(st, ch))
  {
    hide Pack, Refusal, Lit;
  }

  lemma ThreadForgetsNobody(st: State, t: nat, ch: Choice)
    requires Runs(st, t) && NobodyForgotten(st)
    ensures NobodyForgotten(ActThread(st, t, ch))
  {
    PcsKept(st, t, ch);
    forall c | 0 <= c < |st.peers|
      ensures st.peers[c].broken ==> ActThread(st, t, ch).peers[c].broken
    {
      ThreadBroken(st, t, ch, c);
    }
    hide ActThread;
  }

  lemma {:induction false} AfterSurveyed(acts: seq<Action>)
    ensures Surveyed(After(acts)) && NobodyForgotten(After(acts))
  {
    hide Act, Good, LocksOk, Surveyed, NobodyForgotten, Init;
    if acts == [] {
      InitSurveyed();
    } else {
      var st, a := After(acts[..|acts| - 1]), acts[|acts| - 1];
      AfterSurveyed(acts[..|acts| - 1]);
      AfterLocks(acts[..|acts| - 1]);
      StepSurveyed(st, a);
    }
  }

  lemma InitSurveyed()
    ensures Surveyed(Init()) && NobodyForgotten(Init())
  {
  }

  lemma StepSurveyed(st: State, a: Action)
    requires LocksOk(st) && ThreadsOk(st) && Surveyed(st) && NobodyForgotten(st)
    ensures Surveyed(Act(st, a)) && NobodyForgotten(Act(st, a))
  {
    hide ActMain, ActThread, LocksOk, ThreadsOk, Surveyed, NobodyForgotten;
    match a {
      case Main(ch) =>
        MainSurveys(st, ch);
        MainForgetsNobody(st, ch);
      case Thread(t, ch) =>
        if Runs(st, t) {
          ThreadSurveys(st, t, ch);
          ThreadForgetsNobody(st, t, ch);
        }
    }
  }

  /** Who is let in: in every reachable state a step that gives a slot a new connection gives it
      the first slot not in use; one that lets the accepting thread say something says "Server
      full" to the connection being accepted, and only while every slot is in use. */
  lemma Admission(acts: seq<Action>, ch: Choice)
    ensures var st, st2 := After(acts), Act(After(acts), Main(ch));
            && (forall i: Index :: st2.seats[i].conn != st.seats[i].conn ==>
                  && !st.seats[i].inUse && UsedBelow(st.seats, i)
                  && !st.main.Idle? && st2.seats[i].conn == Some(st.main.c))
            && (forall c :: 0 <= c < |st.peers| && c < |st2.peers| && st2.peers[c].handed != st.peers[c].handed ==>
                  && UsedBelow(st.seats, MAX_CLIENTS)
                  && !st.main.Idle? && c == st.main.c
                  && exists l :: && st2.peers[c].handed == st.peers[c].handed + [l]
                                 && Tells(l.msg, MSG_ERROR, 1, [], Lit("Server full"), ch.now))
  {
    AfterSurveyed(acts);
    hide After;
    MainAdmits(After(acts), ch);
  }

  lemma MainAdmits(st: State, ch: Choice)
    requires Surveyed(st)
    ensures var st2 := ActMain(st, ch);
            && (forall i: Index :: st2.seats[i].conn != st.seats[i].conn ==>
                  && !st.seats[i].inUse && UsedBelow(st.seats, i)
                  && !st.main.Idle? && st2.seats[i].conn == Some(st.main.c))
            && (forall c :: 0 <= c < |st.peers| && c < |st2.peers| && st2.peers[c].handed != st.peers[c].handed ==>
                  && UsedBelow(st.seats, MAX_CLIENTS)
                  && !st.main.Idle? && c == st.main.c
                  && exists l :: && st2.peers[c].handed == st.peers[c].handed + [l]
                                 && Tells(l.msg, MSG_ERROR, 1, [], Lit("Server full"), ch.now))
  {
    FullText(ch.now);
    hide Pack, Refusal, Lit, Tells;
    if st.main.LeaveFull? && st.main.c < |st.peers| {
      var l := Letter(st.main.c, 0, Note, Refusal([], Lit("Server full"), ch.now));
      assert ActMain(st, ch).peers[st.main.c].handed == st.peers[st.main.c].handed + [l];
    }
  }

  lemma FullText(now: Time)
    ensures Tells(Refusal([], Lit("Server full"), now), MSG_ERROR, 1, [], Lit("Server full"), now)
  {
    hide Tells, Refusal;
    LitText("Server full");
    SayTells(MSG_ERROR, [], Lit("Server full"), now);
  }

  /** How many steps the accepting thread has left before it waits for a connection again. */
  function MainSteps(st: State): nat {
    match st.main
    case Idle => 0
    case WaitTable(_) => MAX_CLIENTS + HEADER_SIZE + MAX_PAYLOAD_LEN + 8
    case ScanSlots(_, i) => MAX_CLIENTS - i + HEADER_SIZE + MAX_PAYLOAD_LEN + 7
    case Install(_, _) => 4
    case Reset(_, _) => 3
    case Leave(_, _) => 2
    case Spawn(_, _) => 1
    case LeaveFull(_) => HEADER_SIZE + MAX_PAYLOAD_LEN + 4
    case Refuse(_, m, off) => if off >= |Pack(m)| then 2 else |Pack(m)| - off + 2
    case HangUp(_) => 1
  }

  /** The accepting thread is never stuck: whatever its calls return it comes nearer to its next
      `accept` with every step, but while `table_lock` is taken or a signal cuts a write short. */
  lemma MainMovesOn(st: State, ch: Choice)
    requires ThreadsOk(st) && !st.main.Idle?
    ensures var st2 := ActMain(st, ch);
            || MainSteps(st2) < MainSteps(st)
            || (st2 == st && ((st.main.WaitTable? && !st.tableLock.Free?) || (st.main.Refuse? && ch.n == 0)))
  {
    if st.main.LeaveFull? {
      FullFits(ch.now);
    }
    hide Pack, Refusal, Lit, Hand, Break, Deliver;
  }

  lemma FullFits(now: Time)
    ensures |Pack(Refusal([], Lit("Server full"), now))| <= HEADER_SIZE + MAX_PAYLOAD_LEN
  {
    hide Refusal;
  }

  /** No connection is forgotten: whenever the accepting thread waits for the next one, every
      connection so far has got a thread or has been closed. */
  lemma EverybodyServed(acts: seq<Action>)
    ensures var st := After(acts);
            st.main.Idle? ==> forall c :: 0 <= c < |st.peers| ==>
              || (!st.peers[c].pc.Unborn? && st.peers[c].home < MAX_CLIENTS)
              || st.peers[c].broken
  {
    AfterSurveyed(acts);
    AfterLocks(acts);
    hide After;
  }
}
