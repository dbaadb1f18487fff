/** Reply pairing in the threaded server under every interleaving: each client is answered
    once per request, in order, on its own connection. */
module ThreadReplies {
  import opened Bytes
  import opened Codec
  import opened History
  import opened Scanf
  import opened ChatSpec
  import opened ThreadProtocol
  import opened ThreadLocks
  import opened ThreadTable
  import opened ThreadSections
  import opened ThreadLetters

  /** Whether an answer to the present request is still to be sent. */
  predicate Owes(pc: Pc) {
    match pc
    case Wait(phase) => PhaseOwes(phase)
    case Hold(phase) => PhaseOwes(phase)
    case _ => Todo(pc) != [] && Todo(pc)[|Todo(pc)| - 1].sort.Answer?
  }

  predicate PhaseOwes(phase: Phase) {
    match phase
    case LogoutClear(_) => false
    case LogoutWipe(_) => false
    case CleanClear => false
    case CleanWipe(_, _) => false
    case End(result) => !result.LoggedOut? && !result.Cleared?
    case _ => true
  }

  /** On the way back to the receive loop, or in it. */
  predicate Returning(pc: Pc) {
    match pc
    case Recv => true
    case Unborn => true
    case Save(_, _, goal) => goal.ToRecv?
    case Next(_, goal) => goal.ToRecv?
    case Write(_, _, _, _, _, goal) => goal.ToRecv?
    case Drop(_, _, goal) => goal.ToRecv?
    case _ => false
  }

  /** The answers planned: one at most, the last thing planned, to the thread's own slot. */
  predicate AnswerLast(todo: seq<Item>, home: Bound, req: Message) {
    forall k :: 0 <= k < |todo| && todo[k].sort.Answer? ==>
      k == |todo| - 1 && todo[k].One? && todo[k].dst == home && Answers(req, todo[k].msg)
  }

  predicate Balanced(p: Peer) {
    && |p.replies| <= |p.requests|
    && (forall k :: 0 <= k < |p.replies| ==> Answers(p.requests[k], p.replies[k]))
    && AnswerLast(Todo(p.pc), p.home, Current(p))
    && (Owes(p.pc) && !p.pc.Wait? && !p.pc.Hold? ==> Returning(p.pc))
    && (if Owes(p.pc) then |p.requests| == |p.replies| + 1
        else if Returning(p.pc) then |p.requests| == |p.replies|
        else |p.requests| == |p.replies| || (|p.requests| == |p.replies| + 1 && Current(p).kind == MSG_LOGOUT))
  }

  /** The answers of thread `t` among the letters of a connection. */
  function Mine(handed: seq<Letter>, t: nat): seq<Message> {
    if handed == [] then []
    else
      var n := |handed| - 1;
      Mine(handed[..n], t) + if handed[n].src == t && handed[n].sort.Answer? then [handed[n].msg] else []
  }

  ghost predicate RepliesOk(st: State) {
    && (forall t :: 0 <= t < |st.peers| ==> Balanced(st.peers[t]))
    && (forall c, t :: 0 <= c < |st.peers| && 0 <= t ==> Mine(st.peers[c].handed, t) == AnswersOn(st.peers, c, t))
  }

  /** What thread `t` has answered on connection `c`. */
  function AnswersOn(peers: seq<Peer>, c: nat, t: nat): seq<Message> {
    if c == t && t < |peers| then peers[t].replies else []
  }

  lemma MineAppend(handed: seq<Letter>, l: Letter, t: nat)
    ensures Mine(handed + [l], t) == Mine(handed, t) + if l.src == t && l.sort.Answer? then [l.msg] else []
  {
    assert (handed + [l])[..|handed|] == handed;
  }

  // ---------- steps that answer nothing ----------

  lemma QuietReplies(st: State, st2: State, t: nat)
    requires RepliesOk(st) && t < |st.peers| && SameLetters(st, st2, t) && Balanced(st2.peers[t])
    requires forall u :: 0 <= u < |st.peers| ==> st2.peers[u].replies == st.peers[u].replies
    ensures RepliesOk(st2)
  {
    hide Answers, Owes, Returning, AnswerLast, Current, Todo;
    forall u | 0 <= u < |st2.peers|
      ensures Balanced(st2.peers[u])
    {
      if u != t {
        BalancedSame(st.peers[u], st2.peers[u]);
      }
    }
    hide Balanced;
    forall c, u | 0 <= c < |st2.peers| && 0 <= u
      ensures Mine(st2.peers[c].handed, u) == AnswersOn(st2.peers, c, u)
    {
      assert Mine(st.peers[c].handed, u) == AnswersOn(st.peers, c, u);
    }
  }

  lemma BalancedSame(p: Peer, q: Peer)
    requires Balanced(p) && q.pc == p.pc && q.home == p.home && q.requests == p.requests && q.replies == p.replies
    ensures Balanced(q)
  {
    hide Answers, Owes, Returning, AnswerLast, Todo;
  }

  /** The plan made for a request is one answer, possibly after copies, or none for LOGOUT. */
  lemma StartOwes(s: Index, me: Slot, logs: Logs, m: Message, now: Time)
    ensures var pc := Start(s, me, logs, m, now);
            && AnswerLast(Todo(pc), s, m)
            && !pc.Unborn?
            && (if m.kind == MSG_LOGOUT then pc == Wait(LogoutClear(me.name))
                else Owes(pc) && (pc.Wait? || ((pc.Save? || pc.Next?) && Returning(pc))))
  {
    hide ScanLogin, CStr, LogOf, Lit, AskedStatus, History.Reply;
  }

  lemma AfterOwes(result: Result, s: Index, req: Message, ch: Choice)
    requires Fits(End(result), req)
    ensures var pc := AfterSection(result, s, req, ch);
            && AnswerLast(Todo(pc), s, req)
            && (Owes(pc) <==> PhaseOwes(End(result)))
            && (Owes(pc) <==> Returning(pc))
            && !pc.Wait? && !pc.Hold? && !pc.Unborn?
  {
    hide ScanLogin, CStr, SnPrintf, CopiedName, Lit, AskedStatus;
  }

  lemma ReceiveReplies(st: State, t: nat, ch: Choice)
    requires RepliesOk(st) && Runs(st, t) && st.peers[t].pc.Recv?
    ensures RepliesOk(Receive(st, t, ch))
  {
    hide Answers, Start, RepliesOk, AnswerLast;
    var p, st2 := st.peers[t], Receive(st, t, ch);
    PeerBalanced(st, t);
    if ch.msg.Some? {
      StartOwes(p.home, st.slots[p.home], st.logs, ch.msg.value, ch.now);
    } else {
      NothingPlanned(p.home, Current(p));
    }
    QuietReplies(st, st2, t);
  }

  lemma PeerBalanced(st: State, t: nat)
    requires RepliesOk(st) && t < |st.peers|
    ensures Balanced(st.peers[t])
  {
  }

  lemma NothingPlanned(home: Bound, req: Message)
    ensures AnswerLast([], home, req)
  {
  }

  lemma SectionReplies(st: State, t: nat, ch: Choice)
    requires RepliesOk(st) && Runs(st, t) && (st.peers[t].pc.Hold? || st.peers[t].pc.Wait?)
    requires Aware(st.peers[t], st.base)
    ensures RepliesOk(ActThread(st, t, ch))
  {
    hide Answers, RepliesOk, AnswerLast, AfterSection, NextPhase, Touch, Saved, CStr, Own, Seen, Fits, Returning;
    var p, st2 := st.peers[t], ActThread(st, t, ch);
    PeerBalanced(st, t);
    NothingPlanned(p.home, Current(p));
    if p.pc.Hold? && p.pc.phase.End? {
      AfterOwes(p.pc.phase.result, p.home, Current(p), ch);
    } else if p.pc.Hold? {
      PhaseStillOwes(p.pc.phase, st.slots, p.home, p.valid);
    }
    assert Balanced(st2.peers[t]) by {
      HoldsNotReturning(p.pc);
      HoldsNotReturning(st2.peers[t].pc);
    }
    QuietReplies(st, st2, t);
  }

  lemma HoldsNotReturning(pc: Pc)
    ensures pc.Hold? || pc.Wait? ==> !Returning(pc)
  {
  }

  lemma PhaseStillOwes(phase: Phase, slots: Slots, s: Index, valid: Oracle)
    requires !phase.End?
    ensures PhaseOwes(NextPhase(phase, slots, s, valid)) <==> PhaseOwes(phase)
  {
    hide Entry, Lit;
  }

  lemma ProceedReplies(st: State, t: nat)
    requires RepliesOk(st) && Runs(st, t) && st.peers[t].pc.Next?
    requires var todo := st.peers[t].pc.todo; todo == [] || todo[0].Others?
    ensures RepliesOk(Proceed(st, t))
  {
    hide Answers, RepliesOk, Current, AnswerLast, Owes;
    var p, st2 := st.peers[t], Proceed(st, t);
    PeerBalanced(st, t);
    var todo, goal := p.pc.todo, p.pc.goal;
    if todo == [] {
      ArriveOwes(p, goal);
      BalancedSame(p.(pc := Arrive(goal)), st2.peers[t]);
    } else {
      var Others(i, sort, m) := todo[0];
      HeadAnswers(p, [], goal);
      if i == MAX_CLIENTS {
        assert [] + todo[1..] == todo[1..];
      } else {
        HeadAnswers(p, [One(i, sort, m), Others(i + 1, sort, m)], goal);
        HeadAnswers(p, [Others(i + 1, sort, m)], goal);
      }
    }
    QuietReplies(st, st2, t);
  }

  lemma ArriveOwes(p: Peer, goal: Goal)
    requires Balanced(p) && p.pc == Next([], goal)
    ensures Balanced(p.(pc := Arrive(goal)))
  {
    hide Answers;
  }

  /** One round of a loop leaves the answer that follows it where it is. */
  lemma HeadAnswers(p: Peer, head: seq<Item>, goal: Goal)
    requires Balanced(p) && p.pc.Next? && p.pc.todo != [] && p.pc.todo[0].Others? && p.pc.goal == goal
    requires forall k :: 0 <= k < |head| ==> head[k].sort == p.pc.todo[0].sort
    ensures Balanced(p.(pc := Next(head + p.pc.todo[1..], goal)))
  {
    hide Answers;
    var todo, rest := Todo(p.pc), p.pc.todo[1..];
    assert !todo[0].sort.Answer?;
    forall k | 0 <= k < |rest|
      ensures rest[k] == todo[k + 1]
    {
    }
    forall k | 0 <= k < |head + rest|
      ensures (head + rest)[k] == if k < |head| then head[k] else rest[k - |head|]
    {
    }
  }

  /** Writing, unlocking and closing plan nothing and answer nothing. */
  predicate KeepsPlan(st: State, st2: State, t: nat)
    requires t < |st.peers|
  {
    && SameLetters(st, st2, t)
    && (forall u :: 0 <= u < |st.peers| ==> st2.peers[u].replies == st.peers[u].replies)
    && st2.peers[t].requests == st.peers[t].requests
    && Todo(st2.peers[t].pc) == Todo(st.peers[t].pc)
    && (Returning(st2.peers[t].pc) <==> Returning(st.peers[t].pc))
    && (Owes(st2.peers[t].pc) <==> Owes(st.peers[t].pc))
  }

  lemma PushKeepsPlan(st: State, t: nat, ch: Choice)
    requires Runs(st, t) && st.peers[t].pc.Write?
    ensures KeepsPlan(st, Push(st, t, ch), t)
  {
    hide Pack;
  }

  lemma OthersKeepPlan(st: State, t: nat)
    requires Runs(st, t)
    ensures st.peers[t].pc.Drop? ==> KeepsPlan(st, Unlock(st, t), t)
    ensures st.peers[t].pc.Close? ==> KeepsPlan(st, Shut(st, t), t)
    ensures st.peers[t].pc.Done? ==> KeepsPlan(st, st, t)
  {
  }

  lemma SaveKeepsPlan(st: State, t: nat, ch: Choice)
    requires Runs(st, t) && st.peers[t].pc.Save?
    ensures KeepsPlan(st, SaveRecord(st, t, ch), t)
  {
    hide Noted;
  }

  lemma WriteReplies(st: State, t: nat, ch: Choice)
    requires RepliesOk(st) && Runs(st, t)
    requires var pc := st.peers[t].pc; pc.Save? || pc.Write? || pc.Drop? || pc.Close? || pc.Done?
    ensures RepliesOk(ActThread(st, t, ch))
  {
    hide RepliesOk, SaveRecord, Push, Unlock, Shut, Answers, Owes, Returning, AnswerLast, Todo;
    PeerBalanced(st, t);
    OthersKeepPlan(st, t);
    if st.peers[t].pc.Write? {
      PushKeepsPlan(st, t, ch);
    } else if st.peers[t].pc.Save? {
      SaveKeepsPlan(st, t, ch);
    }
    assert Balanced(ActThread(st, t, ch).peers[t]) by {
      PlainPcs(st, t, ch);
    }
    QuietReplies(st, ActThread(st, t, ch), t);
  }

  lemma PlainPcs(st: State, t: nat, ch: Choice)
    requires Runs(st, t)
    requires var pc := st.peers[t].pc; pc.Save? || pc.Write? || pc.Drop? || pc.Close? || pc.Done?
    ensures var pc2 := ActThread(st, t, ch).peers[t].pc; !pc2.Wait? && !pc2.Hold?
  {
    hide Pack, Noted;
  }

  // ---------- the step that may answer ----------

  /** A message of thread `t`'s plan is handed to connection `c`, if there is one. */
  predicate HandsReply(st: State, st2: State, t: nat, conn: Option<nat>, l: Letter)
    requires t < |st.peers|
  {
    && |st2.peers| == |st.peers|
    && (forall d :: 0 <= d < |st.peers| ==>
          && st2.peers[d].home == st.peers[d].home
          && st2.peers[d].requests == st.peers[d].requests
          && st2.peers[d].handed == (if conn == Some(d) then st.peers[d].handed + [l] else st.peers[d].handed)
          && (d != t ==> st2.peers[d].pc == st.peers[d].pc && st2.peers[d].replies == st.peers[d].replies))
    && st2.peers[t].replies == (if l.sort.Answer? then st.peers[t].replies + [l.msg] else st.peers[t].replies)
    && l.src == t
  }

  lemma BeginHandsReply(st: State, t: nat)
    requires Runs(st, t) && st.peers[t].pc.Next? && st.peers[t].pc.todo != [] && st.peers[t].pc.todo[0].One?
    ensures var p, item, st2 := st.peers[t], st.peers[t].pc.todo[0], Begin(st, t);
            var pc2 := st2.peers[t].pc;
            && Todo(pc2) == p.pc.todo[1..]
            && (pc2.Write? || pc2.Drop?)
            && (Returning(pc2) <==> Returning(p.pc))
            && HandsReply(st, st2, t, st.seats[item.dst].conn, Letter(t, |p.requests|, item.sort, item.msg))
  {
  }

  lemma BegunBalanced(p: Peer, q: Peer)
    requires Balanced(p) && p.pc.Next? && p.pc.todo != [] && p.pc.todo[0].One?
    requires (q.pc.Write? || q.pc.Drop?) && Todo(q.pc) == p.pc.todo[1..] && (Returning(q.pc) <==> Returning(p.pc))
    requires q.home == p.home && q.requests == p.requests
    requires q.replies == if p.pc.todo[0].sort.Answer? then p.replies + [p.pc.todo[0].msg] else p.replies
    ensures Balanced(q)
    ensures p.pc.todo[0].sort.Answer? ==> p.pc.todo[0].dst == p.home && Returning(p.pc)
  {
    hide Answers, Returning;
    assert Todo(p.pc)[0] == p.pc.todo[0];
    forall k | 0 <= k < |Todo(q.pc)|
      ensures Todo(q.pc)[k] == Todo(p.pc)[k + 1]
    {
    }
    if p.pc.todo[0].sort.Answer? {
      assert Current(p) == p.requests[|p.replies|];
    }
  }

  lemma BeginReplies(st: State, t: nat)
    requires SeatsOk(st) && RepliesOk(st)
    requires Runs(st, t) && st.peers[t].pc.Next? && st.peers[t].pc.todo != [] && st.peers[t].pc.todo[0].One?
    ensures RepliesOk(Begin(st, t))
  {
    hide RepliesOk, Begin, Balanced, Mine, SeatsOk;
    var p, item, st2 := st.peers[t], st.peers[t].pc.todo[0], Begin(st, t);
    var conn := st.seats[item.dst].conn;
    BeginHandsReply(st, t);
    PeerBalanced(st, t);
    BegunBalanced(p, st2.peers[t]);
    if item.sort.Answer? {
      OwnConnection(st, t);
    }
    HandedReplies(st, st2, t, conn, Letter(t, |p.requests|, item.sort, item.msg));
  }

  /** A thread that has not given its slot back finds its own connection there. */
  lemma OwnConnection(st: State, t: nat)
    requires SeatsOk(st) && Runs(st, t) && st.peers[t].pc.Next? && Returning(st.peers[t].pc)
    ensures st.seats[st.peers[t].home].conn == Some(t)
  {
    assert Keeps(st.peers[t].pc);
    assert SeatedAt(st, t);
  }

  lemma HandedReplies(st: State, st2: State, t: nat, conn: Option<nat>, l: Letter)
    requires RepliesOk(st) && t < |st.peers|
    requires HandsReply(st, st2, t, conn, l) && Balanced(st2.peers[t])
    requires l.sort.Answer? ==> conn == Some(t)
    ensures RepliesOk(st2)
  {
    hide Answers, Owes, Returning, AnswerLast, Todo, Mine, Balanced;
    forall u | 0 <= u < |st2.peers|
      ensures Balanced(st2.peers[u])
    {
      if u != t {
        BalancedSame(st.peers[u], st2.peers[u]);
      }
    }
    forall c, u | 0 <= c < |st2.peers| && 0 <= u
      ensures Mine(st2.peers[c].handed, u) == AnswersOn(st2.peers, c, u)
    {
      assert Mine(st.peers[c].handed, u) == AnswersOn(st.peers, c, u);
      MineAppend(st.peers[c].handed, l, u);
      assert Mine(st.peers[c].handed, u) + [] == Mine(st.peers[c].handed, u);
    }
  }

  // ---------- the accepting thread ----------

  /** A new connection, a refusal, or a change of slot: no request and no answer. */
  ghost predicate NoAnswers(st: State, st2: State) {
    && |st2.peers| >= |st.peers|
    && (forall u :: 0 <= u < |st.peers| ==>
          && st2.peers[u].replies == st.peers[u].replies
          && st2.peers[u].requests == st.peers[u].requests
          && (st2.peers[u].pc == st.peers[u].pc || (st.peers[u].pc.Unborn? && st2.peers[u].pc.Recv?))
          && (st2.peers[u].home == st.peers[u].home || st.peers[u].pc.Unborn?)
          && (st2.peers[u].handed == st.peers[u].handed
              || (|st2.peers[u].handed| == |st.peers[u].handed| + 1
                  && st2.peers[u].handed[..|st.peers[u].handed|] == st.peers[u].handed
                  && !st2.peers[u].handed[|st.peers[u].handed|].sort.Answer?)))
    && (forall u :: |st.peers| <= u < |st2.peers| ==> st2.peers[u] == NewPeer())
  }

  lemma MainAnswersNothing(st: State, ch: Choice)
    requires ThreadsOk(st)
    ensures NoAnswers(st, ActMain(st, ch))
  {
    hide Pack, Refusal, Lit, NoAnswers, ThreadsOk, ActMain;
    match st.main {
      case LeaveFull(_) => FullAnswersNothing(st, ch);
      case Refuse(_, _, _) => RefusalAnswersNothing(st, ch);
      case _ => OtherAnswersNothing(st, ch);
    }
  }

  lemma FullAnswersNothing(st: State, ch: Choice)
    requires ThreadsOk(st) && st.main.LeaveFull?
    ensures NoAnswers(st, ActMain(st, ch))
  {
    hide Pack, Refusal, Lit;
  }

  lemma RefusalAnswersNothing(st: State, ch: Choice)
    requires ThreadsOk(st) && st.main.Refuse?
    ensures NoAnswers(st, ActMain(st, ch))
  {
    hide Pack, Refusal, Lit;
  }

  lemma OtherAnswersNothing(st: State, ch: Choice)
    requires ThreadsOk(st) && !st.main.LeaveFull? && !st.main.Refuse?
    ensures NoAnswers(st, ActMain(st, ch))
  {
    hide Pack, Refusal, Lit;
  }

  lemma MainReplies(st: State, ch: Choice)
    requires ThreadsOk(st) && RepliesOk(st)
    ensures RepliesOk(ActMain(st, ch))
  {
    MainAnswersNothing(st, ch);
    hide ActMain, Balanced, Mine, NoAnswers, ThreadsOk;
    var st2 := ActMain(st, ch);
    forall u | 0 <= u < |st2.peers|
      ensures Balanced(st2.peers[u])
    {
      StillBalanced(st, st2, u);
    }
    forall c, u | 0 <= c < |st2.peers| && 0 <= u
      ensures Mine(st2.peers[c].handed, u) == AnswersOn(st2.peers, c, u)
    {
      StillMine(st, st2, c, u);
    }
  }

  lemma StillBalanced(st: State, st2: State, u: nat)
    requires RepliesOk(st) && NoAnswers(st, st2) && u < |st2.peers|
    ensures Balanced(st2.peers[u])
  {
    hide Answers, Mine;
    if u < |st.peers| {
      assert Balanced(st.peers[u]);
    }
  }

  lemma StillMine(st: State, st2: State, c: nat, u: nat)
    requires RepliesOk(st) && NoAnswers(st, st2) && c < |st2.peers|
    ensures Mine(st2.peers[c].handed, u) == AnswersOn(st2.peers, c, u)
  {
    hide Balanced, Mine;
    MineNone(u);
    if c < |st.peers| {
      assert Mine(st.peers[c].handed, u) == AnswersOn(st.peers, c, u);
      var h, h2 := st.peers[c].handed, st2.peers[c].handed;
      if h2 != h {
        assert h2 == h + [h2[|h|]];
        MineAppend(h, h2[|h|], u);
        assert Mine(h, u) + [] == Mine(h, u);
      }
    }
  }

  lemma MineNone(t: nat)
    ensures Mine([], t) == []
  {
  }

  // ---------- every interleaving ----------

  lemma RepliesKept(st: State, a: Action)
    requires Good(st) && RepliesOk(st)
    ensures RepliesOk(Act(st, a))
  {
    GoodParts(st);
    hide Good, RepliesOk, ActMain, ActThread, LocksOk, ThreadsOk, SeatsOk;
    match a {
      case Main(ch) => MainReplies(st, ch);
      case Thread(t, ch) =>
        if Runs(st, t) {
          ThreadRepliesOk(st, t, ch);
        }
    }
  }

  lemma ThreadRepliesOk(st: State, t: nat, ch: Choice)
    requires SeatsOk(st) && SectionsOk(st) && RepliesOk(st) && Runs(st, t)
    ensures RepliesOk(ActThread(st, t, ch))
  {
    hide SeatsOk, RepliesOk, Begin, Receive, Enter, Work, Release, Push, Unlock, Shut, TableOk, TableNow, Aware;
    match st.peers[t].pc {
      case Recv => ReceiveReplies(st, t, ch);
      case Wait(_) => SectionReplies(st, t, ch);
      case Hold(_) => SectionReplies(st, t, ch);
      case Next(todo, _) =>
        if todo == [] || todo[0].Others? {
          ProceedReplies(st, t);
        } else {
          BeginReplies(st, t);
        }
      case _ => WriteReplies(st, t, ch);
    }
  }

  lemma InitReplies()
    ensures RepliesOk(Init())
  {
  }

  lemma {:induction false} AfterReplies(acts: seq<Action>)
    ensures RepliesOk(After(acts))
  {
    hide RepliesOk, Good, Act, Init;
    if acts == [] {
      InitReplies();
    } else {
      AfterReplies(acts[..|acts| - 1]);
      AfterGood(acts[..|acts| - 1]);
      RepliesKept(After(acts[..|acts| - 1]), acts[|acts| - 1]);
    }
  }

  /** Reply pairing: in every reachable state the answers a client's thread has handed to its
      own connection, and to no other, are one for each request in order, at most the last
      one missing; none is missing when it is back in its receive loop, and none but that of
      a LOGOUT once it is done. */
  lemma ReplyPairing(acts: seq<Action>, t: nat)
    requires t < |After(acts).peers|
    ensures var p := After(acts).peers[t];
            && Mine(p.handed, t) == p.replies
            && |p.replies| <= |p.requests| <= |p.replies| + 1
            && (forall k :: 0 <= k < |p.replies| ==> Answers(p.requests[k], p.replies[k]))
            && (p.pc.Recv? ==> |p.replies| == |p.requests|)
            && (p.pc.Done? && |p.replies| < |p.requests| ==> p.requests[|p.requests| - 1].kind == MSG_LOGOUT)
    ensures forall c :: 0 <= c < |After(acts).peers| && c != t ==> Mine(After(acts).peers[c].handed, t) == []
  {
    hide After, Answers, Mine;
    AfterReplies(acts);
    var st := After(acts);
    assert Balanced(st.peers[t]);
    assert Mine(st.peers[t].handed, t) == AnswersOn(st.peers, t, t);
    forall c | 0 <= c < |st.peers| && c != t
      ensures Mine(st.peers[c].handed, t) == []
    {
      assert Mine(st.peers[c].handed, t) == AnswersOn(st.peers, c, t);
    }
  }
}
