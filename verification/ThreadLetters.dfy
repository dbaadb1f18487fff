/** The order of delivery in the threaded server under every interleaving: at each receiver,
    what one client sent arrives in the order sent, each message at most once. */
module ThreadLetters {
  import opened Bytes
  import opened Codec
  import opened History
  import opened Scanf
  import opened ChatSpec
  import opened ThreadProtocol
  import opened ThreadLocks
  import opened ThreadTable

  predicate FromServer(m: Message) {
    m.sender == Field(SERVER, MAX_USERNAME_LEN)
  }

  /** A letter is the request it is tagged with, or something the server says itself. */
  predicate LetterTrue(peers: seq<Peer>, l: Letter) {
    && l.src < |peers|
    && l.req <= |peers[l.src].requests|
    && if l.sort.Copy? then l.req > 0 && l.msg == peers[l.src].requests[l.req - 1] else FromServer(l.msg)
  }

  /** Of two letters of one thread the earlier is of an earlier request, or of the same if they
      are not both copies of it. */
  predicate InTurn(handed: seq<Letter>) {
    forall i, j :: 0 <= i < j < |handed| && handed[i].src == handed[j].src ==>
      && handed[i].req <= handed[j].req
      && (handed[i].sort.Copy? && handed[j].sort.Copy? ==> handed[i].req < handed[j].req)
  }

  predicate ItemTrue(p: Peer, item: Item) {
    if item.sort.Copy? then p.requests != [] && item.msg == Current(p) else FromServer(item.msg)
  }

  /** Copies come first: a single one, a loop, or a loop one of whose sends is under way. */
  predicate Shape(todo: seq<Item>) {
    forall k :: 0 <= k < |todo| && todo[k].sort.Copy? ==>
      k == 0 || (k == 1 && todo[0].One? && todo[0].sort.Copy? && todo[1].Others? && todo[1].i == todo[0].dst + 1)
  }

  /** About to look for the receiver of a private message, or having found one. */
  predicate Seeks(pc: Pc) {
    (pc.Wait? || pc.Hold?) && (pc.phase.FindScan? || (pc.phase.End? && pc.phase.result.Found?))
  }

  predicate PlanTrue(p: Peer) {
    && (forall k :: 0 <= k < |Todo(p.pc)| ==> ItemTrue(p, Todo(p.pc)[k]))
    && Shape(Todo(p.pc))
    && (Seeks(p.pc) ==> p.requests != [])
    && (p.pc.Unborn? ==> p.requests == [])
  }

  /** The lowest slot that may still be handed a copy of the request being served. */
  function Floor(pc: Pc): Bound {
    var todo := Todo(pc);
    if Seeks(pc) then 0
    else if todo == [] || !todo[0].sort.Copy? then MAX_CLIENTS
    else if todo[0].One? then todo[0].dst
    else todo[0].i
  }

  /** No connection at or above the floor has had its copy of the present request yet. */
  predicate Behind(handed: seq<Letter>, home: Bound, t: nat, p: Peer) {
    forall k :: 0 <= k < |handed| && handed[k].src == t && handed[k].sort.Copy? && handed[k].req == |p.requests| ==>
      home < Floor(p.pc)
  }

  ghost predicate LettersOk(st: State) {
    && (forall c, k :: 0 <= c < |st.peers| && 0 <= k < |st.peers[c].handed| ==>
                         LetterTrue(st.peers, st.peers[c].handed[k]))
    && (forall c :: 0 <= c < |st.peers| ==> InTurn(st.peers[c].handed))
    && (forall t :: 0 <= t < |st.peers| ==> PlanTrue(st.peers[t]))
    && (forall t, c :: 0 <= t < |st.peers| && 0 <= c < |st.peers| ==>
          Behind(st.peers[c].handed, st.peers[c].home, t, st.peers[t]))
  }

  // ---------- steps that hand nothing over ----------

  /** Thread `t` moves on, having possibly received one more request. */
  predicate MovesOn(p: Peer, q: Peer) {
    && PlanTrue(q)
    && (q.requests == p.requests ==> Floor(p.pc) <= Floor(q.pc))
    && (q.requests == p.requests || (|q.requests| == |p.requests| + 1 && q.requests[..|p.requests|] == p.requests))
  }

  predicate SameLetters(st: State, st2: State, t: nat) {
    && |st2.peers| == |st.peers|
    && (forall c :: 0 <= c < |st.peers| ==> && st2.peers[c].handed == st.peers[c].handed
                                            && st2.peers[c].home == st.peers[c].home)
    && (forall u :: 0 <= u < |st.peers| && u != t ==> && st2.peers[u].pc == st.peers[u].pc
                                                      && st2.peers[u].requests == st.peers[u].requests)
  }

  lemma QuietLetters(st: State, st2: State, t: nat)
    requires LettersOk(st) && t < |st.peers| && SameLetters(st, st2, t) && MovesOn(st.peers[t], st2.peers[t])
    ensures LettersOk(st2)
  {
    hide FromServer, Floor, Shape, Seeks, Todo;
    forall c, k | 0 <= c < |st2.peers| && 0 <= k < |st2.peers[c].handed|
      ensures LetterTrue(st2.peers, st2.peers[c].handed[k])
    {
      assert LetterTrue(st.peers, st.peers[c].handed[k]);
    }
    forall u | 0 <= u < |st2.peers|
      ensures PlanTrue(st2.peers[u])
    {
      if u != t {
        assert PlanTrue(st.peers[u]);
        PlanSame(st.peers[u], st2.peers[u]);
      }
    }
    forall u, c | 0 <= u < |st2.peers| && 0 <= c < |st2.peers|
      ensures Behind(st2.peers[c].handed, st2.peers[c].home, u, st2.peers[u])
    {
      assert Behind(st.peers[c].handed, st.peers[c].home, u, st.peers[u]);
      if u == t && st2.peers[t].requests != st.peers[t].requests {
        forall k | 0 <= k < |st2.peers[c].handed| && st2.peers[c].handed[k].src == t
          ensures st2.peers[c].handed[k].req < |st2.peers[t].requests|
        {
          assert LetterTrue(st.peers, st.peers[c].handed[k]);
        }
      }
    }
  }

  lemma PlanSame(p: Peer, q: Peer)
    requires PlanTrue(p) && q.pc == p.pc && q.requests == p.requests
    ensures PlanTrue(q)
  {
    hide FromServer, Shape, Seeks, Todo;
    forall k | 0 <= k < |Todo(q.pc)|
      ensures ItemTrue(q, Todo(q.pc)[k])
    {
      assert ItemTrue(p, Todo(p.pc)[k]);
    }
  }

  lemma SaysServer(kind: nat, receiver: seq<Byte>, text: seq<Byte>, now: Time)
    ensures FromServer(Say(kind, receiver, text, now))
    ensures FromServer(Refusal(receiver, text, now))
  {
  }

  /** A program counter that calls for nothing, or for one message of the server's own. */
  predicate Plain(pc: Pc) {
    && !Seeks(pc)
    && !pc.Unborn?
    && (forall k :: 0 <= k < |Todo(pc)| ==> !Todo(pc)[k].sort.Copy? && FromServer(Todo(pc)[k].msg))
  }

  /** A program counter that calls for copies of `m` and then a message of the server's own. */
  predicate Copying(pc: Pc, m: Message) {
    && pc.Save?
    && |pc.todo| == 2
    && pc.todo[0].sort.Copy? && pc.todo[0].msg == m
    && !pc.todo[1].sort.Copy? && FromServer(pc.todo[1].msg)
  }

  lemma StartPlans(s: Index, me: Slot, logs: Logs, m: Message, now: Time)
    ensures var pc := Start(s, me, logs, m, now);
            Plain(pc) || Copying(pc, m) || (Seeks(pc) && pc.Wait?)
  {
    hide ScanLogin, CStr, Say, Refusal, FromServer, LogOf, Lit, AskedStatus, History.Reply;
    forall kind: nat, r, text
      ensures FromServer(Say(kind, r, text, now))
    {
      SaysServer(kind, r, text, now);
    }
    forall r, text
      ensures FromServer(Refusal(r, text, now))
    {
      SaysServer(MSG_ERROR, r, text, now);
    }
  }

  lemma AfterPlans(result: Result, s: Index, req: Message, ch: Choice)
    ensures var pc := AfterSection(result, s, req, ch);
            if result.Found? then Copying(pc, req) else Plain(pc)
  {
    hide CStr, Say, Refusal, FromServer, SnPrintf, CopiedName, Lit;
    forall kind: nat, r, text
      ensures FromServer(Say(kind, r, text, ch.now))
    {
      SaysServer(kind, r, text, ch.now);
    }
    forall r, text
      ensures FromServer(Refusal(r, text, ch.now))
    {
      SaysServer(MSG_ERROR, r, text, ch.now);
    }
  }

  /** Whatever a program counter calls for, the plan is true to the request being served. */
  lemma PlanOf(p: Peer, pc: Pc)
    requires Plain(pc) || (p.requests != [] && (Copying(pc, Current(p)) || (Seeks(pc) && pc.Wait?)))
    ensures PlanTrue(p.(pc := pc))
    ensures Plain(pc) ==> Floor(pc) == MAX_CLIENTS
  {
    hide FromServer;
  }

  lemma ReceiveLetters(st: State, t: nat, ch: Choice)
    requires LettersOk(st) && Runs(st, t) && st.peers[t].pc.Recv?
    ensures LettersOk(Receive(st, t, ch))
  {
    hide LettersOk, Start, Plain, Copying, Seeks, PlanTrue, Floor;
    var p, st2 := st.peers[t], Receive(st, t, ch);
    if ch.msg.Some? {
      StartPlans(p.home, st.slots[p.home], st.logs, ch.msg.value, ch.now);
    } else {
      CleanIsPlain();
    }
    PlanOf(st2.peers[t], st2.peers[t].pc);
    QuietLetters(st, st2, t);
  }

  lemma CleanIsPlain()
    ensures Plain(Wait(CleanClear)) && Plain(Recv) && Plain(Close) && Plain(Done)
  {
  }

  lemma SectionLetters(st: State, t: nat, ch: Choice)
    requires LettersOk(st) && Runs(st, t) && (st.peers[t].pc.Hold? || st.peers[t].pc.Wait?)
    ensures LettersOk(ActThread(st, t, ch))
  {
    hide LettersOk, Plain, Copying, AfterSection, NextPhase, Touch, Saved, CStr, PlanTrue;
    var p, st2 := st.peers[t], ActThread(st, t, ch);
    assert PlanTrue(p) by {
      PlansTrue(st, t);
    }
    assert MovesOn(p, st2.peers[t]) by {
      hide LettersOk;
      if p.pc.Hold? && p.pc.phase.End? {
        SeeksHasRequest(p);
        AfterPlans(p.pc.phase.result, p.home, Current(p), ch);
        hide Seeks, Floor;
        if p.pc.phase.result.Found? {
          FloorOfSection(p);
        }
        PlanOf(p, st2.peers[t].pc);
      } else if p.pc.Hold? {
        SeeksHasRequest(p);
        PhaseSeeks(p.pc.phase, st.slots, p.home, p.valid);
        HoldPlan(st2.peers[t]);
      } else {
        SeeksHasRequest(p);
        HoldPlan(st2.peers[t]);
      }
    }
    QuietLetters(st, st2, t);
  }

  lemma PlansTrue(st: State, t: nat)
    requires LettersOk(st) && t < |st.peers|
    ensures PlanTrue(st.peers[t])
  {
  }

  lemma SeeksHasRequest(p: Peer)
    requires PlanTrue(p)
    ensures Seeks(p.pc) ==> p.requests != []
  {
  }

  lemma FloorOfSection(p: Peer)
    requires p.pc.Hold? && p.pc.phase.End? && p.pc.phase.result.Found?
    ensures Floor(p.pc) == 0 && Seeks(p.pc)
  {
  }

  lemma HoldPlan(p: Peer)
    requires (p.pc.Hold? || p.pc.Wait?) && (Seeks(p.pc) ==> p.requests != [])
    ensures PlanTrue(p)
  {
  }

  lemma PhaseSeeks(phase: Phase, slots: Slots, s: Index, valid: Oracle)
    requires !phase.End?
    ensures Seeks(Hold(NextPhase(phase, slots, s, valid))) ==> Seeks(Hold(phase))
  {
    hide Entry, Lit;
  }

  lemma ProceedLetters(st: State, t: nat)
    requires LettersOk(st) && Runs(st, t) && st.peers[t].pc.Next?
    requires var todo := st.peers[t].pc.todo; todo == [] || todo[0].Others?
    ensures LettersOk(Proceed(st, t))
  {
    hide LettersOk;
    PlansTrue(st, t);
    var p, st2 := st.peers[t], Proceed(st, t);
    ProceedPlan(p, st.slots, st2.peers[t].pc);
    QuietLetters(st, st2, t);
  }

  lemma ProceedPlan(p: Peer, slots: Slots, pc2: Pc)
    requires PlanTrue(p) && p.pc.Next? && p.home < MAX_CLIENTS && (p.pc.todo == [] || p.pc.todo[0].Others?)
    requires pc2 == if p.pc.todo == [] then Arrive(p.pc.goal) else
                    var Others(i, sort, m) := p.pc.todo[0];
                    Next(if i == MAX_CLIENTS then p.pc.todo[1..]
                         else if i != p.home && slots[i].active then
                           [One(i, sort, m), Others(i + 1, sort, m)] + p.pc.todo[1..]
                         else [Others(i + 1, sort, m)] + p.pc.todo[1..], p.pc.goal)
    ensures MovesOn(p, p.(pc := pc2))
  {
    hide FromServer, Current, PlanTrue, Floor;
    var todo, goal := p.pc.todo, p.pc.goal;
    if todo == [] {
      CleanIsPlain();
      PlanOf(p, pc2);
    } else {
      var Others(i, sort, m) := todo[0];
      RestPlan(p);
      HeadFloor(p.pc);
      if i == MAX_CLIENTS {
        assert [] + todo[1..] == todo[1..];
        HeadPlan(p, [], todo[1..], goal);
        HeadFloor(pc2);
      } else {
        HeadPlan(p, [One(i, sort, m), Others(i + 1, sort, m)], todo[1..], goal);
        HeadPlan(p, [Others(i + 1, sort, m)], todo[1..], goal);
        HeadFloor(pc2);
      }
    }
  }

  /** After the first item of a loop come no copies. */
  lemma RestPlan(p: Peer)
    requires PlanTrue(p) && p.pc.Next? && p.pc.todo != [] && p.pc.todo[0].Others?
    ensures ItemTrue(p, p.pc.todo[0])
    ensures forall k :: 0 <= k < |p.pc.todo[1..]| ==> ItemTrue(p, p.pc.todo[1..][k]) && !p.pc.todo[1..][k].sort.Copy?
  {
    hide FromServer, ItemTrue;
    assert ItemTrue(p, Todo(p.pc)[0]);
    forall k | 0 <= k < |p.pc.todo[1..]|
      ensures ItemTrue(p, p.pc.todo[1..][k]) && !p.pc.todo[1..][k].sort.Copy?
    {
      assert ItemTrue(p, Todo(p.pc)[k + 1]);
    }
  }

  lemma HeadPlan(p: Peer, head: seq<Item>, rest: seq<Item>, goal: Goal)
    requires forall k :: 0 <= k < |rest| ==> ItemTrue(p, rest[k]) && !rest[k].sort.Copy?
    requires forall k :: 0 <= k < |head| ==> ItemTrue(p, head[k])
    requires |head| <= 1 || (|head| == 2 && head[0].One? && head[1].Others? && head[1].i == head[0].dst + 1
                             && head[0].sort == head[1].sort)
    ensures PlanTrue(p.(pc := Next(head + rest, goal)))
  {
    hide FromServer, ItemTrue, Current;
    var q := p.(pc := Next(head + rest, goal));
    forall k | 0 <= k < |head + rest|
      ensures ItemTrue(q, (head + rest)[k])
    {
      SameItem(p, q, (head + rest)[k]);
    }
  }

  lemma SameItem(p: Peer, q: Peer, item: Item)
    requires q.requests == p.requests
    ensures ItemTrue(q, item) == ItemTrue(p, item)
  {
    hide FromServer;
  }

  lemma HeadFloor(pc: Pc)
    requires pc.Next?
    ensures Floor(pc) == if pc.todo == [] || !pc.todo[0].sort.Copy? then MAX_CLIENTS
                         else if pc.todo[0].One? then pc.todo[0].dst else pc.todo[0].i
  {
  }

  /** Writing, unlocking and closing leave the plan and the letters alone. */
  predicate SamePlans(st: State, st2: State, t: nat)
    requires t < |st.peers|
  {
    && SameLetters(st, st2, t)
    && Todo(st2.peers[t].pc) == Todo(st.peers[t].pc)
    && st2.peers[t].requests == st.peers[t].requests
    && !Seeks(st2.peers[t].pc)
    && !st2.peers[t].pc.Unborn?
  }

  lemma PushSame(st: State, t: nat, ch: Choice)
    requires Runs(st, t) && st.peers[t].pc.Write?
    ensures SamePlans(st, Push(st, t, ch), t)
  {
    hide Pack;
  }

  lemma OtherSame(st: State, t: nat)
    requires Runs(st, t)
    ensures st.peers[t].pc.Drop? ==> SamePlans(st, Unlock(st, t), t)
    ensures st.peers[t].pc.Close? ==> SamePlans(st, Shut(st, t), t)
    ensures st.peers[t].pc.Done? ==> SamePlans(st, st, t)
  {
  }

  lemma SaveSame(st: State, t: nat, ch: Choice)
    requires Runs(st, t) && st.peers[t].pc.Save?
    ensures SamePlans(st, SaveRecord(st, t, ch), t)
  {
    hide Noted;
  }

  lemma WriteLetters(st: State, t: nat, ch: Choice)
    requires LettersOk(st) && Runs(st, t)
    requires var pc := st.peers[t].pc; pc.Save? || pc.Write? || pc.Drop? || pc.Close? || pc.Done?
    ensures LettersOk(ActThread(st, t, ch))
  {
    hide LettersOk, PlanTrue, SaveRecord, Push, Unlock, Shut, Todo, Seeks;
    PlansTrue(st, t);
    OtherSame(st, t);
    if st.peers[t].pc.Write? {
      PushSame(st, t, ch);
    } else if st.peers[t].pc.Save? {
      SaveSame(st, t, ch);
    }
    SamePlan(st.peers[t], ActThread(st, t, ch).peers[t]);
    QuietLetters(st, ActThread(st, t, ch), t);
  }

  lemma SamePlan(p: Peer, q: Peer)
    requires PlanTrue(p) && Todo(q.pc) == Todo(p.pc) && q.requests == p.requests && !Seeks(q.pc) && !q.pc.Unborn?
    ensures MovesOn(p, q)
  {
    hide FromServer;
    forall k | 0 <= k < |Todo(q.pc)|
      ensures ItemTrue(q, Todo(q.pc)[k])
    {
      assert ItemTrue(p, Todo(p.pc)[k]);
    }
  }

  // ---------- the step that hands a message over ----------

  lemma LetterAdded(st: State, t: nat, c: nat)
    requires LettersOk(st) && Runs(st, t) && st.peers[t].pc.Next? && st.peers[t].pc.todo != []
    requires st.peers[t].pc.todo[0].One? && c < |st.peers| && st.peers[c].home == st.peers[t].pc.todo[0].dst
    ensures var p := st.peers[t];
            var l := Letter(t, |p.requests|, p.pc.todo[0].sort, p.pc.todo[0].msg);
            LetterTrue(st.peers, l) && InTurn(st.peers[c].handed + [l])
  {
    hide FromServer;
    var p, handed := st.peers[t], st.peers[c].handed;
    var l := Letter(t, |p.requests|, p.pc.todo[0].sort, p.pc.todo[0].msg);
    assert PlanTrue(p);
    assert ItemTrue(p, Todo(p.pc)[0]);
    assert InTurn(handed);
    assert Behind(handed, st.peers[c].home, t, p);
    forall i | 0 <= i < |handed| && handed[i].src == t
      ensures handed[i].req <= |p.requests|
      ensures handed[i].sort.Copy? && l.sort.Copy? ==> handed[i].req < |p.requests|
    {
      assert LetterTrue(st.peers, handed[i]);
    }
  }

  /** What remains of a plan once its first message has been handed over. */
  lemma BegunPlan(p: Peer, pc2: Pc)
    requires PlanTrue(p) && p.pc.Next? && p.pc.todo != [] && p.pc.todo[0].One?
    requires (pc2.Write? || pc2.Drop?) && Todo(pc2) == p.pc.todo[1..]
    ensures PlanTrue(p.(pc := pc2))
    ensures Floor(p.pc) <= Floor(pc2)
    ensures p.pc.todo[0].sort.Copy? ==> p.pc.todo[0].dst < Floor(pc2)
  {
    hide FromServer;
    var q := p.(pc := pc2);
    forall k | 0 <= k < |Todo(pc2)|
      ensures ItemTrue(q, Todo(pc2)[k])
      ensures Todo(pc2)[k].sort.Copy? ==> k == 0 && Todo(pc2)[0].Others? && Todo(pc2)[0].i == p.pc.todo[0].dst + 1
    {
      assert ItemTrue(p, Todo(p.pc)[k + 1]);
      assert Todo(p.pc)[k + 1] == Todo(pc2)[k];
    }
  }

  /** Connection `c` is handed `l`; nothing else changes but where thread `t` is. */
  predicate HandsOver(st: State, st2: State, t: nat, c: nat, l: Letter) {
    && |st2.peers| == |st.peers|
    && (forall d :: 0 <= d < |st.peers| ==>
          && st2.peers[d].home == st.peers[d].home
          && st2.peers[d].requests == st.peers[d].requests
          && st2.peers[d].handed == (if d == c then st.peers[d].handed + [l] else st.peers[d].handed)
          && (d != t ==> st2.peers[d].pc == st.peers[d].pc))
  }

  lemma HandedLetters(st: State, st2: State, t: nat, c: nat, l: Letter)
    requires LettersOk(st) && t < |st.peers| && c < |st.peers|
    requires HandsOver(st, st2, t, c, l)
    requires LetterTrue(st.peers, l) && InTurn(st.peers[c].handed + [l])
    requires l.src == t && PlanTrue(st2.peers[t]) && Floor(st.peers[t].pc) <= Floor(st2.peers[t].pc)
    requires l.sort.Copy? ==> st.peers[c].home < Floor(st2.peers[t].pc)
    ensures LettersOk(st2)
  {
    hide LetterTrue, PlanTrue, Behind, Floor, InTurn;
    forall d, k | 0 <= d < |st2.peers| && 0 <= k < |st2.peers[d].handed|
      ensures LetterTrue(st2.peers, st2.peers[d].handed[k])
    {
      assert k < |st.peers[d].handed| ==> LetterTrue(st.peers, st.peers[d].handed[k]);
      TrueSource(st.peers, st2.peers[d].handed[k]);
      StillTrue(st.peers, st2.peers, st2.peers[d].handed[k]);
    }
    forall u | 0 <= u < |st2.peers|
      ensures PlanTrue(st2.peers[u])
    {
      if u != t {
        PlanSame(st.peers[u], st2.peers[u]);
      }
    }
    forall u, d | 0 <= u < |st2.peers| && 0 <= d < |st2.peers|
      ensures Behind(st2.peers[d].handed, st2.peers[d].home, u, st2.peers[u])
    {
      StillBehind(st, st2, t, c, l, u, d);
    }
  }

  lemma StillTrue(peers: seq<Peer>, peers2: seq<Peer>, l: Letter)
    requires LetterTrue(peers, l) && |peers2| == |peers| && l.src < |peers|
    requires peers2[l.src].requests == peers[l.src].requests
    ensures LetterTrue(peers2, l)
  {
    hide FromServer;
  }

  lemma TrueSource(peers: seq<Peer>, l: Letter)
    requires LetterTrue(peers, l)
    ensures l.src < |peers|
  {
  }

  lemma StillBehind(st: State, st2: State, t: nat, c: nat, l: Letter, u: nat, d: nat)
    requires t < |st.peers| && c < |st.peers| && u < |st.peers| && d < |st.peers|
    requires HandsOver(st, st2, t, c, l) && l.src == t
    requires Behind(st.peers[d].handed, st.peers[d].home, u, st.peers[u])
    requires Floor(st.peers[t].pc) <= Floor(st2.peers[t].pc)
    requires l.sort.Copy? ==> st.peers[c].home < Floor(st2.peers[t].pc)
    ensures Behind(st2.peers[d].handed, st2.peers[d].home, u, st2.peers[u])
  {
    hide Floor;
  }

  lemma BeginHands(st: State, t: nat)
    requires Runs(st, t) && st.peers[t].pc.Next? && st.peers[t].pc.todo != [] && st.peers[t].pc.todo[0].One?
    ensures var p, item, st2 := st.peers[t], st.peers[t].pc.todo[0], Begin(st, t);
            var conn := st.seats[item.dst].conn;
            && Todo(st2.peers[t].pc) == p.pc.todo[1..]
            && (st2.peers[t].pc.Write? || st2.peers[t].pc.Drop?)
            && (if conn.Some? then HandsOver(st, st2, t, conn.value, Letter(t, |p.requests|, item.sort, item.msg))
                else SameLetters(st, st2, t) && st2.peers[t].requests == p.requests)
  {
  }

  lemma BeginLetters(st: State, t: nat)
    requires SeatsOk(st) && LettersOk(st) && Runs(st, t)
    requires st.peers[t].pc.Next? && st.peers[t].pc.todo != [] && st.peers[t].pc.todo[0].One?
    ensures LettersOk(Begin(st, t))
  {
    hide LettersOk, Begin, PlanTrue, LetterTrue, InTurn, Floor, HandsOver;
    var p, item, st2 := st.peers[t], st.peers[t].pc.todo[0], Begin(st, t);
    BeginHands(st, t);
    PlansTrue(st, t);
    BegunPlan(p, st2.peers[t].pc);
    var q := p.(pc := st2.peers[t].pc);
    if st.seats[item.dst].conn.Some? {
      var c := st.seats[item.dst].conn.value;
      HandsSame(st, st2, t, c, Letter(t, |p.requests|, item.sort, item.msg));
      PlanSame(q, st2.peers[t]);
      LetterAdded(st, t, c);
      HandedLetters(st, st2, t, c, Letter(t, |p.requests|, item.sort, item.msg));
    } else {
      PlanSame(q, st2.peers[t]);
      QuietLetters(st, st2, t);
    }
  }

  lemma HandsSame(st: State, st2: State, t: nat, c: nat, l: Letter)
    requires HandsOver(st, st2, t, c, l) && t < |st.peers|
    ensures |st2.peers| == |st.peers| && st2.peers[t].requests == st.peers[t].requests
  {
  }

  // ---------- the accepting thread ----------

  lemma MainLetters(st: State, ch: Choice)
    requires ThreadsOk(st) && SeatsOk(st) && LettersOk(st)
    ensures LettersOk(ActMain(st, ch))
  {
    hide LettersOk, ActMain;
    var st2 := ActMain(st, ch);
    match st.main {
      case Idle => IdleLetters(st, ch);
      case LeaveFull(c) =>
        var l := Letter(c, 0, Note, Refusal([], Lit("Server full"), ch.now));
        PlansTrue(st, c);
        FullHands(st, ch, l);
        SaysServer(MSG_ERROR, [], Lit("Server full"), ch.now);
        FullLetter(st, c, l);
        HandedLetters(st, st2, c, c, l);
      case _ =>
        MainQuiet(st, ch);
        RehomedLetters(st, st2, st.main.c);
    }
  }

  lemma IdleLetters(st: State, ch: Choice)
    requires LettersOk(st) && st.main.Idle?
    ensures LettersOk(ActMain(st, ch))
  {
    hide FromServer, Floor;
    var st2 := ActMain(st, ch);
    forall c, k | 0 <= c < |st2.peers| && 0 <= k < |st2.peers[c].handed|
      ensures LetterTrue(st2.peers, st2.peers[c].handed[k])
      ensures st2.peers[c].handed[k].src < |st.peers|
    {
      assert LetterTrue(st.peers, st.peers[c].handed[k]);
    }
  }

  lemma FullHands(st: State, ch: Choice, l: Letter)
    requires ThreadsOk(st) && st.main.LeaveFull?
    requires l == Letter(st.main.c, 0, Note, Refusal([], Lit("Server full"), ch.now))
    ensures HandsOver(st, ActMain(st, ch), st.main.c, st.main.c, l)
    ensures ActMain(st, ch).peers[st.main.c].pc == st.peers[st.main.c].pc
    ensures PlanTrue(st.peers[st.main.c]) ==> PlanTrue(ActMain(st, ch).peers[st.main.c])
  {
    hide Refusal, Lit, PlanTrue;
    PlanSameIf(st.peers[st.main.c], ActMain(st, ch).peers[st.main.c]);
  }

  lemma PlanSameIf(p: Peer, q: Peer)
    requires q.pc == p.pc && q.requests == p.requests
    ensures PlanTrue(p) ==> PlanTrue(q)
  {
    hide PlanTrue;
    if PlanTrue(p) {
      PlanSame(p, q);
    }
  }

  /** A connection that is turned away has asked for nothing. */
  lemma FullLetter(st: State, c: nat, l: Letter)
    requires LettersOk(st) && c < |st.peers| && st.peers[c].pc.Unborn?
    requires l.src == c && l.req == 0 && !l.sort.Copy? && FromServer(l.msg)
    ensures LetterTrue(st.peers, l) && InTurn(st.peers[c].handed + [l])
  {
    hide FromServer;
    assert PlanTrue(st.peers[c]);
    assert InTurn(st.peers[c].handed);
    forall k | 0 <= k < |st.peers[c].handed| && st.peers[c].handed[k].src == c
      ensures st.peers[c].handed[k].req == 0
    {
      assert LetterTrue(st.peers, st.peers[c].handed[k]);
    }
  }

  /** A connection may get its slot, or start running; the letters stay. */
  predicate Rehomed(st: State, st2: State, c: nat) {
    && |st2.peers| == |st.peers|
    && c < |st.peers|
    && (forall u :: 0 <= u < |st.peers| ==> && st2.peers[u].handed == st.peers[u].handed
                                            && st2.peers[u].requests == st.peers[u].requests)
    && (forall u :: 0 <= u < |st.peers| && u != c ==> && st2.peers[u].pc == st.peers[u].pc
                                                      && st2.peers[u].home == st.peers[u].home)
    && (st2.peers[c].home == st.peers[c].home || st.peers[c].home == MAX_CLIENTS)
    && (st2.peers[c].pc == st.peers[c].pc || (st.peers[c].pc.Unborn? && st2.peers[c].pc.Recv?))
  }

  lemma MainQuiet(st: State, ch: Choice)
    requires ThreadsOk(st) && SeatsOk(st) && !st.main.Idle? && !st.main.LeaveFull?
    ensures Rehomed(st, ActMain(st, ch), st.main.c)
  {
    hide Pack;
  }

  lemma RehomedLetters(st: State, st2: State, c: nat)
    requires LettersOk(st) && Rehomed(st, st2, c)
    ensures LettersOk(st2)
  {
    hide FromServer, Shape, InTurn;
    forall u, k | 0 <= u < |st2.peers| && 0 <= k < |st2.peers[u].handed|
      ensures LetterTrue(st2.peers, st2.peers[u].handed[k])
    {
      assert LetterTrue(st.peers, st.peers[u].handed[k]);
    }
    forall u | 0 <= u < |st2.peers|
      ensures PlanTrue(st2.peers[u])
      ensures Floor(st2.peers[u].pc) == Floor(st.peers[u].pc)
    {
      assert PlanTrue(st.peers[u]);
      if st2.peers[u].pc == st.peers[u].pc {
        PlanSame(st.peers[u], st2.peers[u]);
      } else {
        CleanIsPlain();
        PlanOf(st2.peers[u], Recv);
      }
    }
    forall u, d | 0 <= u < |st2.peers| && 0 <= d < |st2.peers|
      ensures Behind(st2.peers[d].handed, st2.peers[d].home, u, st2.peers[u])
    {
      hide LetterTrue, PlanTrue, Floor;
      assert Behind(st.peers[d].handed, st.peers[d].home, u, st.peers[u]);
    }
  }

  // ---------- every interleaving ----------

  lemma LettersKept(st: State, a: Action)
    requires ThreadsOk(st) && SeatsOk(st) && LettersOk(st)
    ensures LettersOk(Act(st, a))
  {
    hide ThreadsOk, SeatsOk, LettersOk, ActMain, ActThread;
    match a {
      case Main(ch) => MainLetters(st, ch);
      case Thread(t, ch) =>
        if Runs(st, t) {
          ThreadLettersOk(st, t, ch);
        }
    }
  }

  lemma ThreadLettersOk(st: State, t: nat, ch: Choice)
    requires SeatsOk(st) && LettersOk(st) && Runs(st, t)
    ensures LettersOk(ActThread(st, t, ch))
  {
    hide SeatsOk, LettersOk, Begin, Receive, Enter, Work, Release, Push, Unlock, Shut;
    match st.peers[t].pc {
      case Recv => ReceiveLetters(st, t, ch);
      case Wait(_) => SectionLetters(st, t, ch);
      case Hold(_) => SectionLetters(st, t, ch);
      case Next(todo, _) =>
        if todo == [] || todo[0].Others? {
          ProceedLetters(st, t);
        } else {
          BeginLetters(st, t);
        }
      case _ => WriteLetters(st, t, ch);
    }
  }

  lemma InitLetters()
    ensures LettersOk(Init()) && SeatsOk(Init())
  {
  }

  lemma {:induction false} AfterLetters(acts: seq<Action>)
    ensures LettersOk(After(acts)) && SeatsOk(After(acts))
  {
    hide LettersOk, SeatsOk, LocksOk, ThreadsOk, Act, Init;
    if acts == [] {
      InitLetters();
    } else {
      AfterLetters(acts[..|acts| - 1]);
      AfterLocks(acts[..|acts| - 1]);
      SeatsKept(After(acts[..|acts| - 1]), acts[|acts| - 1]);
      LettersKept(After(acts[..|acts| - 1]), acts[|acts| - 1]);
    }
  }

  /** In every reachable state, of everything handed to one connection: nothing is made up, and
      of two letters caused by one client's thread the earlier one is of the earlier request,
      the client's own messages coming once each at most, in the order it sent them. */
  lemma SenderOrder(acts: seq<Action>, c: nat, i: nat, j: nat)
    requires c < |After(acts).peers| && i < |After(acts).peers[c].handed| && j < |After(acts).peers[c].handed|
    ensures var st := After(acts);
            var a, b := st.peers[c].handed[i], st.peers[c].handed[j];
            && LetterTrue(st.peers, a)
            && (a.src == b.src && a.req < b.req ==> i < j)
            && (a.src == b.src && a.req == b.req && a.sort.Copy? && b.sort.Copy? ==> i == j)
  {
    hide After;
    AfterLetters(acts);
    var st := After(acts);
    var h := st.peers[c].handed;
    assert LetterTrue(st.peers, h[i]);
    assert InTurn(h);
    hide LetterTrue, LettersOk, SeatsOk;
    if j < i && h[i].src == h[j].src {
      assert h[j].req <= h[i].req;
    }
  }
}
