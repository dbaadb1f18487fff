/** The threaded server as an interleaving of small steps. Each step of a client thread or of
    the accepting thread is a lock operation, a look at one slot, an update made under
    `table_lock`, one record saved, or one `write` of some bytes. Connections have identities of
    their own: the thread of connection `t` is thread `t`. */
module ThreadProtocol {
  import opened Bytes
  import opened Codec
  import opened Framing
  import opened History
  import opened Scanf
  import opened ChatSpec

  type Index = i: nat | i < MAX_CLIENTS

  /** An index into the table, or `MAX_CLIENTS` for none or for the end of a scan. */
  type Bound = i: nat | i <= MAX_CLIENTS

  type Slots = s: seq<Slot> | |s| == MAX_CLIENTS witness seq(MAX_CLIENTS, _ => FREE)

  // ---------- the state ----------

  datatype Owner = Free | Acceptor | Client(t: nat)

  /** `in_use` and `sockfd`. A slot that was never filled has descriptor 0, no connection. */
  datatype Seat = Seat(inUse: bool, conn: Option<nat>)

  type Seats = s: seq<Seat> | |s| == MAX_CLIENTS witness seq(MAX_CLIENTS, _ => Seat(false, None))

  type Locks = s: seq<Owner> | |s| == MAX_CLIENTS witness seq(MAX_CLIENTS, _ => Free)

  /** Why a message is sent: the request passed on, an announcement, or an answer. */
  datatype Sort = Copy | Note | Answer

  /** A message handed to a connection, with the thread and the request that caused it. */
  datatype Letter = Letter(src: nat, req: nat, sort: Sort, msg: Message)

  /** What a thread has found out or done by the time it releases `table_lock`. */
  datatype Result =
    | LoggedIn(user: seq<Byte>)
    | Taken(user: seq<Byte>)
    | Rejected(user: seq<Byte>)
    | LoggedOut(name: seq<Byte>)
    | Found(to: Index)
    | NotFound
    | Listing(list: seq<Byte>)
    | Changed(status: int)
    | Cleared(wasActive: bool, name: seq<Byte>)

  /** Where a thread is in a section protected by `table_lock`. */
  datatype Phase =
    | LoginScan(user: seq<Byte>, pass: seq<Byte>, i: Bound)
    | LoginCheck(user: seq<Byte>, pass: seq<Byte>)
    | LoginName(user: seq<Byte>)
    | LoginActive(user: seq<Byte>)
    | LogoutClear(name: seq<Byte>)
    | LogoutWipe(name: seq<Byte>)
    | FindScan(name: seq<Byte>, i: Bound)
    | ListScan(list: seq<Byte>, i: Bound)
    | PutStatus(status: int)
    | CleanClear
    | CleanWipe(wasActive: bool, name: seq<Byte>)
    | End(result: Result)

  /** Something to send: one `slot_send`, or the rest of a loop over the other active slots. */
  datatype Item =
    | One(dst: Index, sort: Sort, msg: Message)
    | Others(i: Bound, sort: Sort, msg: Message)

  datatype Goal = ToRecv | ToClean | ToClose

  datatype Pc =
    | Unborn
    | Recv
    | Wait(phase: Phase)
    | Hold(phase: Phase)
    | Save(to: seq<Byte>, todo: seq<Item>, goal: Goal)
    | Next(todo: seq<Item>, goal: Goal)
    | Write(dst: Index, conn: nat, msg: Message, off: nat, todo: seq<Item>, goal: Goal)
    | Drop(dst: Index, todo: seq<Item>, goal: Goal)
    | Close
    | Done

  /** The items left to a thread that is sending, or is about to once it has saved. */
  function Todo(pc: Pc): seq<Item> {
    match pc
    case Save(_, todo, _) => todo
    case Next(todo, _) => todo
    case Write(_, _, _, _, todo, _) => todo
    case Drop(_, todo, _) => todo
    case _ => []
  }

  /** The discovery server's verdict on a name and a password. */
  type Oracle = (seq<Byte>, seq<Byte>) -> bool

  /** A connection and its thread. `home` is the slot it was given; `seated` lasts until the
      slot is given back. `valid` is the verdict to be had, should the present request ask for
      one. `sent` is what the socket has taken, `handed` the messages whose sending began, in the
      order in which the slot's `send_lock` was acquired for them. */
  datatype Peer = Peer(
    home: Bound,
    seated: bool,
    pc: Pc,
    requests: seq<Message>,
    valid: Oracle,
    replies: seq<Message>,
    handed: seq<Letter>,
    sent: seq<Byte>,
    broken: bool)

  datatype MainPc =
    | Idle
    | WaitTable(c: nat)
    | ScanSlots(c: nat, i: Bound)
    | Install(c: nat, slot: Index)
    | Reset(c: nat, slot: Index)
    | Leave(c: nat, slot: Index)
    | Spawn(c: nat, slot: Index)
    | LeaveFull(c: nat)
    | Refuse(c: nat, msg: Message, off: nat)
    | HangUp(c: nat)

  /** `base` is the table as it was when `table_lock` was last free. */
  datatype State = State(
    slots: Slots,
    base: Slots,
    seats: Seats,
    tableLock: Owner,
    sendLock: Locks,
    peers: seq<Peer>,
    main: MainPc,
    logs: Logs)

  function Init(): State {
    var slots := seq(MAX_CLIENTS, _ => FREE);
    State(slots, slots, seq(MAX_CLIENTS, _ => Seat(false, None)), Free, seq(MAX_CLIENTS, _ => Free), [], Idle, map[])
  }

  /** What a step finds outside: a message read or none, the time and its formatted form, the
      verdicts of the discovery server, how many bytes a write takes (0 for a signal), whether
      a call succeeds, and the bytes of an uninitialised array. */
  datatype Choice = Choice(
    msg: Option<Message>,
    now: Time,
    stamp: seq<Byte>,
    valid: Oracle,
    n: nat,
    ok: bool,
    junk: seq<Byte>)

  datatype Action = Main(ch: Choice) | Thread(t: nat, ch: Choice)

  // ---------- small updates ----------

  function SetPc(peers: seq<Peer>, t: nat, pc: Pc): seq<Peer>
    requires t < |peers|
  {
    peers[t := peers[t].(pc := pc)]
  }

  /** A message begins to be sent on connection `c`. */
  function Hand(peers: seq<Peer>, c: nat, letter: Letter): seq<Peer> {
    if c < |peers| then peers[c := peers[c].(handed := peers[c].handed + [letter])] else peers
  }

  function Deliver(peers: seq<Peer>, c: nat, bytes: seq<Byte>): seq<Peer> {
    if c < |peers| then peers[c := peers[c].(sent := peers[c].sent + bytes)] else peers
  }

  /** Connection `c` is closed, or a write to it has failed: it takes nothing any more. */
  function Break(peers: seq<Peer>, c: nat): seq<Peer> {
    if c < |peers| then peers[c := peers[c].(broken := true)] else peers
  }

  predicate Writable(peers: seq<Peer>, c: nat, ok: bool) {
    c < |peers| && !peers[c].broken && ok
  }

  // ---------- a thread outside the table section ----------

  /** The beginning of `route`: what happens before any lock is asked for. */
  function Start(s: Index, me: Slot, logs: Logs, m: Message, now: Time): Pc {
    var from := CStr(m.sender);
    if m.kind == MSG_LOGIN then
      var scan := ScanLogin(CStr(m.payload));
      if scan.count != 2 then Replying(s, Refusal([], Lit("Bad login format"), now))
      else Wait(LoginScan(scan.user, scan.pass, 0))
    else if m.kind == MSG_LOGOUT then Wait(LogoutClear(me.name))
    else if m.kind == MSG_BROADCAST then
      if !me.active then Replying(s, Refusal([], Lit("Not authenticated"), now))
      else Save([], [Others(0, Copy, m), One(s, Answer, Say(MSG_ACK, from, [], now))], ToRecv)
    else if m.kind == MSG_PRIVATE then
      if !me.active then Replying(s, Refusal([], Lit("Not authenticated"), now))
      else Wait(FindScan(CStr(m.receiver), 0))
    else if m.kind == MSG_LIST_USERS then Wait(ListScan([], 0))
    else if m.kind == MSG_HISTORY_REQ then
      Replying(s, Say(MSG_HISTORY_RESP, from, History.Reply(LogOf(logs, from)), now))
    else if m.kind == MSG_STATUS_CHANGE then Wait(PutStatus(AskedStatus(m.payload)))
    else Replying(s, Refusal(from, Lit("Unknown type"), now))
  }

  function Replying(s: Index, m: Message): Pc {
    Next([One(s, Answer, m)], ToRecv)
  }

  /** `recv_message`, then the lock-free beginning of `route`; a failure ends the loop. */
  function Receive(st: State, t: nat, ch: Choice): State
    requires t < |st.peers| && st.peers[t].home < MAX_CLIENTS
  {
    var p := st.peers[t];
    if ch.msg.None? then st.(peers := SetPc(st.peers, t, Wait(CleanClear)))
    else
      var m := ch.msg.value;
      var me := st.slots[p.home];
      st.(peers := st.peers[t := p.(requests := p.requests + [m], valid := ch.valid,
                                    pc := Start(p.home, me, st.logs, m, ch.now))])
  }

  // ---------- the table section ----------

  function Enter(st: State, t: nat): State
    requires t < |st.peers| && st.peers[t].pc.Wait?
  {
    if st.tableLock.Free? then
      st.(tableLock := Client(t), peers := SetPc(st.peers, t, Hold(st.peers[t].pc.phase)))
    else st
  }

  /** The next phase of a section. */
  function NextPhase(phase: Phase, slots: Slots, s: Index, valid: Oracle): Phase
    requires !phase.End?
  {
    match phase
    case LoginScan(user, pass, i) =>
      if i == MAX_CLIENTS then LoginCheck(user, pass)
      else if slots[i].active && slots[i].name == user then End(Taken(user))
      else LoginScan(user, pass, i + 1)
    case LoginCheck(user, pass) => if valid(user, pass) then LoginName(user) else End(Rejected(user))
    case LoginName(user) => LoginActive(user)
    case LoginActive(user) => End(LoggedIn(user))
    case LogoutClear(name) => LogoutWipe(name)
    case LogoutWipe(name) => End(LoggedOut(name))
    case FindScan(name, i) =>
      if i == MAX_CLIENTS then End(NotFound)
      else if slots[i].active && slots[i].name == name then End(Found(i))
      else FindScan(name, i + 1)
    case ListScan(list, i) =>
      if i == MAX_CLIENTS then End(Listing(list))
      else if !Listed(slots[i]) then ListScan(list, i + 1)
      else ListScan((if list == [] then list else list + Lit(", ")) + Entry(slots[i]), i + 1)
    case PutStatus(status) => End(Changed(status))
    case CleanClear => CleanWipe(slots[s].active, slots[s].name)
    case CleanWipe(wasActive, name) => End(Cleared(wasActive, name))
  }

  /** What the next phase writes into the thread's own slot. */
  function Touch(phase: Phase, me: Slot): Slot {
    match phase
    case LoginName(user) => me.(name := user)
    case LoginActive(user) => me.(active := true, status := STATUS_AVAILABLE)
    case LogoutClear(name) => me.(active := false)
    case LogoutWipe(name) => me.(name := [])
    case PutStatus(status) => me.(status := status)
    case CleanClear => me.(active := false)
    case CleanWipe(wasActive, name) => me.(name := [])
    case _ => me
  }

  function Work(st: State, t: nat, ch: Choice): State
    requires t < |st.peers| && st.peers[t].home < MAX_CLIENTS
    requires st.peers[t].pc.Hold? && !st.peers[t].pc.phase.End?
  {
    var p := st.peers[t];
    var phase := p.pc.phase;
    var leaving := phase.CleanClear?;
    st.(slots := st.slots[p.home := Touch(phase, st.slots[p.home])],
        seats := if leaving then st.seats[p.home := st.seats[p.home].(inUse := false)] else st.seats,
        peers := st.peers[t := p.(seated := p.seated && !leaving,
                                  pc := Hold(NextPhase(phase, st.slots, p.home, p.valid)))])
  }

  /** `char uname[32]` after `strncpy(uname, name, 31)`: nothing ends a name of 31 bytes. */
  function CopiedName(name: seq<Byte>, junk: seq<Byte>): seq<Byte> {
    if |name| < USER_MAX then name else name + CStr(junk)
  }

  /** What a thread does once it has released `table_lock`. */
  function AfterSection(result: Result, s: Index, req: Message, ch: Choice): Pc {
    var from := CStr(req.sender);
    match result
    case LoggedIn(user) => Replying(s, Say(MSG_ACK, user, Lit("Login successful"), ch.now))
    case Taken(user) => Replying(s, Refusal(user, Lit("Already logged in"), ch.now))
    case Rejected(user) => Replying(s, Refusal(user, Lit("Invalid credentials"), ch.now))
    case LoggedOut(name) => Next([Others(0, Note, Left(name, " left", ch.now))], ToClean)
    case Found(to) =>
      Save(CStr(req.receiver), [One(to, Copy, req), One(s, Answer, Say(MSG_ACK, from, [], ch.now))], ToRecv)
    case NotFound => Replying(s, Refusal(from, Lit("User not online"), ch.now))
    case Listing(list) => Replying(s, Say(MSG_USER_LIST, from, list, ch.now))
    case Changed(_) => Replying(s, Say(MSG_ACK, from, Lit("Status updated"), ch.now))
    case Cleared(wasActive, name) =>
      if wasActive then
        var note := SnPrintf(CopiedName(name, ch.junk) + Lit(" disconnected"), 64);
        Next([Others(0, Note, Say(MSG_BROADCAST, [], note, ch.now))], ToClose)
      else Close
  }

  const NO_MESSAGE: Message := RawMessage.Message(0, 0, Zeros(32), Zeros(32), 0, 0, Zeros(1024))

  /** The request a thread is working on. */
  function Current(p: Peer): Message {
    if p.requests == [] then NO_MESSAGE else p.requests[|p.requests| - 1]
  }

  function Release(st: State, t: nat, ch: Choice): State
    requires t < |st.peers| && st.peers[t].home < MAX_CLIENTS
    requires st.peers[t].pc.Hold? && st.peers[t].pc.phase.End?
  {
    var p := st.peers[t];
    st.(tableLock := Free,
        base := st.slots,
        peers := SetPc(st.peers, t, AfterSection(p.pc.phase.result, p.home, Current(p), ch)))
  }

  /** What a thread that is about to save `m` makes of the logs. */
  function Noted(pc: Pc, m: Message, logs: Logs, stamp: seq<Byte>): Logs {
    if pc.Save? then Saved(logs, CStr(m.sender), pc.to, CStr(m.payload), stamp) else logs
  }

  /** `save_history`: the request, passed on to `to` or to all, is added to the logs as they
      now are; no lock is held. */
  function SaveRecord(st: State, t: nat, ch: Choice): State
    requires t < |st.peers| && st.peers[t].pc.Save?
  {
    var Save(to, todo, goal) := st.peers[t].pc;
    st.(logs := Noted(st.peers[t].pc, Current(st.peers[t]), st.logs, ch.stamp),
        peers := SetPc(st.peers, t, Next(todo, goal)))
  }

  // ---------- sending ----------

  function Arrive(goal: Goal): Pc {
    match goal
    case ToRecv => Recv
    case ToClean => Wait(CleanClear)
    case ToClose => Close
  }

  /** One look of a loop over the slots, or the lock operation of one `slot_send`. */
  function Proceed(st: State, t: nat): State
    requires t < |st.peers| && st.peers[t].home < MAX_CLIENTS && st.peers[t].pc.Next?
  {
    var p := st.peers[t];
    var todo, goal := p.pc.todo, p.pc.goal;
    if todo == [] then st.(peers := SetPc(st.peers, t, Arrive(goal)))
    else
      match todo[0]
      case Others(i, sort, m) =>
        st.(peers := SetPc(st.peers, t, Next(
          if i == MAX_CLIENTS then todo[1..]
          else if i != p.home && st.slots[i].active then [One(i, sort, m), Others(i + 1, sort, m)] + todo[1..]
          else [Others(i + 1, sort, m)] + todo[1..], goal)))
      case One(dst, sort, m) => if st.sendLock[dst].Free? then Begin(st, t) else st
  }

  /** `send_lock` of the destination is taken and its descriptor read. */
  function Begin(st: State, t: nat): State
    requires t < |st.peers| && st.peers[t].pc.Next? && st.peers[t].pc.todo != [] && st.peers[t].pc.todo[0].One?
  {
    var p := st.peers[t];
    var One(dst, sort, m) := p.pc.todo[0];
    var rest, goal := p.pc.todo[1..], p.pc.goal;
    var conn := st.seats[dst].conn;
    var pc := if conn.Some? then Write(dst, conn.value, m, 0, rest, goal) else Drop(dst, rest, goal);
    var q := p.(pc := pc, replies := if sort.Answer? then p.replies + [m] else p.replies);
    var peers := st.peers[t := q];
    st.(sendLock := st.sendLock[dst := Client(t)],
        peers := if conn.Some? then Hand(peers, conn.value, Letter(t, |p.requests|, sort, m)) else peers)
  }

  /** One `write` of the loop of `send_message`. */
  function Push(st: State, t: nat, ch: Choice): State
    requires t < |st.peers| && st.peers[t].pc.Write?
  {
    var Write(dst, c, m, off, todo, goal) := st.peers[t].pc;
    if ch.n == 0 then st
    else if !Writable(st.peers, c, ch.ok) || off >= |Pack(m)| then
      st.(peers := SetPc(Break(st.peers, c), t, Drop(dst, todo, goal)))
    else
      var upto := Min(off + ch.n, |Pack(m)|);
      var peers := Deliver(st.peers, c, Pack(m)[off..upto]);
      st.(peers := SetPc(peers, t, if upto == |Pack(m)| then Drop(dst, todo, goal)
                                   else Write(dst, c, m, upto, todo, goal)))
  }

  function Unlock(st: State, t: nat): State
    requires t < |st.peers| && st.peers[t].pc.Drop?
  {
    var Drop(dst, todo, goal) := st.peers[t].pc;
    st.(sendLock := st.sendLock[dst := Free], peers := SetPc(st.peers, t, Next(todo, goal)))
  }

  /** `close(clients[s].sockfd)`: whatever connection the slot holds by now. */
  function Shut(st: State, t: nat): State
    requires t < |st.peers| && st.peers[t].home < MAX_CLIENTS
  {
    var conn := st.seats[st.peers[t].home].conn;
    var peers := SetPc(st.peers, t, Done);
    st.(peers := if conn.Some? then Break(peers, conn.value) else peers)
  }

  // ---------- the accepting thread ----------

  function NewPeer(): Peer {
    Peer(MAX_CLIENTS, false, Unborn, [], (user, pass) => false, [], [], [], false)
  }

  function ActMain(st: State, ch: Choice): State {
    match st.main
    case Idle => st.(peers := st.peers + [NewPeer()], main := WaitTable(|st.peers|))
    case WaitTable(c) => if st.tableLock.Free? then st.(tableLock := Acceptor, main := ScanSlots(c, 0)) else st
    case ScanSlots(c, i) =>
      st.(main := if i == MAX_CLIENTS then LeaveFull(c)
                  else if !st.seats[i].inUse then Install(c, i)
                  else ScanSlots(c, i + 1))
    case Install(c, i) =>
      if c < |st.peers| then
        st.(seats := st.seats[i := st.seats[i].(conn := Some(c))],
            peers := st.peers[c := st.peers[c].(home := i)],
            main := Reset(c, i))
      else st
    case Reset(c, i) =>
      if c < |st.peers| then
        st.(seats := st.seats[i := st.seats[i].(inUse := true)],
            slots := st.slots[i := FREE],
            peers := st.peers[c := st.peers[c].(seated := true)],
            main := Leave(c, i))
      else st
    case Leave(c, i) => st.(tableLock := Free, base := st.slots, main := Spawn(c, i))
    case Spawn(c, i) =>
      if c >= |st.peers| then st
      else if ch.ok then st.(peers := SetPc(st.peers, c, Recv), main := Idle)
      else st.(seats := st.seats[i := st.seats[i].(inUse := false)],
               peers := st.peers[c := st.peers[c].(seated := false, broken := true)],
               main := Idle)
    case LeaveFull(c) =>
      var m := Refusal([], Lit("Server full"), ch.now);
      st.(tableLock := Free,
          base := st.slots,
          peers := Hand(st.peers, c, Letter(c, 0, Note, m)),
          main := Refuse(c, m, 0))
    case Refuse(c, m, off) =>
      if ch.n == 0 then st
      else if !Writable(st.peers, c, ch.ok) || off >= |Pack(m)| then
        st.(peers := Break(st.peers, c), main := HangUp(c))
      else
        var upto := Min(off + ch.n, |Pack(m)|);
        st.(peers := Deliver(st.peers, c, Pack(m)[off..upto]),
            main := if upto == |Pack(m)| then HangUp(c) else Refuse(c, m, upto))
    case HangUp(c) => st.(peers := Break(st.peers, c), main := Idle)
  }

  // ---------- steps and runs ----------

  /** A thread that has been started. */
  predicate Runs(st: State, t: nat) {
    t < |st.peers| && st.peers[t].home < MAX_CLIENTS && !st.peers[t].pc.Unborn?
  }

  function ActThread(st: State, t: nat, ch: Choice): State
    requires Runs(st, t)
  {
    match st.peers[t].pc
    case Recv => Receive(st, t, ch)
    case Wait(_) => Enter(st, t)
    case Hold(phase) => if phase.End? then Release(st, t, ch) else Work(st, t, ch)
    case Save(_, _, _) => SaveRecord(st, t, ch)
    case Next(_, _) => Proceed(st, t)
    case Write(_, _, _, _, _, _) => Push(st, t, ch)
    case Drop(_, _, _) => Unlock(st, t)
    case Close => Shut(st, t)
    case _ => st
  }

  /** One step of one thread; a thread that waits for a lock stays where it is. */
  function Act(st: State, a: Action): State {
    match a
    case Main(ch) => ActMain(st, ch)
    case Thread(t, ch) => if Runs(st, t) then ActThread(st, t, ch) else st
  }

  /** The state after any interleaving. */
  function After(acts: seq<Action>): State {
    if acts == [] then Init() else Act(After(acts[..|acts| - 1]), acts[|acts| - 1])
  }
}
