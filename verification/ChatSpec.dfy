/** The chat service itself: one request of one slot turns a table and the logs into a new
    table, new logs and a list of messages handed to slots. The three servers refine it. */
module ChatSpec {
  import opened Bytes
  import opened Codec
  import opened History
  import opened Scanf

  const MAX_CLIENTS := 10
  const STATUS_AVAILABLE := 0
  const STATUS_BUSY := 1
  const STATUS_AWAY := 2

  /** The part of a client slot that routing depends on; `name` is a C string. */
  datatype Slot = Slot(active: bool, name: seq<Byte>, status: int)

  const FREE := Slot(false, [], STATUS_AVAILABLE)

  datatype Chat = Chat(slots: seq<Slot>, logs: Logs)

  /** A message handed to a slot for sending. */
  datatype Out = Out(to: nat, msg: Message)

  datatype Effect = Effect(chat: Chat, outs: seq<Out>)

  /** What a request finds outside the process: the clock, the formatted request time and
      the verdict of the discovery server. */
  datatype Env = Env(now: Time, stamp: seq<Byte>, valid: (seq<Byte>, seq<Byte>) -> bool)

  /** The environment of each request of a run. */
  type World = nat -> Env

  // ---------- lookups ----------

  function FindFrom(slots: seq<Slot>, u: seq<Byte>, i: nat): (r: int)
    requires i <= |slots|
    ensures r == -1 || i <= r < |slots|
    decreases |slots| - i
  {
    if i == |slots| then -1
    else if slots[i].active && slots[i].name == u then i
    else FindFrom(slots, u, i + 1)
  }

  /** The first active slot of a name, or -1. */
  function Find(slots: seq<Slot>, u: seq<Byte>): (r: int)
    ensures r == -1 || 0 <= r < |slots|
  {
    FindFrom(slots, u, 0)
  }

  lemma {:induction false} FindFromSpec(slots: seq<Slot>, u: seq<Byte>, i: nat)
    requires i <= |slots|
    ensures var r := FindFrom(slots, u, i);
            && (r != -1 ==> slots[r].active && slots[r].name == u)
            && (forall j :: i <= j < |slots| && (r == -1 || j < r) ==> !(slots[j].active && slots[j].name == u))
    decreases |slots| - i
  {
    if i < |slots| {
      FindFromSpec(slots, u, i + 1);
    }
  }

  function StatusName(status: int): (s: seq<Byte>)
    ensures |s| <= 9
  {
    if status == STATUS_BUSY then Lit("busy") else if status == STATUS_AWAY then Lit("away") else Lit("available")
  }

  /** The status asked for: the first four payload bytes decide. */
  function AskedStatus(payload: seq<Byte>): (s: int)
    ensures 0 <= s <= 2
  {
    if Lit("busy") <= payload then STATUS_BUSY
    else if Lit("away") <= payload then STATUS_AWAY
    else STATUS_AVAILABLE
  }

  function Entry(c: Slot): seq<Byte> {
    c.name + Lit("(") + StatusName(c.status) + Lit(")")
  }

  predicate Listed(c: Slot) {
    c.active && c.name != []
  }

  /** The list of the first `n` slots. */
  function UserList(slots: seq<Slot>, n: nat): seq<Byte>
    requires n <= |slots|
  {
    if n == 0 then []
    else
      var l := UserList(slots, n - 1);
      if !Listed(slots[n - 1]) then l
      else (if l == [] then l else l + Lit(", ")) + Entry(slots[n - 1])
  }

  // ---------- outputs ----------

  const SERVER := Lit("server")

  function Say(kind: nat, receiver: seq<Byte>, text: seq<Byte>, now: Time): Message {
    MakeMessage(kind, SERVER, receiver, text, now)
  }

  function Refusal(receiver: seq<Byte>, text: seq<Byte>, now: Time): Message {
    Say(MSG_ERROR, receiver, text, now).(status := 1)
  }

  /** `m` to every active slot below `n` but `skip`, in slot order. */
  function ToOthers(slots: seq<Slot>, skip: nat, m: Message, n: nat): seq<Out>
    requires n <= |slots|
  {
    if n == 0 then []
    else ToOthers(slots, skip, m, n - 1)
         + if n - 1 != skip && slots[n - 1].active then [Out(n - 1, m)] else []
  }

  /** The messages handed to one slot. */
  function For(outs: seq<Out>, i: nat): seq<Message> {
    if outs == [] then []
    else For(outs[..|outs| - 1], i) + if outs[|outs| - 1].to == i then [outs[|outs| - 1].msg] else []
  }

  // ---------- the step ----------

  function Login(c: Chat, s: nat, req: Message, env: Env, selfOk: bool): Effect
    requires s < |c.slots|
  {
    var scan := ScanLogin(CStr(req.payload));
    if scan.count != 2 then
      Effect(c, [Out(s, Refusal([], Lit("Bad login format"), env.now))])
    else
      var dup := Find(c.slots, scan.user);
      if dup != -1 && !(selfOk && dup == s) then
        Effect(c, [Out(s, Refusal(scan.user, Lit("Already logged in"), env.now))])
      else if !env.valid(scan.user, scan.pass) then
        Effect(c, [Out(s, Refusal(scan.user, Lit("Invalid credentials"), env.now))])
      else
        Effect(c.(slots := c.slots[s := Slot(true, scan.user, STATUS_AVAILABLE)]),
               [Out(s, Say(MSG_ACK, scan.user, Lit("Login successful"), env.now))])
  }

  function Left(name: seq<Byte>, word: string, now: Time): Message {
    Say(MSG_BROADCAST, [], name + Lit(word), now)
  }

  function Logout(c: Chat, s: nat, env: Env): Effect
    requires s < |c.slots|
  {
    var slots := c.slots[s := c.slots[s].(active := false, name := [])];
    Effect(c.(slots := slots), ToOthers(slots, s, Left(c.slots[s].name, " left", env.now), |slots|))
  }

  function Broadcast(c: Chat, s: nat, req: Message, env: Env): Effect
    requires s < |c.slots|
  {
    if !c.slots[s].active then
      Effect(c, [Out(s, Refusal([], Lit("Not authenticated"), env.now))])
    else
      var from := CStr(req.sender);
      Effect(c.(logs := Saved(c.logs, from, [], CStr(req.payload), env.stamp)),
             ToOthers(c.slots, s, req, |c.slots|) + [Out(s, Say(MSG_ACK, from, [], env.now))])
  }

  function Private(c: Chat, s: nat, req: Message, env: Env): Effect
    requires s < |c.slots|
  {
    var from := CStr(req.sender);
    var to := CStr(req.receiver);
    if !c.slots[s].active then
      Effect(c, [Out(s, Refusal([], Lit("Not authenticated"), env.now))])
    else if Find(c.slots, to) == -1 then
      Effect(c, [Out(s, Refusal(from, Lit("User not online"), env.now))])
    else
      Effect(c.(logs := Saved(c.logs, from, to, CStr(req.payload), env.stamp)),
             [Out(Find(c.slots, to), req), Out(s, Say(MSG_ACK, from, [], env.now))])
  }

  /** The service's answer to one request of slot `s`. `selfOk` says whether logging in again
      under the slot's own current name is let through. */
  function Step(c: Chat, s: nat, req: Message, env: Env, selfOk: bool): (e: Effect)
    requires s < |c.slots|
    ensures |e.chat.slots| == |c.slots|
  {
    var from := CStr(req.sender);
    if req.kind == MSG_LOGIN then Login(c, s, req, env, selfOk)
    else if req.kind == MSG_LOGOUT then Logout(c, s, env)
    else if req.kind == MSG_BROADCAST then Broadcast(c, s, req, env)
    else if req.kind == MSG_PRIVATE then Private(c, s, req, env)
    else if req.kind == MSG_LIST_USERS then
      Effect(c, [Out(s, Say(MSG_USER_LIST, from, UserList(c.slots, |c.slots|), env.now))])
    else if req.kind == MSG_HISTORY_REQ then
      Effect(c, [Out(s, Say(MSG_HISTORY_RESP, from, Reply(LogOf(c.logs, from)), env.now))])
    else if req.kind == MSG_STATUS_CHANGE then
      Effect(c.(slots := c.slots[s := c.slots[s].(status := AskedStatus(req.payload))]),
             [Out(s, Say(MSG_ACK, from, Lit("Status updated"), env.now))])
    else
      Effect(c, [Out(s, Refusal(from, Lit("Unknown type"), env.now))])
  }

  /** What losing the connection of slot `s` does. */
  function Leave(c: Chat, s: nat, now: Time): Effect
    requires s < |c.slots|
  {
    Effect(c.(slots := c.slots[s := FREE]),
           if c.slots[s].active
           then ToOthers(c.slots, s, Left(c.slots[s].name, " disconnected", now), |c.slots|)
           else [])
  }

  /** Requests `k`, `k + 1`, ... of a run, all of slot `s`. */
  function Serve(c: Chat, s: nat, reqs: seq<Message>, world: World, k: nat, selfOk: bool): (e: Effect)
    requires s < |c.slots|
    ensures |e.chat.slots| == |c.slots|
  {
    hide Step;
    if reqs == [] then Effect(c, [])
    else
      var n := |reqs| - 1;
      var e := Serve(c, s, reqs[..n], world, k, selfOk);
      var f := Step(e.chat, s, reqs[n], world(k + n), selfOk);
      Effect(f.chat, e.outs + f.outs)
  }

  // ---------- the table invariant ----------

  predicate NameOk(u: seq<Byte>) {
    0 < |u| <= USER_MAX && NoNul(u) && COLON !in u
  }

  /** Active slots carry distinct well-formed names, and every status is a valid index. */
  predicate TableOk(slots: seq<Slot>) {
    && |slots| == MAX_CLIENTS
    && (forall i :: 0 <= i < |slots| ==> 0 <= slots[i].status <= 2)
    && (forall i :: 0 <= i < |slots| && slots[i].active ==> NameOk(slots[i].name))
    && (forall i :: 0 <= i < |slots| && !slots[i].active ==> slots[i].name == [])
    && (forall i, j :: 0 <= i < j < |slots| && slots[i].active && slots[j].active ==> slots[i].name != slots[j].name)
  }

  predicate LogsOk(logs: Logs) {
    forall u :: u in logs ==> Ended(logs[u])
  }

  predicate ChatOk(c: Chat) {
    TableOk(c.slots) && LogsOk(c.logs)
  }

  lemma LoginScanOk(req: Message)
    ensures var scan := ScanLogin(CStr(req.payload));
            scan.count == 2 ==> NameOk(scan.user)
  {
    ScanLoginShape(CStr(req.payload));
  }

  lemma LoginKeeps(c: Chat, s: nat, req: Message, env: Env, selfOk: bool)
    requires TableOk(c.slots) && s < MAX_CLIENTS
    ensures TableOk(Login(c, s, req, env, selfOk).chat.slots)
  {
    LoginScanOk(req);
    FindFromSpec(c.slots, ScanLogin(CStr(req.payload)).user, 0);
  }

  /** Every request keeps the table invariant and only ever extends a log by whole records. */
  lemma StepKeeps(c: Chat, s: nat, req: Message, env: Env, selfOk: bool)
    requires TableOk(c.slots) && s < MAX_CLIENTS
    ensures var d := Step(c, s, req, env, selfOk).chat;
            && TableOk(d.slots)
            && LogsGrown(c.logs, d.logs)
  {
    hide TableOk, ScanLogin, CStr, Find, Saved, LogsGrown;
    TableSize(c.slots);
    if req.kind == MSG_LOGIN {
      LoginKeeps(c, s, req, env, selfOk);
    } else {
      SlotOnlyKeeps(c.slots, s, c.slots[s].(active := false, name := []));
      SlotOnlyKeeps(c.slots, s, c.slots[s].(status := AskedStatus(req.payload)));
    }
    var to := if req.kind == MSG_PRIVATE then CStr(req.receiver) else [];
    SavedGrows(c.logs, CStr(req.sender), to, CStr(req.payload), env.stamp);
  }

  lemma TableSize(slots: seq<Slot>)
    requires TableOk(slots)
    ensures |slots| == MAX_CLIENTS
    ensures forall i :: 0 <= i < |slots| ==> 0 <= slots[i].status <= 2
  {
  }

  lemma SlotOnlyKeeps(slots: seq<Slot>, s: nat, x: Slot)
    requires TableOk(slots) && s < MAX_CLIENTS
    ensures !x.active && x.name == [] && 0 <= x.status <= 2 ==> TableOk(slots[s := x])
    ensures x.active == slots[s].active && x.name == slots[s].name && 0 <= x.status <= 2 ==> TableOk(slots[s := x])
    ensures !x.active && 0 <= slots[s].status <= 2 && x == slots[s].(active := false, name := []) ==>
              TableOk(slots[s := x])
  {
  }

  // ---------- runs ----------

  /** What happens to a slot: a request with what it finds outside; the loss of its connection,
      announced or silent; or a new connection, which resets the slot or finds it as it is. */
  datatype Event =
    | Request(s: nat, req: Message, env: Env)
    | Gone(s: nat, now: Time)
    | Wiped(s: nat)
    | Filled(s: nat)
    | Joined(s: nat)

  /** The table and the logs before anything has happened. */
  function Blank(): Chat {
    Chat(seq(MAX_CLIENTS, _ => FREE), map[])
  }

  function Apply(c: Chat, ev: Event, selfOk: bool): (e: Effect)
    requires ev.s < |c.slots|
    ensures |e.chat.slots| == |c.slots|
  {
    match ev
    case Request(s, req, env) => Step(c, s, req, env, selfOk)
    case Gone(s, now) => Leave(c, s, now)
    case Wiped(s) => Effect(c.(slots := c.slots[s := c.slots[s].(active := false, name := [])]), [])
    case Filled(s) => Effect(c.(slots := c.slots[s := FREE]), [])
    case Joined(s) => Effect(c, [])
  }

  predicate Within(evs: seq<Event>, n: nat) {
    forall i :: 0 <= i < |evs| ==> evs[i].s < n
  }

  /** A run of the service: events of any slots, in any order. */
  function Run(c: Chat, evs: seq<Event>, selfOk: bool): (e: Effect)
    requires Within(evs, |c.slots|)
    ensures |e.chat.slots| == |c.slots|
  {
    hide Apply;
    if evs == [] then Effect(c, [])
    else
      var n := |evs| - 1;
      var e := Run(c, evs[..n], selfOk);
      var f := Apply(e.chat, evs[n], selfOk);
      Effect(f.chat, e.outs + f.outs)
  }

  lemma StartOk()
    ensures ChatOk(Blank())
  {
  }

  lemma RunNone(c: Chat, selfOk: bool)
    ensures Run(c, [], selfOk) == Effect(c, [])
  {
  }

  lemma RunOne(c: Chat, evs: seq<Event>, ev: Event, selfOk: bool)
    requires Within(evs, |c.slots|) && ev.s < |c.slots|
    ensures Within(evs + [ev], |c.slots|)
    ensures var e := Run(c, evs, selfOk);
            var f := Apply(e.chat, ev, selfOk);
            Run(c, evs + [ev], selfOk) == Effect(f.chat, e.outs + f.outs)
  {
    hide Apply;
    assert (evs + [ev])[..|evs|] == evs;
  }

  /** A run can be cut anywhere. */
  lemma {:induction false} RunConcat(c: Chat, a: seq<Event>, b: seq<Event>, selfOk: bool)
    requires Within(a, |c.slots|) && Within(b, |c.slots|)
    ensures Within(a + b, |c.slots|)
    ensures var e := Run(c, a, selfOk);
            var f := Run(e.chat, b, selfOk);
            Run(c, a + b, selfOk) == Effect(f.chat, e.outs + f.outs)
    decreases |b|
  {
    hide Run, Apply;
    var e := Run(c, a, selfOk);
    if b == [] {
      RunNone(e.chat, selfOk);
      assert a + b == a && e.outs + [] == e.outs;
    } else {
      var n := |b| - 1;
      RunConcat(c, a, b[..n], selfOk);
      RunOne(e.chat, b[..n], b[n], selfOk);
      RunOne(c, a + b[..n], b[n], selfOk);
      assert a + b == (a + b[..n]) + [b[n]] && b == b[..n] + [b[n]];
      var f := Run(e.chat, b[..n], selfOk);
      var g := Apply(f.chat, b[n], selfOk);
      assert (e.outs + f.outs) + g.outs == e.outs + (f.outs + g.outs);
    }
  }

  /** The events of consecutive requests of one slot. */
  function Requests(s: nat, reqs: seq<Message>, world: World, k: nat): seq<Event> {
    seq(|reqs|, i requires 0 <= i < |reqs| => Request(s, reqs[i], world(k + i)))
  }

  lemma {:induction false} ServeIsRun(c: Chat, s: nat, reqs: seq<Message>, world: World, k: nat, selfOk: bool)
    requires s < |c.slots|
    ensures Within(Requests(s, reqs, world, k), |c.slots|)
    ensures Run(c, Requests(s, reqs, world, k), selfOk) == Serve(c, s, reqs, world, k, selfOk)
    decreases |reqs|
  {
    hide Run, Step;
    if reqs == [] {
      RunNone(c, selfOk);
    } else {
      var n := |reqs| - 1;
      ServeIsRun(c, s, reqs[..n], world, k, selfOk);
      var front, ev := Requests(s, reqs[..n], world, k), Request(s, reqs[n], world(k + n));
      assert Requests(s, reqs, world, k) == front + [ev];
      RunOne(c, front, ev, selfOk);
    }
  }

  /** Over every run names stay unique and well-formed, and each log only grows, by records. */
  lemma {:induction false} RunKeeps(c: Chat, evs: seq<Event>, selfOk: bool)
    requires TableOk(c.slots) && Within(evs, |c.slots|)
    ensures var d := Run(c, evs, selfOk).chat;
            && TableOk(d.slots)
            && LogsGrown(c.logs, d.logs)
  {
    hide TableOk, LogsGrown, Apply;
    if evs == [] {
      SavedGrows(c.logs, [], [], [], []);
    } else {
      var n := |evs| - 1;
      var d := Run(c, evs[..n], selfOk).chat;
      RunKeeps(c, evs[..n], selfOk);
      EventKeeps(d, evs[n], selfOk);
      GrownTransitive(c.logs, d.logs, Apply(d, evs[n], selfOk).chat.logs);
    }
  }

  lemma EventKeeps(c: Chat, ev: Event, selfOk: bool)
    requires TableOk(c.slots) && ev.s < |c.slots|
    ensures TableOk(Apply(c, ev, selfOk).chat.slots)
    ensures LogsGrown(c.logs, Apply(c, ev, selfOk).chat.logs)
  {
    hide Step, LogsGrown, TableOk;
    TableSize(c.slots);
    match ev {
      case Request(s, req, env) =>
        StepKeeps(c, s, req, env, selfOk);
      case _ =>
        SlotOnlyKeeps(c.slots, ev.s, FREE);
        SlotOnlyKeeps(c.slots, ev.s, c.slots[ev.s].(active := false, name := []));
        SavedGrows(c.logs, [], [], [], []);
    }
  }

  /** The reply a log gives rise to only extends as logs grow. */
  lemma LogsMonotone(before: Logs, after: Logs, name: seq<Byte>)
    requires LogsOk(before) && LogsGrown(before, after)
    ensures Extends(LogOf(before, name), LogOf(after, name))
    ensures Ended(LogOf(after, name))
  {
    hide Excerpt;
    var b, a := LogOf(before, name), LogOf(after, name);
    assert Grown(b, a);
    ExcerptMonotone(b, a);
    if a != b {
      assert a[|b|..] != [] ==> a[|a| - 1] == a[|b|..][|a| - |b| - 1];
    }
  }

  /** What has grown out of nothing consists of whole records. */
  lemma GrownIsOk(logs: Logs)
    requires LogsGrown(map[], logs)
    ensures LogsOk(logs)
  {
    forall u | u in logs
      ensures Ended(logs[u])
    {
      assert Grown(LogOf(map[], u), LogOf(logs, u));
      assert logs[u][0..] == logs[u];
    }
  }

  /** History replies are monotone over every run that starts from whole records: a later
      excerpt extends an earlier one, and stands still once a line has been refused. */
  lemma HistoryMonotone(c: Chat, evs: seq<Event>, selfOk: bool, name: seq<Byte>)
    requires ChatOk(c) && Within(evs, |c.slots|)
    ensures var after := LogOf(Run(c, evs, selfOk).chat.logs, name);
            Extends(LogOf(c.logs, name), after) && Ended(after)
  {
    hide Run, TableOk, Extends, LogsGrown, LogsOk;
    RunKeeps(c, evs, selfOk);
    LogsMonotone(c.logs, Run(c, evs, selfOk).chat.logs, name);
  }

  // ---------- who gets what ----------

  lemma ForAppend(a: seq<Out>, o: Out, i: nat)
    ensures For(a + [o], i) == For(a, i) + if o.to == i then [o.msg] else []
  {
    assert (a + [o])[..|a|] == a;
  }

  lemma {:induction false} ForConcat(a: seq<Out>, b: seq<Out>, i: nat)
    ensures For(a + b, i) == For(a, i) + For(b, i)
    decreases |b|
  {
    if b == [] {
      assert a + b == a;
    } else {
      var n := |b| - 1;
      assert a + b == (a + b[..n]) + [b[n]];
      ForAppend(a + b[..n], b[n], i);
      ForConcat(a, b[..n], i);
    }
  }

  /** A broadcast reaches each other active slot exactly once, and nobody else. */
  lemma {:induction false} ToOthersReach(slots: seq<Slot>, skip: nat, m: Message, n: nat, i: nat)
    requires n <= |slots|
    ensures For(ToOthers(slots, skip, m, n), i) == if i < n && i != skip && slots[i].active then [m] else []
  {
    hide For;
    if n == 0 {
      ForNone(i);
    } else {
      ToOthersReach(slots, skip, m, n - 1, i);
      var rest := ToOthers(slots, skip, m, n - 1);
      ForAppend(rest, Out(n - 1, m), i);
      assert rest + [] == rest;
    }
  }

  lemma ForNone(i: nat)
    ensures For([], i) == []
  {
  }

  predicate IsReply(m: Message) {
    m.kind == MSG_ACK || m.kind == MSG_ERROR || m.kind == MSG_USER_LIST || m.kind == MSG_HISTORY_RESP
  }

  /** `reply` is an answer the service may give to `req`. */
  predicate Answers(req: Message, reply: Message) {
    && reply.sender == Field(SERVER, MAX_USERNAME_LEN)
    && (reply.kind == MSG_ERROR ==> reply.status == 1)
    && (reply.kind != MSG_ERROR ==> reply.status == 0)
    && (if req.kind == MSG_LOGIN || req.kind == MSG_BROADCAST || req.kind == MSG_PRIVATE then
          reply.kind == MSG_ACK || reply.kind == MSG_ERROR
        else if req.kind == MSG_LIST_USERS then reply.kind == MSG_USER_LIST
        else if req.kind == MSG_HISTORY_REQ then reply.kind == MSG_HISTORY_RESP
        else if req.kind == MSG_STATUS_CHANGE then reply.kind == MSG_ACK
        else req.kind != MSG_LOGOUT && reply.kind == MSG_ERROR)
  }

  function Replies(ms: seq<Message>): seq<Message> {
    if ms == [] then []
    else Replies(ms[..|ms| - 1]) + if IsReply(ms[|ms| - 1]) then [ms[|ms| - 1]] else []
  }

  lemma {:induction false} RepliesConcat(a: seq<Message>, b: seq<Message>)
    ensures Replies(a + b) == Replies(a) + Replies(b)
    decreases |b|
  {
    if b == [] {
      assert a + b == a;
    } else {
      var n := |b| - 1;
      assert (a + b)[..|a + b| - 1] == a + b[..n];
      RepliesConcat(a, b[..n]);
    }
  }

  lemma RepliesOne(m: Message)
    ensures Replies([m]) == if IsReply(m) then [m] else []
    ensures Replies([]) == []
  {
    assert [m][..0] == [];
  }

  /** Every request but LOGOUT is answered to its own slot by the last message of the step;
      no other message of the step is a reply. */
  lemma StepAnswers(c: Chat, s: nat, req: Message, env: Env, selfOk: bool)
    requires s < |c.slots|
    ensures var outs := Step(c, s, req, env, selfOk).outs;
            if req.kind == MSG_LOGOUT then
              forall k :: 0 <= k < |outs| ==> !IsReply(outs[k].msg)
            else
              && outs != []
              && outs[|outs| - 1].to == s
              && Answers(req, outs[|outs| - 1].msg)
              && forall k :: 0 <= k < |outs| - 1 ==> !IsReply(outs[k].msg)
  {
    hide ScanLogin, CStr, Find, Saved, LogOf, UserList, AskedStatus, Reply;
    if req.kind == MSG_LOGOUT {
      var slots := c.slots[s := c.slots[s].(active := false, name := [])];
      ToOthersMsgs(slots, s, Left(c.slots[s].name, " left", env.now), |slots|);
    } else if req.kind == MSG_BROADCAST {
      ToOthersMsgs(c.slots, s, req, |c.slots|);
    }
  }

  predicate CopiesOf(t: seq<Out>, m: Message) {
    forall k :: 0 <= k < |t| ==> t[k].msg == m
  }

  lemma {:induction false} ToOthersMsgs(slots: seq<Slot>, skip: nat, m: Message, n: nat)
    requires n <= |slots|
    ensures CopiesOf(ToOthers(slots, skip, m, n), m)
  {
    if n > 0 {
      ToOthersMsgs(slots, skip, m, n - 1);
    }
  }

  lemma {:induction false} NoReplies(outs: seq<Out>, i: nat)
    requires forall k :: 0 <= k < |outs| ==> !IsReply(outs[k].msg)
    ensures Replies(For(outs, i)) == []
  {
    if outs != [] {
      var n := |outs| - 1;
      NoReplies(outs[..n], i);
      if outs[n].to == i {
        RepliesConcat(For(outs[..n], i), [outs[n].msg]);
        RepliesOne(outs[n].msg);
      } else {
        assert For(outs[..n], i) + [] == For(outs[..n], i);
      }
    }
  }

  /** The replies among the messages a step hands to slot `i`. */
  lemma StepReplies(c: Chat, s: nat, req: Message, env: Env, selfOk: bool, i: nat)
    requires s < |c.slots|
    ensures var r := Replies(For(Step(c, s, req, env, selfOk).outs, i));
            if i == s && req.kind != MSG_LOGOUT then |r| == 1 && Answers(req, r[0]) else r == []
  {
    hide Step, IsReply;
    StepAnswers(c, s, req, env, selfOk);
    var outs := Step(c, s, req, env, selfOk).outs;
    if req.kind == MSG_LOGOUT {
      NoReplies(outs, i);
    } else {
      var n := |outs| - 1;
      assert outs == outs[..n] + [outs[n]];
      NoReplies(outs[..n], i);
      ForAppend(outs[..n], outs[n], i);
      AnswersAreReplies(req, outs[n].msg);
      if i == s {
        RepliesConcat(For(outs[..n], i), [outs[n].msg]);
        RepliesOne(outs[n].msg);
      } else {
        assert For(outs[..n], i) + [] == For(outs[..n], i);
      }
    }
  }

  lemma AnswersAreReplies(req: Message, reply: Message)
    requires Answers(req, reply)
    ensures IsReply(reply)
  {
  }

  // ---------- where the servers differ ----------

  /** The two treatments of a request differ exactly when it logs in under the name its own
      slot already holds. */
  lemma SelfLoginDiffers(c: Chat, s: nat, req: Message, env: Env)
    requires TableOk(c.slots) && s < MAX_CLIENTS
    ensures Step(c, s, req, env, true) != Step(c, s, req, env, false)
       <==> && req.kind == MSG_LOGIN
            && ScanLogin(CStr(req.payload)).count == 2
            && c.slots[s].active
            && c.slots[s].name == ScanLogin(CStr(req.payload)).user
  {
    hide ScanLogin, CStr, Saved, LogOf, UserList, AskedStatus, Reply;
    var scan := ScanLogin(CStr(req.payload));
    if req.kind == MSG_LOGIN && scan.count == 2 {
      FindFromSpec(c.slots, scan.user, 0);
      var a := Refusal(scan.user, Lit("Already logged in"), env.now);
      var b := Refusal(scan.user, Lit("Invalid credentials"), env.now);
      var d := Say(MSG_ACK, scan.user, Lit("Login successful"), env.now);
      assert a.payloadLen == 17 && b.payloadLen == 19 && d.payloadLen == 16;
    }
  }

  // ---------- the user list ----------

  /** The list never reaches the size at which `strncat` would cut it. */
  lemma {:induction false} UserListFits(slots: seq<Slot>, n: nat)
    requires TableOk(slots) && n <= |slots|
    ensures |UserList(slots, n)| <= 44 * n
  {
    if n > 0 {
      UserListFits(slots, n - 1);
      assert slots[n - 1].active ==> NameOk(slots[n - 1].name);
    }
  }

  // ---------- lookups in a table of structs ----------

  /** `find_by_user` / `find_user` / `find_slot_by_username`. */
  method FindUser(slots: array<Slot>, u: seq<Byte>) returns (r: int)
    ensures r == Find(slots[..], u)
  {
    for i := 0 to slots.Length
      invariant Find(slots[..], u) == FindFrom(slots[..], u, i)
    {
      if slots[i].active && slots[i].name == u {
        return i;
      }
    }
    r := -1;
  }

  /** `strncat(list, s, MAX_PAYLOAD_LEN - strlen(list) - 1)`. */
  function StrNCat(list: seq<Byte>, s: seq<Byte>): seq<Byte>
    requires |list| < MAX_PAYLOAD_LEN
  {
    list + s[..Min(|s|, MAX_PAYLOAD_LEN - |list| - 1)]
  }

  /** The loop of the LIST_USERS branch. */
  method ListUsers(slots: array<Slot>) returns (list: seq<Byte>)
    requires TableOk(slots[..])
    ensures list == UserList(slots[..], MAX_CLIENTS)
  {
    hide TableOk;
    list := [];
    var first := true;
    var i := 0;
    TableSizes(slots[..]);
    while i < MAX_CLIENTS
      invariant 0 <= i <= MAX_CLIENTS == slots.Length
      invariant list == UserList(slots[..], i)
      invariant first == (list == [])
    {
      UserListFits(slots[..], i);
      TableSizes(slots[..]);
      assert slots[..][i] == slots[i];
      if slots[i].active && slots[i].name != [] {
        if !first {
          list := StrNCat(list, Lit(", "));
          assert list == UserList(slots[..], i) + Lit(", ");
        }
        var e := SnPrintf(Entry(slots[i]), 64);
        assert e == Entry(slots[i]);
        assert |list| + |e| < MAX_PAYLOAD_LEN;
        list := StrNCat(list, e);
        first := false;
      }
      i := i + 1;
    }
  }

  lemma TableSizes(slots: seq<Slot>)
    requires TableOk(slots)
    ensures |slots| == MAX_CLIENTS
    ensures forall i :: 0 <= i < |slots| ==> |slots[i].name| <= USER_MAX
  {
    forall i | 0 <= i < |slots|
      ensures |slots[i].name| <= USER_MAX
    {
      assert slots[i].active ==> NameOk(slots[i].name);
    }
  }
}
