/** What each request and each loss of a connection means to every client: who is sent what,
    what the table shows and what the logs hold. The laws speak of the table, the outputs and the
    events of a run; they do not lean on how the service computes its step. */
module ServiceLaws {
  import opened Bytes
  import opened Codec
  import opened History
  import opened Scanf
  import opened ChatSpec

  // ---------- messages of the server's own ----------

  /** A C string as a name field holds it. */
  function Cut(s: seq<Byte>): seq<Byte> {
    if |s| < MAX_USERNAME_LEN then s else s[..MAX_USERNAME_LEN - 1]
  }

  /** `m` comes from "server", is for `to` and carries `text`. */
  predicate Tells(m: Message, kind: nat, status: int, to: seq<Byte>, text: seq<Byte>, now: Time) {
    && m.kind == kind && m.status == status && m.timestamp == now
    && CStr(m.sender) == Lit("server")
    && CStr(m.receiver) == Cut(to)
    && CStr(m.payload) == text && m.payloadLen == |text|
  }

  lemma FieldText(s: seq<Byte>)
    requires NoNul(s)
    ensures CStr(Field(s, MAX_USERNAME_LEN)) == Cut(s)
  {
    CStrOfField(s, MAX_USERNAME_LEN);
    StrLenUnique(s, |s|);
  }

  lemma SayTells(kind: nat, to: seq<Byte>, text: seq<Byte>, now: Time)
    requires NoNul(to) && NoNul(text) && |text| <= MAX_PAYLOAD_LEN
    ensures Tells(Say(kind, to, text, now), kind, 0, to, text, now)
    ensures Tells(Refusal(to, text, now), MSG_ERROR, 1, to, text, now)
  {
    hide CStr, Field;
    LitText("server");
    FieldText(Lit("server"));
    FieldText(to);
    PayloadText(kind, SERVER, to, text, now);
    PayloadText(MSG_ERROR, SERVER, to, text, now);
  }

  lemma CStrClean(a: seq<Byte>)
    ensures NoNul(CStr(a))
  {
  }

  /** Slot `i`'s share of outputs that are one message to slot `s`. */
  lemma ForOne(s: nat, m: Message, i: nat)
    ensures For([Out(s, m)], i) == if i == s then [m] else []
  {
    ForAppend([], Out(s, m), i);
    assert [] + [Out(s, m)] == [Out(s, m)];
  }

  // ---------- the table ----------

  /** Some logged-in slot other than `but` has the name. */
  predicate Online(slots: seq<Slot>, name: seq<Byte>, but: int) {
    exists t :: 0 <= t < |slots| && t != but && slots[t].active && slots[t].name == name
  }

  /** Only slot `s` may have changed. */
  predicate SameBut(a: seq<Slot>, b: seq<Slot>, s: nat) {
    |a| == |b| && forall j :: 0 <= j < |a| && j != s ==> b[j] == a[j]
  }

  lemma FindOnline(slots: seq<Slot>, name: seq<Byte>)
    ensures Find(slots, name) != -1 <==> Online(slots, name, -1)
  {
    FindFromSpec(slots, name, 0);
  }

  /** With a well-formed table the slot found is the one logged-in slot of the name. */
  lemma FindUnique(slots: seq<Slot>, name: seq<Byte>, t: nat)
    requires TableOk(slots) && t < |slots| && slots[t].active && slots[t].name == name
    ensures Find(slots, name) == t
  {
    FindFromSpec(slots, name, 0);
  }

  // ---------- LOGIN ----------

  /** The login string is well formed, nobody else has the name, and the verdict is favourable.
      `selfOk` lets the slot's own present name through. */
  predicate Granted(c: Chat, s: nat, req: Message, env: Env, selfOk: bool) {
    var scan := ScanLogin(CStr(req.payload));
    scan.count == 2 && !Online(c.slots, scan.user, if selfOk then s else -1) && env.valid(scan.user, scan.pass)
  }

  /** A login that is granted puts the user into the slot, available, and is acknowledged; any
      other leaves everything as it was and is refused with the reason. Nobody else hears of it. */
  lemma LoginLaw(c: Chat, s: nat, req: Message, env: Env, selfOk: bool, i: nat)
    requires TableOk(c.slots) && s < |c.slots| && req.kind == MSG_LOGIN
    ensures var e := Step(c, s, req, env, selfOk);
            var scan, mine := ScanLogin(CStr(req.payload)), For(e.outs, s);
            && (i != s ==> For(e.outs, i) == [])
            && |mine| == 1
            && e.chat.logs == c.logs && SameBut(c.slots, e.chat.slots, s)
            && if Granted(c, s, req, env, selfOk) then
                 && e.chat.slots[s] == Slot(true, scan.user, STATUS_AVAILABLE)
                 && Tells(mine[0], MSG_ACK, 0, scan.user, Lit("Login successful"), env.now)
               else
                 && e.chat == c
                 && if scan.count != 2 then Tells(mine[0], MSG_ERROR, 1, [], Lit("Bad login format"), env.now)
                    else if Online(c.slots, scan.user, if selfOk then s else -1) then
                      Tells(mine[0], MSG_ERROR, 1, scan.user, Lit("Already logged in"), env.now)
                    else Tells(mine[0], MSG_ERROR, 1, scan.user, Lit("Invalid credentials"), env.now)
  {
    hide ScanLogin, CStr, Find, TableOk, Tells, Say, Refusal, For, Online;
    var scan := ScanLogin(CStr(req.payload));
    CStrClean(req.payload);
    ScanLoginShape(CStr(req.payload));
    LoginTexts();
    SayTells(MSG_ERROR, [], Lit("Bad login format"), env.now);
    SayTells(MSG_ERROR, scan.user, Lit("Already logged in"), env.now);
    SayTells(MSG_ERROR, scan.user, Lit("Invalid credentials"), env.now);
    SayTells(MSG_ACK, scan.user, Lit("Login successful"), env.now);
    DupIsOnline(c.slots, scan.user, s, selfOk);
    var out := Step(c, s, req, env, selfOk).outs[0];
    ForOne(s, out.msg, i);
    ForOne(s, out.msg, s);
  }

  lemma LoginTexts()
    ensures NoNul(Lit("Bad login format")) && NoNul(Lit("Already logged in"))
    ensures NoNul(Lit("Invalid credentials")) && NoNul(Lit("Login successful"))
  {
    LitText("Bad login format");
    LitText("Already logged in");
    LitText("Invalid credentials");
    LitText("Login successful");
  }

  lemma DupIsOnline(slots: seq<Slot>, name: seq<Byte>, s: nat, selfOk: bool)
    requires TableOk(slots) && s < |slots|
    ensures var dup := Find(slots, name);
            (dup != -1 && !(selfOk && dup == s)) <==> Online(slots, name, if selfOk then s else -1)
  {
    FindFromSpec(slots, name, 0);
  }

  // ---------- LOGOUT and a lost connection ----------

  /** Every other logged-in slot is told once, and nobody else: the user, by the name the slot
      had, has left. The slot is logged out and nameless; nothing else changes. */
  lemma LogoutLaw(c: Chat, s: nat, req: Message, env: Env, selfOk: bool, i: nat)
    requires TableOk(c.slots) && s < |c.slots| && req.kind == MSG_LOGOUT
    ensures var e := Step(c, s, req, env, selfOk);
            var share := For(e.outs, i);
            && e.chat.logs == c.logs && SameBut(c.slots, e.chat.slots, s)
            && !e.chat.slots[s].active && e.chat.slots[s].name == []
            && e.chat.slots[s].status == c.slots[s].status
            && if i != s && i < |c.slots| && c.slots[i].active then
                 && |share| == 1
                 && Tells(share[0], MSG_BROADCAST, 0, [], c.slots[s].name + Lit(" left"), env.now)
               else share == []
  {
    hide CStr, For, TableOk, Tells, Say, ToOthers;
    NameText(c.slots, s, " left");
    SayTells(MSG_BROADCAST, [], c.slots[s].name + Lit(" left"), env.now);
    var after := c.slots[s := c.slots[s].(active := false, name := [])];
    ToOthersReach(after, s, Left(c.slots[s].name, " left", env.now), |after|, i);
  }

  lemma NameText(slots: seq<Slot>, s: nat, word: string)
    requires TableOk(slots) && s < |slots|
    requires |word| <= 32 && forall i :: 0 <= i < |word| ==> 0 < word[i] as int < 256
    ensures var text := slots[s].name + Lit(word); NoNul(text) && |text| <= MAX_PAYLOAD_LEN
    ensures NoNul([])
  {
    LitText(word);
    assert slots[s].active ==> NameOk(slots[s].name);
  }

  /** When a connection is lost, every other logged-in slot is told once, provided the slot was
      logged in, and nobody is told anything else. The slot is free; nothing else changes. */
  lemma LossLaw(c: Chat, s: nat, now: Time, selfOk: bool, i: nat)
    requires TableOk(c.slots) && s < |c.slots|
    ensures var e := Apply(c, Gone(s, now), selfOk);
            var share := For(e.outs, i);
            && e.chat.logs == c.logs && SameBut(c.slots, e.chat.slots, s)
            && e.chat.slots[s] == Slot(false, [], STATUS_AVAILABLE)
            && if c.slots[s].active && i != s && i < |c.slots| && c.slots[i].active then
                 && |share| == 1
                 && Tells(share[0], MSG_BROADCAST, 0, [], c.slots[s].name + Lit(" disconnected"), now)
               else share == []
  {
    hide CStr, For, TableOk, Tells, Say, ToOthers;
    NameText(c.slots, s, " disconnected");
    SayTells(MSG_BROADCAST, [], c.slots[s].name + Lit(" disconnected"), now);
    ForNone(i);
    ToOthersReach(c.slots, s, Left(c.slots[s].name, " disconnected", now), |c.slots|, i);
  }

  /** A slot cleared silently, a connection accepted: nobody is sent anything, and no other slot
      changes. */
  lemma QuietLaw(c: Chat, ev: Event, selfOk: bool, i: nat)
    requires ev.s < |c.slots| && (ev.Wiped? || ev.Filled? || ev.Joined?)
    ensures var e := Apply(c, ev, selfOk);
            && For(e.outs, i) == []
            && e.chat.logs == c.logs && SameBut(c.slots, e.chat.slots, ev.s)
            && (ev.Filled? ==> e.chat.slots[ev.s] == Slot(false, [], STATUS_AVAILABLE))
            && (ev.Joined? ==> e.chat == c)
            && (ev.Wiped? ==> && !e.chat.slots[ev.s].active && e.chat.slots[ev.s].name == []
                              && e.chat.slots[ev.s].status == c.slots[ev.s].status)
  {
    hide For;
    ForNone(i);
  }

  // ---------- BROADCAST and PRIVATE ----------

  /** A broadcast of a logged-in slot reaches every other logged-in slot once, as it is, and is
      acknowledged; that of any other slot is refused, and nothing happens. */
  lemma BroadcastLaw(c: Chat, s: nat, req: Message, env: Env, selfOk: bool, i: nat)
    requires TableOk(c.slots) && s < |c.slots| && req.kind == MSG_BROADCAST
    ensures var e := Step(c, s, req, env, selfOk);
            var share, from := For(e.outs, i), CStr(req.sender);
            && e.chat.slots == c.slots
            && if !c.slots[s].active then
                 && e.chat == c
                 && RefusedOnly(e.outs, s, i, [], Lit("Not authenticated"), env.now)
               else if i == s then
                 |share| == 1 && Tells(share[0], MSG_ACK, 0, from, [], env.now)
               else
                 share == if i < |c.slots| && c.slots[i].active then [req] else []
  {
    hide CStr, For, TableOk, Tells, Say, Refusal, ToOthers, Saved;
    var from := CStr(req.sender);
    CStrClean(req.sender);
    RefusalTexts();
    SayTells(MSG_ACK, from, [], env.now);
    SayTells(MSG_ERROR, [], Lit("Not authenticated"), env.now);
    if c.slots[s].active {
      var ack := Say(MSG_ACK, from, [], env.now);
      ToOthersReach(c.slots, s, req, |c.slots|, i);
      ForAppend(ToOthers(c.slots, s, req, |c.slots|), Out(s, ack), i);
      assert [] + [ack] == [ack] && [req] + [] == [req];
    } else {
      ForOne(s, Refusal([], Lit("Not authenticated"), env.now), i);
      ForOne(s, Refusal([], Lit("Not authenticated"), env.now), s);
    }
  }

  /** Slot `s` is sent one refusal, with its reason, and nobody else is sent anything. */
  predicate RefusedOnly(outs: seq<Out>, s: nat, i: nat, to: seq<Byte>, reason: seq<Byte>, now: Time) {
    && (i != s ==> For(outs, i) == [])
    && |For(outs, s)| == 1 && Tells(For(outs, s)[0], MSG_ERROR, 1, to, reason, now)
  }

  lemma RefusalTexts()
    ensures NoNul(Lit("Not authenticated")) && NoNul(Lit("User not online")) && NoNul(Lit("Unknown type"))
    ensures NoNul(Lit("Status updated")) && NoNul(Lit("No history.")) && NoNul([])
  {
    LitText("Not authenticated");
    LitText("User not online");
    LitText("Unknown type");
    LitText("Status updated");
    LitText("No history.");
  }

  /** A private message from a logged-in slot goes, as it is, to the one logged-in slot that has
      the receiver's name, and to nobody else, and is then acknowledged to the sender. */
  lemma PrivateLaw(c: Chat, s: nat, req: Message, env: Env, selfOk: bool, t: nat, i: nat)
    requires TableOk(c.slots) && s < |c.slots| && req.kind == MSG_PRIVATE && c.slots[s].active
    requires t < |c.slots| && c.slots[t].active && c.slots[t].name == CStr(req.receiver)
    ensures var e := Step(c, s, req, env, selfOk);
            var share, copy := For(e.outs, i), if i == t then [req] else [];
            && e.chat.slots == c.slots
            && if i == s then
                 && |share| == |copy| + 1 && share[..|copy|] == copy
                 && Tells(share[|copy|], MSG_ACK, 0, CStr(req.sender), [], env.now)
               else share == copy
  {
    hide CStr, For, TableOk, Tells, Say, Saved, Find;
    var from := CStr(req.sender);
    CStrClean(req.sender);
    RefusalTexts();
    SayTells(MSG_ACK, from, [], env.now);
    FindUnique(c.slots, CStr(req.receiver), t);
    var ack := Say(MSG_ACK, from, [], env.now);
    ForOne(t, req, i);
    ForAppend([Out(t, req)], Out(s, ack), i);
    assert [Out(t, req)] + [Out(s, ack)] == [Out(t, req), Out(s, ack)];
  }

  /** A private message to a name nobody has, or from a slot that is not logged in, is refused
      with the reason, and nothing else happens. */
  lemma PrivateRefused(c: Chat, s: nat, req: Message, env: Env, selfOk: bool, i: nat)
    requires s < |c.slots| && req.kind == MSG_PRIVATE
    requires !c.slots[s].active || !Online(c.slots, CStr(req.receiver), -1)
    ensures var e := Step(c, s, req, env, selfOk);
            && e.chat == c
            && if !c.slots[s].active then RefusedOnly(e.outs, s, i, [], Lit("Not authenticated"), env.now)
               else RefusedOnly(e.outs, s, i, CStr(req.sender), Lit("User not online"), env.now)
  {
    hide CStr, For, Tells, Refusal, Saved, Find, Online;
    CStrClean(req.sender);
    RefusalTexts();
    FindOnline(c.slots, CStr(req.receiver));
    SayTells(MSG_ERROR, [], Lit("Not authenticated"), env.now);
    SayTells(MSG_ERROR, CStr(req.sender), Lit("User not online"), env.now);
    var out := Step(c, s, req, env, selfOk).outs[0];
    ForOne(s, out.msg, i);
    ForOne(s, out.msg, s);
  }

  // ---------- STATUS_CHANGE and requests of no known type ----------

  /** The word for the status asked for: the first four bytes of the payload decide. */
  function WordFor(payload: seq<Byte>): seq<Byte> {
    if |payload| >= 4 && payload[..4] == Lit("busy") then Lit("busy")
    else if |payload| >= 4 && payload[..4] == Lit("away") then Lit("away")
    else Lit("available")
  }

  lemma StatusLaw(c: Chat, s: nat, req: Message, env: Env, selfOk: bool, i: nat)
    requires s < |c.slots| && req.kind == MSG_STATUS_CHANGE
    ensures var e := Step(c, s, req, env, selfOk);
            var share := For(e.outs, i);
            && e.chat.logs == c.logs && SameBut(c.slots, e.chat.slots, s)
            && e.chat.slots[s].active == c.slots[s].active && e.chat.slots[s].name == c.slots[s].name
            && StatusName(e.chat.slots[s].status) == WordFor(req.payload)
            && if i == s then
                 |share| == 1 && Tells(share[0], MSG_ACK, 0, CStr(req.sender), Lit("Status updated"), env.now)
               else share == []
  {
    hide CStr, For, Tells, Say;
    CStrClean(req.sender);
    RefusalTexts();
    SayTells(MSG_ACK, CStr(req.sender), Lit("Status updated"), env.now);
    ForOne(s, Say(MSG_ACK, CStr(req.sender), Lit("Status updated"), env.now), i);
  }

  lemma UnknownLaw(c: Chat, s: nat, req: Message, env: Env, selfOk: bool, i: nat)
    requires s < |c.slots|
    requires req.kind !in {MSG_LOGIN, MSG_LOGOUT, MSG_BROADCAST, MSG_PRIVATE, MSG_LIST_USERS, MSG_HISTORY_REQ,
                           MSG_STATUS_CHANGE}
    ensures var e := Step(c, s, req, env, selfOk);
            e.chat == c && RefusedOnly(e.outs, s, i, CStr(req.sender), Lit("Unknown type"), env.now)
  {
    hide CStr, For, Tells, Refusal;
    CStrClean(req.sender);
    RefusalTexts();
    SayTells(MSG_ERROR, CStr(req.sender), Lit("Unknown type"), env.now);
    ForOne(s, Refusal(CStr(req.sender), Lit("Unknown type"), env.now), i);
    ForOne(s, Refusal(CStr(req.sender), Lit("Unknown type"), env.now), s);
  }

  // ---------- LIST_USERS ----------

  /** The logged-in slots among the first `n`, in slot order. */
  function Actives(slots: seq<Slot>, n: nat): (r: seq<nat>)
    requires n <= |slots|
    ensures forall k :: 0 <= k < |r| ==> r[k] < n
  {
    if n == 0 then [] else Actives(slots, n - 1) + if slots[n - 1].active then [n - 1] else []
  }

  /** None is missing, repeated or added. */
  lemma {:induction false} ActivesAre(slots: seq<Slot>, n: nat)
    requires n <= |slots|
    ensures forall i :: i in Actives(slots, n) <==> 0 <= i < n && slots[i].active
    ensures forall j, k :: 0 <= j < k < |Actives(slots, n)| ==> Actives(slots, n)[j] < Actives(slots, n)[k]
  {
    if n > 0 {
      ActivesAre(slots, n - 1);
    }
  }

  /** What the list says of these slots: name and status of each. */
  function EntriesOf(slots: seq<Slot>, words: seq<seq<Byte>>, who: seq<nat>): seq<seq<Byte>>
    requires |words| == |slots| && forall k :: 0 <= k < |who| ==> who[k] < |slots|
  {
    seq(|who|, k requires 0 <= k < |who| => slots[who[k]].name + Lit("(") + words[who[k]] + Lit(")"))
  }

  function Commas(parts: seq<seq<Byte>>): seq<Byte> {
    if parts == [] then []
    else
      var n := |parts| - 1;
      if n == 0 then parts[0] else Commas(parts[..n]) + Lit(", ") + parts[n]
  }

  /** The words for the statuses in the table. */
  predicate WordsOf(slots: seq<Slot>, words: seq<seq<Byte>>) {
    |words| == |slots| && forall i :: 0 <= i < |slots| ==> words[i] == StatusName(slots[i].status)
  }

  lemma {:induction false} ListIsJoined(slots: seq<Slot>, words: seq<seq<Byte>>, n: nat)
    requires TableOk(slots) && n <= |slots| && WordsOf(slots, words)
    ensures UserList(slots, n) == Commas(EntriesOf(slots, words, Actives(slots, n)))
    ensures UserList(slots, n) == [] <==> Actives(slots, n) == []
    ensures NoNul(UserList(slots, n))
  {
    hide StatusName, Entry, TableOk, Commas;
    TableMeans(slots);
    JoinedNone();
    if n == 0 {
      assert EntriesOf(slots, words, []) == [];
    } else {
      ListIsJoined(slots, words, n - 1);
      var who, x := Actives(slots, n - 1), slots[n - 1];
      if x.active {
        assert NameOk(x.name);
        EntryText(x, words[n - 1]);
        assert EntriesOf(slots, words, who + [n - 1]) == EntriesOf(slots, words, who) + [Entry(x)];
        JoinedMore(EntriesOf(slots, words, who), Entry(x));
        LitText(", ");
      } else {
        assert who + [] == who;
      }
    }
  }

  lemma TableMeans(slots: seq<Slot>)
    requires TableOk(slots)
    ensures forall i :: 0 <= i < |slots| && slots[i].active ==> NameOk(slots[i].name) && slots[i].name != []
    ensures forall i :: 0 <= i < |slots| && !slots[i].active ==> slots[i].name == []
  {
  }

  lemma JoinedNone()
    ensures Commas([]) == []
  {
  }

  lemma JoinedMore(parts: seq<seq<Byte>>, part: seq<Byte>)
    ensures Commas(parts + [part]) == if parts == [] then part else Commas(parts) + Lit(", ") + part
  {
    assert (parts + [part])[..|parts|] == parts;
  }

  lemma EntryText(x: Slot, word: seq<Byte>)
    requires NameOk(x.name) && word == StatusName(x.status)
    ensures Entry(x) == x.name + Lit("(") + word + Lit(")")
    ensures NoNul(Entry(x)) && Entry(x) != []
  {
    LitText("(");
    LitText(")");
    LitText("busy");
    LitText("away");
    LitText("available");
  }

  /** The answer to LIST_USERS, to the asker alone: name and status of every logged-in slot, in
      slot order, joined by commas. */
  lemma ListLaw(c: Chat, s: nat, req: Message, env: Env, selfOk: bool, words: seq<seq<Byte>>, i: nat)
    requires TableOk(c.slots) && s < |c.slots| && req.kind == MSG_LIST_USERS && WordsOf(c.slots, words)
    ensures var e := Step(c, s, req, env, selfOk);
            var share := For(e.outs, i);
            && e.chat == c
            && if i == s then
                 && |share| == 1
                 && Tells(share[0], MSG_USER_LIST, 0, CStr(req.sender),
                          Commas(EntriesOf(c.slots, words, Actives(c.slots, |c.slots|))), env.now)
               else share == []
  {
    hide CStr, For, Tells, Say, TableOk, UserList;
    TableSize(c.slots);
    CStrClean(req.sender);
    ListIsJoined(c.slots, words, |c.slots|);
    UserListFits(c.slots, |c.slots|);
    SayTells(MSG_USER_LIST, CStr(req.sender), UserList(c.slots, |c.slots|), env.now);
    ForOne(s, Say(MSG_USER_LIST, CStr(req.sender), UserList(c.slots, |c.slots|), env.now), i);
  }

  /** The status of a slot, by the events of the run: what its last STATUS_CHANGE asked for, or
      "available" if it has logged in, or the slot was given out or lost, since. */
  function WordSince(evs: seq<Event>, s: nat, selfOk: bool): seq<Byte>
    requires Within(evs, MAX_CLIENTS)
  {
    if evs == [] then Lit("available")
    else
      var front, ev := evs[..|evs| - 1], evs[|evs| - 1];
      if ev.s != s then WordSince(front, s, selfOk)
      else if ev.Request? && ev.req.kind == MSG_STATUS_CHANGE then WordFor(ev.req.payload)
      else if ev.Filled? || ev.Gone? then Lit("available")
      else if ev.Request? && ev.req.kind == MSG_LOGIN && Granted(TableAt(front, selfOk), s, ev.req, ev.env, selfOk) then
        Lit("available")
      else WordSince(front, s, selfOk)
  }

  function TableAt(evs: seq<Event>, selfOk: bool): Chat
    requires Within(evs, MAX_CLIENTS)
  {
    Run(Blank(), evs, selfOk).chat
  }

  /** In every run the status shown for a slot is the one its events call for. */
  lemma {:induction false} StatusOfRun(evs: seq<Event>, s: nat, selfOk: bool)
    requires Within(evs, MAX_CLIENTS) && s < MAX_CLIENTS
    ensures |TableAt(evs, selfOk).slots| == MAX_CLIENTS
    ensures StatusName(TableAt(evs, selfOk).slots[s].status) == WordSince(evs, s, selfOk)
  {
    hide Apply, Run, Granted, StatusName, TableOk, WordFor;
    StartOk();
    if evs == [] {
      RunNone(Blank(), selfOk);
      AvailableWord();
    } else {
      var front, ev := evs[..|evs| - 1], evs[|evs| - 1];
      StatusOfRun(front, s, selfOk);
      RunKeeps(Blank(), front, selfOk);
      RunOne(Blank(), front, ev, selfOk);
      assert front + [ev] == evs;
      StatusAfter(TableAt(front, selfOk), ev, s, selfOk);
    }
  }

  lemma AvailableWord()
    ensures StatusName(STATUS_AVAILABLE) == Lit("available")
  {
  }

  lemma StatusAfter(c: Chat, ev: Event, s: nat, selfOk: bool)
    requires TableOk(c.slots) && ev.s < |c.slots| && s < |c.slots|
    ensures var x := Apply(c, ev, selfOk).chat.slots[s];
            StatusName(x.status)
            == if ev.s != s then StatusName(c.slots[s].status)
               else if ev.Request? && ev.req.kind == MSG_STATUS_CHANGE then WordFor(ev.req.payload)
               else if ev.Filled? || ev.Gone? then Lit("available")
               else if ev.Request? && ev.req.kind == MSG_LOGIN && Granted(c, s, ev.req, ev.env, selfOk) then
                 Lit("available")
               else StatusName(c.slots[s].status)
  {
    hide Step, Granted, StatusName, TableOk, WordFor, Leave, For;
    AvailableWord();
    match ev {
      case Request(t, req, env) => RequestStatus(c, t, req, env, s, selfOk);
      case Gone(t, now) => LossLaw(c, t, now, selfOk, 0);
      case _ => QuietLaw(c, ev, selfOk, 0);
    }
  }

  lemma RequestStatus(c: Chat, t: nat, req: Message, env: Env, s: nat, selfOk: bool)
    requires TableOk(c.slots) && t < |c.slots| && s < |c.slots|
    ensures var x := Step(c, t, req, env, selfOk).chat.slots[s];
            StatusName(x.status)
            == if t != s then StatusName(c.slots[s].status)
               else if req.kind == MSG_STATUS_CHANGE then WordFor(req.payload)
               else if req.kind == MSG_LOGIN && Granted(c, s, req, env, selfOk) then Lit("available")
               else StatusName(c.slots[s].status)
  {
    hide Granted, StatusName, TableOk, WordFor, For;
    AvailableWord();
    if req.kind == MSG_LOGIN {
      hide Step;
      LoginLaw(c, t, req, env, selfOk, 0);
    } else if req.kind == MSG_STATUS_CHANGE {
      hide Step;
      StatusLaw(c, t, req, env, selfOk, 0);
    } else {
      hide CStr, Find, Saved, UserList, ToOthers, Say, Refusal, Login;
    }
  }

  /** The list answered in a run: every logged-in user, with the status its events call for. */
  lemma ListOfRun(evs: seq<Event>, s: nat, req: Message, env: Env, selfOk: bool)
    requires Within(evs, MAX_CLIENTS) && s < MAX_CLIENTS && req.kind == MSG_LIST_USERS
    ensures var c := TableAt(evs, selfOk);
            var words := seq(MAX_CLIENTS, i requires 0 <= i < MAX_CLIENTS => WordSince(evs, i, selfOk));
            && |c.slots| == MAX_CLIENTS
            && var mine := For(Step(c, s, req, env, selfOk).outs, s);
               && |mine| == 1
               && Tells(mine[0], MSG_USER_LIST, 0, CStr(req.sender),
                        Commas(EntriesOf(c.slots, words, Actives(c.slots, MAX_CLIENTS))), env.now)
  {
    hide Run, Step, TableOk, Tells, CStr, For, StatusName, WordSince;
    var c := TableAt(evs, selfOk);
    StartOk();
    RunKeeps(Blank(), evs, selfOk);
    var words := seq(MAX_CLIENTS, i requires 0 <= i < MAX_CLIENTS => WordSince(evs, i, selfOk));
    forall i | 0 <= i < MAX_CLIENTS
      ensures words[i] == StatusName(c.slots[i].status)
    {
      StatusOfRun(evs, i, selfOk);
    }
    ListLaw(c, s, req, env, selfOk, words, s);
  }

  // ---------- the logs ----------

  /** One line of a log: when, to whom if not to all, and what. */
  function Line(to: seq<Byte>, text: seq<Byte>, stamp: seq<Byte>): seq<Byte> {
    Lit("[") + stamp + (if to == [] then Lit("] BROADCAST : ") else Lit("] -> ") + to + Lit(" : ")) + text + [NEWLINE]
  }

  /** The request is a broadcast, or a private message to somebody who is logged in, from a slot
      that is logged in. */
  predicate PassedOn(c: Chat, ev: Event) {
    && ev.Request? && ev.s < |c.slots| && c.slots[ev.s].active
    && (ev.req.kind == MSG_BROADCAST
        || (ev.req.kind == MSG_PRIVATE && Online(c.slots, CStr(ev.req.receiver), -1)))
  }

  /** The line an event adds to the log of user `u`, if it does. */
  function LineOf(c: Chat, ev: Event, u: seq<Byte>): seq<seq<Byte>> {
    if PassedOn(c, ev) && CStr(ev.req.sender) == u then
      [Line(if ev.req.kind == MSG_PRIVATE then CStr(ev.req.receiver) else [], CStr(ev.req.payload), ev.env.stamp)]
    else []
  }

  /** The lines of user `u` in a run: one for each message passed on that names `u` as its
      sender, in the order of the run. */
  function LinesOf(evs: seq<Event>, u: seq<Byte>, selfOk: bool): seq<seq<Byte>>
    requires Within(evs, MAX_CLIENTS)
  {
    if evs == [] then []
    else LinesOf(evs[..|evs| - 1], u, selfOk) + LineOf(TableAt(evs[..|evs| - 1], selfOk), evs[|evs| - 1], u)
  }

  function Text(lines: seq<seq<Byte>>): seq<Byte> {
    if lines == [] then [] else Text(lines[..|lines| - 1]) + lines[|lines| - 1]
  }

  lemma SavedLine(logs: Logs, from: seq<Byte>, to: seq<Byte>, text: seq<Byte>, stamp: seq<Byte>, u: seq<Byte>)
    ensures LogOf(Saved(logs, from, to, text, stamp), u)
         == if u == from then LogOf(logs, u) + Line(to, text, stamp) else LogOf(logs, u)
  {
    assert Record(to, text, stamp) == Line(to, text, stamp);
  }

  /** What one event does to the log of `u`. */
  lemma LogAfter(c: Chat, ev: Event, u: seq<Byte>, selfOk: bool)
    requires ev.s < |c.slots|
    ensures LogOf(Apply(c, ev, selfOk).chat.logs, u) == LogOf(c.logs, u) + Text(LineOf(c, ev, u))
  {
    hide CStr, Find, Saved, UserList, ToOthers, Say, Refusal, Login, Line, LogOf, Online, History.Reply, Text;
    TextNone();
    assert LogOf(c.logs, u) + [] == LogOf(c.logs, u);
    if ev.Request? {
      var from, to, text := CStr(ev.req.sender), CStr(ev.req.receiver), CStr(ev.req.payload);
      SavedLine(c.logs, from, [], text, ev.env.stamp, u);
      SavedLine(c.logs, from, to, text, ev.env.stamp, u);
      TextMore([], Line([], text, ev.env.stamp));
      TextMore([], Line(to, text, ev.env.stamp));
      assert [] + [Line([], text, ev.env.stamp)] == [Line([], text, ev.env.stamp)];
      assert [] + [Line(to, text, ev.env.stamp)] == [Line(to, text, ev.env.stamp)];
      FindOnline(c.slots, to);
      LoginLogs(c, ev.s, ev.req, ev.env, selfOk);
    }
  }

  lemma TextNone()
    ensures Text([]) == []
  {
  }

  lemma LoginLogs(c: Chat, s: nat, req: Message, env: Env, selfOk: bool)
    requires s < |c.slots|
    ensures Login(c, s, req, env, selfOk).chat.logs == c.logs
  {
    hide ScanLogin, CStr, Find, Say, Refusal;
  }

  /** In every run the log of each name is exactly its lines: one for each message passed on
      under that name, in order, and nothing else. */
  lemma {:induction false} LogOfRun(evs: seq<Event>, u: seq<Byte>, selfOk: bool)
    requires Within(evs, MAX_CLIENTS)
    ensures LogOf(TableAt(evs, selfOk).logs, u) == Text(LinesOf(evs, u, selfOk))
  {
    hide Apply, Run, LineOf, Text;
    TextNone();
    if evs == [] {
      RunNone(Blank(), selfOk);
    } else {
      var front, ev := evs[..|evs| - 1], evs[|evs| - 1];
      LogOfRun(front, u, selfOk);
      RunOne(Blank(), front, ev, selfOk);
      assert front + [ev] == evs;
      var c := TableAt(front, selfOk);
      LogAfter(c, ev, u, selfOk);
      OneLine(c, ev, u);
      TextConcat(LinesOf(front, u, selfOk), LineOf(c, ev, u));
    }
  }

  lemma TextConcat(lines: seq<seq<Byte>>, more: seq<seq<Byte>>)
    requires |more| <= 1
    ensures Text(lines + more) == Text(lines) + Text(more)
  {
    hide Text;
    TextNone();
    if more == [] {
      assert lines + more == lines && Text(lines) + [] == Text(lines);
    } else {
      assert more == [] + [more[0]] == [more[0]];
      TextMore(lines, more[0]);
      TextMore([], more[0]);
      assert Text([]) + more[0] == more[0];
    }
  }

  lemma TextMore(lines: seq<seq<Byte>>, line: seq<Byte>)
    ensures Text(lines + [line]) == Text(lines) + line
  {
    assert (lines + [line])[..|lines|] == lines;
  }

  // ---------- HISTORY_REQ ----------

  /** The pieces of a log that `fgets` with room for 255 bytes delivers. */
  predicate Pieces(log: seq<Byte>, pieces: seq<seq<Byte>>) {
    && Flatten(pieces) == log
    && forall k :: 0 <= k < |pieces| ==> Piece(pieces[k], k == |pieces| - 1)
  }

  /** A piece ends with its first newline, or after 255 bytes, or with the log. */
  predicate Piece(p: seq<Byte>, last: bool) {
    && 0 < |p| <= 255
    && NEWLINE !in p[..|p| - 1]
    && (p[|p| - 1] == NEWLINE || |p| == 255 || last)
  }

  lemma {:induction false} ChunkIs(s: seq<Byte>, limit: nat)
    requires s != [] && limit > 0
    ensures var n := ChunkLen(s, limit);
            && 0 < n <= limit && n <= |s|
            && NEWLINE !in s[..n - 1]
            && (s[n - 1] == NEWLINE || n == limit || n == |s|)
  {
    if s[0] != NEWLINE && limit > 1 && |s| > 1 {
      ChunkIs(s[1..], limit - 1);
      var n := ChunkLen(s, limit);
      assert s[..n - 1] == [s[0]] + s[1..][..n - 2];
    }
  }

  lemma {:induction false} ChunksArePieces(s: seq<Byte>)
    ensures Pieces(s, Chunks(s))
    decreases |s|
  {
    FlattenChunks(s);
    if s != [] {
      var n := ChunkLen(s, LINE_SIZE - 1);
      ChunkIs(s, LINE_SIZE - 1);
      ChunksArePieces(s[n..]);
      var cs, rest := Chunks(s), Chunks(s[n..]);
      assert cs == [s[..n]] + rest && s[..n][..n - 1] == s[..n - 1];
      forall k | 0 <= k < |cs|
        ensures Piece(cs[k], k == |cs| - 1)
      {
        if k > 0 {
          assert cs[k] == rest[k - 1];
        }
      }
    }
  }

  /** What HISTORY_REQ makes of a log: as many whole pieces from its beginning as have fewer than
      1023 bytes together, or "No history." if that is none. */
  ghost predicate Excerpted(log: seq<Byte>, answer: seq<Byte>) {
    exists pieces, k ::
      && Pieces(log, pieces) && 0 <= k <= |pieces|
      && |Flatten(pieces[..k])| < 1023
      && (k < |pieces| ==> |Flatten(pieces[..k])| + |pieces[k]| >= 1023)
      && answer == if k == 0 then Lit("No history.") else Flatten(pieces[..k])
  }

  lemma ReplyIsExcerpted(log: seq<Byte>)
    ensures Excerpted(log, History.Reply(log))
    ensures |History.Reply(log)| <= 1022
    ensures NoNul(log) ==> NoNul(History.Reply(log))
  {
    hide Piece, Chunks, Kept;
    var pieces := Chunks(log);
    ChunksArePieces(log);
    var k := KeptGreedy(pieces, MAX_PAYLOAD_LEN - 1);
    LitText("No history.");
    FlattenFront(pieces, k);
    if k > 0 {
      PieceThere(pieces, k);
    }
  }

  lemma {:induction false} FlattenFront(cs: seq<seq<Byte>>, k: nat)
    requires k <= |cs|
    ensures Flatten(cs[..k]) <= Flatten(cs)
  {
    if k > 0 {
      FlattenFront(cs[1..], k - 1);
      assert cs[..k][1..] == cs[1..][..k - 1];
    }
  }

  lemma PieceThere(cs: seq<seq<Byte>>, k: nat)
    requires 0 < k <= |cs| && Piece(cs[0], 0 == |cs| - 1)
    ensures Flatten(cs[..k]) != []
  {
    assert cs[..k][0] == cs[0];
  }

  lemma {:induction false} LinesClean(evs: seq<Event>, u: seq<Byte>, selfOk: bool)
    requires Within(evs, MAX_CLIENTS)
    requires forall k :: 0 <= k < |evs| && evs[k].Request? ==> NoNul(evs[k].env.stamp)
    ensures NoNul(Text(LinesOf(evs, u, selfOk)))
  {
    hide LineOf, Run, Text;
    TextNone();
    if evs != [] {
      var front, ev := evs[..|evs| - 1], evs[|evs| - 1];
      LinesClean(front, u, selfOk);
      var c := TableAt(front, selfOk);
      assert evs[|evs| - 1].Request? ==> NoNul(ev.env.stamp);
      OneClean(c, ev, u);
      OneLine(c, ev, u);
      TextConcat(LinesOf(front, u, selfOk), LineOf(c, ev, u));
    }
  }

  lemma OneLine(c: Chat, ev: Event, u: seq<Byte>)
    ensures |LineOf(c, ev, u)| <= 1
  {
    hide PassedOn;
  }

  lemma OneClean(c: Chat, ev: Event, u: seq<Byte>)
    requires ev.Request? ==> NoNul(ev.env.stamp)
    ensures NoNul(Text(LineOf(c, ev, u)))
  {
    hide PassedOn, CStr, Line, Text;
    TextNone();
    OnlyRequests(c, ev);
    if ev.Request? {
      CStrClean(ev.req.receiver);
      CStrClean(ev.req.payload);
      var to := if ev.req.kind == MSG_PRIVATE then CStr(ev.req.receiver) else [];
      var line := Line(to, CStr(ev.req.payload), ev.env.stamp);
      LineClean(to, CStr(ev.req.payload), ev.env.stamp);
      TextMore([], line);
      assert [] + [line] == [line];
    }
  }

  lemma OnlyRequests(c: Chat, ev: Event)
    ensures PassedOn(c, ev) ==> ev.Request?
  {
  }

  lemma LineClean(to: seq<Byte>, text: seq<Byte>, stamp: seq<Byte>)
    requires NoNul(to) && NoNul(text) && NoNul(stamp)
    ensures NoNul(Line(to, text, stamp))
  {
    LitText("[");
    LitText("] BROADCAST : ");
    LitText("] -> ");
    LitText(" : ");
  }

  /** The answer to HISTORY_REQ in a run, to the asker alone: the excerpt of the lines of the
      name it gives as its sender. (A formatted time contains no NUL.) */
  lemma HistoryOfRun(evs: seq<Event>, s: nat, req: Message, env: Env, selfOk: bool, i: nat)
    requires Within(evs, MAX_CLIENTS) && s < MAX_CLIENTS && req.kind == MSG_HISTORY_REQ
    requires forall k :: 0 <= k < |evs| && evs[k].Request? ==> NoNul(evs[k].env.stamp)
    ensures var c := TableAt(evs, selfOk);
            && |c.slots| == MAX_CLIENTS
            && var e := Step(c, s, req, env, selfOk);
               var share := For(e.outs, i);
               && e.chat == c
               && if i == s then
                    && |share| == 1
                    && Tells(share[0], MSG_HISTORY_RESP, 0, CStr(req.sender), CStr(share[0].payload), env.now)
                    && Excerpted(Text(LinesOf(evs, CStr(req.sender), selfOk)), CStr(share[0].payload))
                  else share == []
  {
    hide Run, CStr, For, Tells, Say, LinesOf, Excerpted, History.Reply, LogOf;
    var c, from := TableAt(evs, selfOk), CStr(req.sender);
    var log := Text(LinesOf(evs, from, selfOk));
    LogOfRun(evs, from, selfOk);
    LinesClean(evs, from, selfOk);
    ReplyIsExcerpted(log);
    CStrClean(req.sender);
    SayTells(MSG_HISTORY_RESP, from, History.Reply(log), env.now);
    ForOne(s, Say(MSG_HISTORY_RESP, from, History.Reply(log), env.now), i);
    TellsText(Say(MSG_HISTORY_RESP, from, History.Reply(log), env.now), MSG_HISTORY_RESP, 0, from,
              History.Reply(log), env.now);
  }

  lemma TellsText(m: Message, kind: nat, status: int, to: seq<Byte>, text: seq<Byte>, now: Time)
    requires Tells(m, kind, status, to, text, now)
    ensures CStr(m.payload) == text
  {
  }
}
