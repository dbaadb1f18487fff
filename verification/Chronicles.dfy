/** What a run of the service gives every session: which requests it acted on, and which
    messages its slot was handed, each tagged with the number of the event it belongs to. */
module Chronicles {
  import opened Bytes
  import opened Codec
  import opened Framing
  import opened ChatSpec
  import opened Delivery

  /** A session: its requests, and the messages handed to it. */
  datatype Life = Life(requests: seq<Message>, handed: seq<Tagged>)

  /** A session that has ended, and the slot it had. */
  datatype Finished = Finished(slot: nat, life: Life)

  /** The service after a run, the present session of every slot, and those that have ended. */
  datatype Chronicle = Chronicle(chat: Chat, lives: seq<Life>, over: seq<Finished>)

  function New(): Life {
    Life([], [])
  }

  predicate Begins(ev: Event, i: nat) {
    (ev.Filled? || ev.Joined?) && ev.s == i
  }

  /** The session of slot `i` after event number `k`, which puts out `outs`. */
  function LifeAfter(l: Life, ev: Event, outs: seq<Out>, k: nat, i: nat): Life {
    if Begins(ev, i) then New()
    else Life(if ev.Request? && ev.s == i then l.requests + [ev.req] else l.requests, l.handed + Tag(k, For(outs, i)))
  }

  lemma LifeQuiet(l: Life, ev: Event, k: nat, i: nat)
    requires !Begins(ev, i) && !ev.Request?
    ensures LifeAfter(l, ev, [], k, i) == l
  {
    ForNone(i);
    assert Tag(k, []) == [];
  }

  predicate Full(x: Chronicle) {
    |x.lives| == |x.chat.slots| == MAX_CLIENTS
  }

  function Told(x: Chronicle, ev: Event, k: nat, selfOk: bool): (y: Chronicle)
    requires Full(x) && ev.s < MAX_CLIENTS
    ensures Full(y)
  {
    var e := Apply(x.chat, ev, selfOk);
    Chronicle(e.chat,
              seq(MAX_CLIENTS, i requires 0 <= i < MAX_CLIENTS => LifeAfter(x.lives[i], ev, e.outs, k, i)),
              if ev.Gone? then x.over + [Finished(ev.s, x.lives[ev.s])] else x.over)
  }

  /** The chronicle of a run that starts with an empty table. */
  function Chronicled(evs: seq<Event>, selfOk: bool): (x: Chronicle)
    requires Within(evs, MAX_CLIENTS)
    ensures Full(x)
  {
    hide Told;
    if evs == [] then Chronicle(Blank(), seq(MAX_CLIENTS, _ => New()), [])
    else Told(Chronicled(evs[..|evs| - 1], selfOk), evs[|evs| - 1], |evs|, selfOk)
  }

  lemma ChronicledOne(evs: seq<Event>, ev: Event, selfOk: bool)
    requires Within(evs, MAX_CLIENTS) && ev.s < MAX_CLIENTS
    ensures Within(evs + [ev], MAX_CLIENTS)
    ensures Chronicled(evs + [ev], selfOk) == Told(Chronicled(evs, selfOk), ev, |evs| + 1, selfOk)
  {
    hide Told;
    assert (evs + [ev])[..|evs|] == evs;
  }

  /** The chronicle's table and logs are those of the run. */
  lemma {:induction false} ChronicleIsRun(evs: seq<Event>, selfOk: bool)
    requires Within(evs, MAX_CLIENTS)
    ensures Chronicled(evs, selfOk).chat == Run(Blank(), evs, selfOk).chat
  {
    hide Apply;
    if evs != [] {
      ChronicleIsRun(evs[..|evs| - 1], selfOk);
    }
  }

  // ---------- a session is a stretch of the run ----------

  /** Where the present session of slot `i` began: just after the last event that begins one. */
  function Since(evs: seq<Event>, i: nat): (b: nat)
    ensures b <= |evs|
  {
    if evs == [] then 0
    else if Begins(evs[|evs| - 1], i) then |evs|
    else Since(evs[..|evs| - 1], i)
  }

  /** The requests of slot `i`. */
  function RequestsOf(evs: seq<Event>, i: nat): seq<Message> {
    if evs == [] then []
    else
      var n := |evs| - 1;
      RequestsOf(evs[..n], i) + if evs[n].Request? && evs[n].s == i then [evs[n].req] else []
  }

  /** What a session has been handed is what the run has put out for its slot since it began;
      its requests are those of its slot since then. */
  lemma {:induction false} LifeIsRun(evs: seq<Event>, i: nat, selfOk: bool)
    requires Within(evs, MAX_CLIENTS) && i < MAX_CLIENTS
    ensures var b := Since(evs, i);
            var l := Chronicled(evs, selfOk).lives[i];
            && Within(evs[..b], MAX_CLIENTS) && Within(evs[b..], MAX_CLIENTS)
            && Msgs(l.handed) == For(Run(Run(Blank(), evs[..b], selfOk).chat, evs[b..], selfOk).outs, i)
            && l.requests == RequestsOf(evs[b..], i)
  {
    hide Apply, For, Tag, Msgs, Run, Chronicled, Told, RequestsOf;
    var b := Since(evs, i);
    var c := Run(Blank(), evs[..b], selfOk).chat;
    NothingTold();
    if b == |evs| {
      RunNone(c, selfOk);
      ForNone(i);
      assert evs[b..] == [];
      BeginsNew(evs, i, selfOk);
    } else {
      var front, ev := evs[..|evs| - 1], evs[|evs| - 1];
      LifeIsRun(front, i, selfOk);
      assert front[..b] == evs[..b] && front == evs[..b] + front[b..] && evs == front + [ev];
      assert evs[b..] == front[b..] + [ev];
      RunOne(c, front[b..], ev, selfOk);
      ChronicleIsRun(front, selfOk);
      RunConcat(Blank(), evs[..b], front[b..], selfOk);
      ChronicledOne(front, ev, selfOk);
      var x := Chronicled(front, selfOk);
      ToldLife(x, ev, |evs|, selfOk, i);
      var outs := Apply(x.chat, ev, selfOk).outs;
      ForConcat(Run(c, front[b..], selfOk).outs, outs, i);
      MsgsTag(x.lives[i].handed, |evs|, For(outs, i));
      RequestsOfMore(front[b..], ev, i);
    }
  }

  lemma ToldLife(x: Chronicle, ev: Event, k: nat, selfOk: bool, i: nat)
    requires Full(x) && ev.s < MAX_CLIENTS && i < MAX_CLIENTS
    ensures Told(x, ev, k, selfOk).lives[i] == LifeAfter(x.lives[i], ev, Apply(x.chat, ev, selfOk).outs, k, i)
  {
    hide Apply, LifeAfter;
  }

  lemma RequestsOfMore(evs: seq<Event>, ev: Event, i: nat)
    ensures var r := RequestsOf(evs, i);
            RequestsOf(evs + [ev], i) == if ev.Request? && ev.s == i then r + [ev.req] else r
  {
    assert (evs + [ev])[..|evs|] == evs;
  }

  lemma BeginsNew(evs: seq<Event>, i: nat, selfOk: bool)
    requires Within(evs, MAX_CLIENTS) && i < MAX_CLIENTS && Since(evs, i) == |evs|
    ensures Chronicled(evs, selfOk).lives[i] == New()
  {
    hide Apply;
  }

  lemma NothingTold()
    ensures Msgs([]) == []
    ensures forall i :: RequestsOf([], i) == []
  {
  }

  /** Requests and messages of slot `i` since the last event that began a session there. */
  ghost predicate OfRun(evs: seq<Event>, i: nat, requests: seq<Message>, handed: seq<Tagged>, selfOk: bool)
    requires Within(evs, MAX_CLIENTS)
  {
    var b := Since(evs, i);
    && Within(evs[..b], MAX_CLIENTS) && Within(evs[b..], MAX_CLIENTS)
    && Msgs(handed) == For(Run(Run(Blank(), evs[..b], selfOk).chat, evs[b..], selfOk).outs, i)
    && requests == RequestsOf(evs[b..], i)
  }

  lemma OfRunIs(evs: seq<Event>, s: nat, requests: seq<Message>, handed: seq<Tagged>, selfOk: bool)
    requires Within(evs, MAX_CLIENTS) && s < MAX_CLIENTS
    requires Life(requests, handed) == Chronicled(evs, selfOk).lives[s]
    ensures OfRun(evs, s, requests, handed, selfOk)
  {
    hide Run, For, Msgs, Chronicled, RequestsOf;
    LifeIsRun(evs, s, selfOk);
  }

  /** An ended session is what the present session of its slot was when it ended. */
  lemma {:induction false} FinishedWas(evs: seq<Event>, k: nat, selfOk: bool) returns (n: nat)
    requires Within(evs, MAX_CLIENTS) && k < |Chronicled(evs, selfOk).over|
    ensures n < |evs| && evs[n].Gone? && Within(evs[..n], MAX_CLIENTS)
    ensures Chronicled(evs, selfOk).over[k] == Finished(evs[n].s, Chronicled(evs[..n], selfOk).lives[evs[n].s])
  {
    hide Apply, LifeAfter;
    var m := |evs| - 1;
    var x := Chronicled(evs[..m], selfOk);
    if k < |x.over| {
      n := FinishedWas(evs[..m], k, selfOk);
      assert evs[..m][..n] == evs[..n];
    } else {
      n := m;
    }
  }

  // ---------- tags are events ----------

  /** What event number `k` of a run puts out. */
  function OutsOf(evs: seq<Event>, k: nat, selfOk: bool): seq<Out>
    requires Within(evs, MAX_CLIENTS) && 0 < k <= |evs|
  {
    Apply(Run(Blank(), evs[..k - 1], selfOk).chat, evs[k - 1], selfOk).outs
  }

  /** The message of `t` is one that the event numbered by its tag puts out for slot `i`. */
  predicate PutOut(evs: seq<Event>, i: nat, t: Tagged, selfOk: bool)
    requires Within(evs, MAX_CLIENTS)
  {
    0 < t.step <= |evs| && t.msg in For(OutsOf(evs, t.step, selfOk), i)
  }

  lemma PutOutLater(evs: seq<Event>, ev: Event, i: nat, t: Tagged, selfOk: bool)
    requires Within(evs, MAX_CLIENTS) && ev.s < MAX_CLIENTS && PutOut(evs, i, t, selfOk)
    ensures Within(evs + [ev], MAX_CLIENTS) && PutOut(evs + [ev], i, t, selfOk)
  {
    hide Run, Apply, For;
    assert (evs + [ev])[..t.step - 1] == evs[..t.step - 1];
  }

  /** Every message handed to a session, present or ended, is one that the event numbered by
      its tag puts out for the session's slot. */
  predicate AllPutOut(x: Chronicle, evs: seq<Event>, selfOk: bool)
    requires Within(evs, MAX_CLIENTS)
  {
    && (forall i, t :: 0 <= i < |x.lives| && t in x.lives[i].handed ==> PutOut(evs, i, t, selfOk))
    && (forall k, t :: 0 <= k < |x.over| && t in x.over[k].life.handed ==> PutOut(evs, x.over[k].slot, t, selfOk))
  }

  lemma {:induction false} TagIsEvent(evs: seq<Event>, selfOk: bool)
    requires Within(evs, MAX_CLIENTS)
    ensures AllPutOut(Chronicled(evs, selfOk), evs, selfOk)
  {
    hide PutOut, Told;
    if evs != [] {
      var front := evs[..|evs| - 1];
      assert evs == front + [evs[|front|]];
      TagIsEvent(front, selfOk);
      ToldPutOut(front, evs[|front|], selfOk);
    }
  }

  lemma ToldPutOut(front: seq<Event>, ev: Event, selfOk: bool)
    requires Within(front, MAX_CLIENTS) && ev.s < MAX_CLIENTS && AllPutOut(Chronicled(front, selfOk), front, selfOk)
    ensures Within(front + [ev], MAX_CLIENTS)
    ensures AllPutOut(Told(Chronicled(front, selfOk), ev, |front| + 1, selfOk), front + [ev], selfOk)
  {
    hide PutOut, Apply, For, LifeAfter, Chronicled;
    var x, evs := Chronicled(front, selfOk), front + [ev];
    var outs := Apply(x.chat, ev, selfOk).outs;
    forall i, t | 0 <= i < MAX_CLIENTS && t in LifeAfter(x.lives[i], ev, outs, |evs|, i).handed
      ensures PutOut(evs, i, t, selfOk)
    {
      TagOne(front, ev, i, t, selfOk);
    }
    forall i, t | 0 <= i < MAX_CLIENTS && t in x.lives[i].handed
      ensures PutOut(evs, i, t, selfOk)
    {
      PutOutLater(front, ev, i, t, selfOk);
    }
    forall k, t | 0 <= k < |x.over| && t in x.over[k].life.handed
      ensures PutOut(evs, x.over[k].slot, t, selfOk)
    {
      PutOutLater(front, ev, x.over[k].slot, t, selfOk);
    }
  }

  lemma TagOne(front: seq<Event>, ev: Event, i: nat, t: Tagged, selfOk: bool)
    requires Within(front, MAX_CLIENTS) && ev.s < MAX_CLIENTS && i < MAX_CLIENTS
    requires var x := Chronicled(front, selfOk);
             && (t in x.lives[i].handed ==> PutOut(front, i, t, selfOk))
             && t in LifeAfter(x.lives[i], ev, Apply(x.chat, ev, selfOk).outs, |front| + 1, i).handed
    ensures Within(front + [ev], MAX_CLIENTS) && PutOut(front + [ev], i, t, selfOk)
  {
    hide Apply, For, Run, Chronicled;
    var x, evs := Chronicled(front, selfOk), front + [ev];
    if t in x.lives[i].handed {
      PutOutLater(front, ev, i, t, selfOk);
    } else {
      var outs := Apply(x.chat, ev, selfOk).outs;
      assert t in Tag(|front| + 1, For(outs, i));
      ChronicleIsRun(front, selfOk);
      assert evs[..t.step - 1] == front;
    }
  }

  // ---------- order ----------

  lemma InOrderTag(ts: seq<Tagged>, now: nat, later: nat, ms: seq<Message>)
    requires InOrder(ts, now) && now <= later
    ensures InOrder(ts + Tag(later, ms), later)
  {
  }

  /** Every session, present or ended, was handed its messages in the order of the events. */
  predicate AllInOrder(x: Chronicle, now: nat) {
    && (forall i :: 0 <= i < |x.lives| ==> InOrder(x.lives[i].handed, now))
    && (forall k :: 0 <= k < |x.over| ==> InOrder(x.over[k].life.handed, now))
  }

  lemma {:induction false} LivesInOrder(evs: seq<Event>, selfOk: bool)
    requires Within(evs, MAX_CLIENTS)
    ensures AllInOrder(Chronicled(evs, selfOk), |evs|)
  {
    hide InOrder, Told;
    InOrderNone(|evs|);
    if evs != [] {
      var n := |evs| - 1;
      LivesInOrder(evs[..n], selfOk);
      ToldInOrder(Chronicled(evs[..n], selfOk), evs[n], n, selfOk);
    }
  }

  lemma ToldInOrder(x: Chronicle, ev: Event, n: nat, selfOk: bool)
    requires Full(x) && ev.s < MAX_CLIENTS && AllInOrder(x, n)
    ensures AllInOrder(Told(x, ev, n + 1, selfOk), n + 1)
  {
    hide InOrder, Apply, For, Tag;
    InOrderNone(n + 1);
    forall i | 0 <= i < MAX_CLIENTS
      ensures InOrder(x.lives[i].handed, n + 1)
      ensures InOrder(LifeAfter(x.lives[i], ev, Apply(x.chat, ev, selfOk).outs, n + 1, i).handed, n + 1)
    {
      InOrderLater(x.lives[i].handed, n);
      InOrderTag(x.lives[i].handed, n, n + 1, For(Apply(x.chat, ev, selfOk).outs, i));
    }
    forall k | 0 <= k < |x.over|
      ensures InOrder(x.over[k].life.handed, n + 1)
    {
      InOrderLater(x.over[k].life.handed, n);
    }
  }

  lemma InOrderNone(now: nat)
    ensures InOrder([], now)
  {
  }

  // ---------- replies ----------

  /** Requests and messages handed over: the replies are one for each request, in order. */
  predicate Paired(requests: seq<Message>, handed: seq<Tagged>) {
    var r := Replies(Msgs(handed));
    |r| == |requests| && forall k :: 0 <= k < |r| ==> Answers(requests[k], r[k])
  }

  /** The requests that are answered: all but LOGOUT. */
  function Answered(requests: seq<Message>): seq<Message> {
    if requests == [] then []
    else
      var n := |requests| - 1;
      Answered(requests[..n]) + if requests[n].kind == MSG_LOGOUT then [] else [requests[n]]
  }

  lemma AnsweredAppend(requests: seq<Message>, req: Message)
    ensures Answered(requests + [req]) == Answered(requests) + if req.kind == MSG_LOGOUT then [] else [req]
  {
    assert (requests + [req])[..|requests|] == requests;
  }

  lemma {:induction false} AllAnswered(requests: seq<Message>)
    requires NoLogout(requests)
    ensures Answered(requests) == requests
  {
    if requests != [] {
      var n := |requests| - 1;
      AllAnswered(requests[..n]);
      assert requests == requests[..n] + [requests[n]];
    }
  }

  /** A step pairs its reply with its request, and upsets nobody else's pairing. */
  lemma PairedAfter(c: Chat, s: nat, req: Message, env: Env, selfOk: bool, i: nat, requests: seq<Message>,
                    h: seq<Tagged>, step: nat)
    requires s < |c.slots| && Paired(requests, h)
    ensures var h' := h + Tag(step, For(Step(c, s, req, env, selfOk).outs, i));
            Paired(if i == s && req.kind != MSG_LOGOUT then requests + [req] else requests, h')
  {
    hide Step, For, Tag, Msgs, Answers, Replies;
    var ms := For(Step(c, s, req, env, selfOk).outs, i);
    StepReplies(c, s, req, env, selfOk, i);
    MsgsTag(h, step, ms);
    RepliesConcat(Msgs(h), ms);
    assert Replies(Msgs(h)) + [] == Replies(Msgs(h));
  }

  /** Messages that are not replies leave every pairing alone. */
  lemma PairedQuiet(outs: seq<Out>, i: nat, requests: seq<Message>, h: seq<Tagged>, step: nat)
    requires Paired(requests, h)
    requires forall k :: 0 <= k < |outs| ==> !IsReply(outs[k].msg)
    ensures Paired(requests, h + Tag(step, For(outs, i)))
  {
    hide For, Tag, Msgs, Answers, Replies;
    NoReplies(outs, i);
    MsgsTag(h, step, For(outs, i));
    RepliesConcat(Msgs(h), For(outs, i));
    assert Replies(Msgs(h)) + [] == Replies(Msgs(h));
  }

  lemma LeaveQuiet(c: Chat, s: nat, now: Time)
    requires s < |c.slots|
    ensures var outs := Leave(c, s, now).outs;
            forall k :: 0 <= k < |outs| ==> !IsReply(outs[k].msg)
  {
    hide Say;
    SayKind(MSG_BROADCAST, [], c.slots[s].name + Lit(" disconnected"), now);
    ToOthersMsgs(c.slots, s, Left(c.slots[s].name, " disconnected", now), |c.slots|);
  }

  lemma SayKind(kind: nat, receiver: seq<Byte>, text: seq<Byte>, now: Time)
    ensures Say(kind, receiver, text, now).kind == kind
  {
  }

  lemma NewPaired()
    ensures Paired(Answered(New().requests), New().handed)
  {
    assert Msgs([]) == [];
  }

  /** Every session, present or ended, has been handed one reply for each of its requests but
      LOGOUT, in order, and no other. */
  predicate AllPaired(x: Chronicle) {
    && (forall i :: 0 <= i < |x.lives| ==> Paired(Answered(x.lives[i].requests), x.lives[i].handed))
    && (forall k :: 0 <= k < |x.over| ==> Paired(Answered(x.over[k].life.requests), x.over[k].life.handed))
  }

  lemma {:induction false} LivesPaired(evs: seq<Event>, selfOk: bool)
    requires Within(evs, MAX_CLIENTS)
    ensures AllPaired(Chronicled(evs, selfOk))
  {
    hide Paired, Answered, Told;
    NewPaired();
    if evs != [] {
      var n := |evs| - 1;
      LivesPaired(evs[..n], selfOk);
      ToldPaired(Chronicled(evs[..n], selfOk), evs[n], |evs|, selfOk);
    }
  }

  lemma ToldPaired(x: Chronicle, ev: Event, k: nat, selfOk: bool)
    requires Full(x) && ev.s < MAX_CLIENTS && AllPaired(x)
    ensures AllPaired(Told(x, ev, k, selfOk))
  {
    hide Paired, Answered, Apply, LifeAfter;
    forall i | 0 <= i < MAX_CLIENTS
      ensures var l := LifeAfter(x.lives[i], ev, Apply(x.chat, ev, selfOk).outs, k, i);
              Paired(Answered(l.requests), l.handed)
    {
      LifePaired(x.chat, x.lives[i], ev, k, i, selfOk);
    }
  }

  lemma LifePaired(c: Chat, l: Life, ev: Event, k: nat, i: nat, selfOk: bool)
    requires ev.s < |c.slots| && Paired(Answered(l.requests), l.handed)
    ensures var l2 := LifeAfter(l, ev, Apply(c, ev, selfOk).outs, k, i);
            Paired(Answered(l2.requests), l2.handed)
  {
    hide Paired, Answered, Step, Leave, For, Tag;
    NewPaired();
    assert l.requests + [] == l.requests;
    match ev {
      case Request(s, req, env) =>
        PairedAfter(c, s, req, env, selfOk, i, Answered(l.requests), l.handed, k);
        AnsweredAppend(l.requests, req);
        assert Answered(l.requests) + [] == Answered(l.requests);
      case Gone(s, now) =>
        LeaveQuiet(c, s, now);
        PairedQuiet(Leave(c, s, now).outs, i, Answered(l.requests), l.handed, k);
      case _ =>
        PairedQuiet([], i, Answered(l.requests), l.handed, k);
    }
  }
}
