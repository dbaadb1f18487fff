/** Credential strings from the client's prompt to the verdict of the discovery server. */
module Credentials {
  import opened Bytes
  import opened Codec
  import opened Scanf
  import ChatSpec
  import Discovery

  /** What arrives of a message sent over a connection. */
  function Arrived(m: Message): Message {
    PackUnpack(m);
    Unpack(Pack(m)).value
  }

  /** `register_with_discovery`. */
  function RegisterRequest(u: seq<Byte>, p: seq<Byte>, port: int, now: Time): Message {
    MakeMessage(MSG_REGISTER, u, Lit("discovery"), PrintRegister(u, p, port), now)
  }

  /** `login_to_chat`. */
  function LoginRequest(u: seq<Byte>, p: seq<Byte>, now: Time): Message {
    MakeMessage(MSG_LOGIN, u, [], PrintLogin(u, p), now)
  }

  /** The chat server's question in `validate`. */
  function ValidateRequest(u: seq<Byte>, p: seq<Byte>, now: Time): Message {
    MakeMessage(MSG_VALIDATE, u, Lit("discovery"), PrintLogin(u, p), now)
  }

  /** `validate` with a discovery server configured and reachable: the question is put by the
      clock of one server and answered by the clock of the other. */
  predicate Accepted(known: Discovery.Users, u: seq<Byte>, p: seq<Byte>, asked: Time, answered: Time) {
    Arrived(Discovery.Response(known, Arrived(ValidateRequest(u, p, asked)), answered)).status == 0
  }

  /** Names of 1 to 31 characters without ':' or NUL. */
  predicate UserTyped(u: seq<Byte>) {
    UserOk(u) && NoNul(u)
  }

  /** Passwords of 1 to 63 characters without ':', white space or NUL. */
  predicate PassTyped(p: seq<Byte>) {
    RegisterPassOk(p) && LoginPassOk(p) && NoNul(p)
  }

  lemma ArrivedMade(kind: nat, sender: seq<Byte>, receiver: seq<Byte>, text: seq<Byte>, now: Time, status: Byte)
    requires kind < 256
    ensures var m: Message := MakeMessage(kind, sender, receiver, text, now).(status := status);
            Arrived(m) == m
  {
    hide Pack, MakeMessage, Unpack;
    MadeMessageSurvives(kind, sender, receiver, text, now, status);
  }

  lemma PrintIntShort(n: nat)
    requires n < 0x1_0000_0000
    ensures NoNul(PrintNat(n)) && |PrintNat(n)| <= 10
  {
    assert Pow10(3) == 1000;
    assert Pow10(6) == 1000 * Pow10(3);
    assert Pow10(9) == 1000 * Pow10(6);
    PrintNatSize(n, 10);
  }

  lemma {:induction false} PrintNatSize(n: nat, k: nat)
    requires k > 0 && n < Pow10(k)
    ensures NoNul(PrintNat(n)) && |PrintNat(n)| <= k
  {
    if n >= 10 {
      PrintNatSize(n / 10, k - 1);
    }
  }

  function Pow10(k: nat): nat {
    if k == 0 then 1 else 10 * Pow10(k - 1)
  }

  /** What the discovery server reads in a registration typed by a client. */
  lemma RegistrationRead(u: seq<Byte>, p: seq<Byte>, port: int, now: Time)
    requires UserTyped(u) && RegisterPassOk(p) && NoNul(p) && -0x8000_0000 <= port < 0x8000_0000
    ensures var m := Arrived(RegisterRequest(u, p, port, now));
            m.kind == MSG_REGISTER && ScanRegister(CStr(m.payload)) == Scan(3, u, p, port)
  {
    hide MakeMessage, ScanRegister, Arrived, CStr, PrintNat;
    var m := RegisterRequest(u, p, port, now);
    var text := PrintRegister(u, p, port);
    ArrivedMade(MSG_REGISTER, u, Lit("discovery"), text, now, 0);
    MadeFields(MSG_REGISTER, u, Lit("discovery"), text, now);
    PrintIntShort(if port < 0 then -port else port);
    RegisterRoundTrip(u, p, port);
    PayloadText(MSG_REGISTER, u, Lit("discovery"), text, now);
  }

  lemma MadeFields(kind: nat, sender: seq<Byte>, receiver: seq<Byte>, text: seq<Byte>, now: Time)
    ensures var m := MakeMessage(kind, sender, receiver, text, now);
            m.kind == kind && m.status == 0 && m == m.(status := 0)
  {
  }

  /** What a server reads in a login or validation string printed from `u` and `p`. */
  lemma LoginRead(kind: nat, receiver: seq<Byte>, u: seq<Byte>, p: seq<Byte>, now: Time)
    requires kind < 256
    requires UserTyped(u) && LoginPassOk(p) && NoNul(p)
    ensures var m := Arrived(MakeMessage(kind, u, receiver, PrintLogin(u, p), now));
            && m.kind == kind
            && NoNul(CStr(m.payload))
            && ScanLogin(CStr(m.payload)) == Scan(2, u, p, 0)
  {
    hide MakeMessage, ScanLogin, Arrived, CStr;
    ArrivedMade(kind, u, receiver, PrintLogin(u, p), now, 0);
    MadeFields(kind, u, receiver, PrintLogin(u, p), now);
    LoginRoundTrip(u, p);
    PayloadText(kind, u, receiver, PrintLogin(u, p), now);
  }

  /** The verdict of `validate` is the registry's entry for the name, whatever the clocks say. */
  lemma AcceptedIff(known: Discovery.Users, u: seq<Byte>, p: seq<Byte>, asked: Time, answered: Time)
    requires UserTyped(u) && LoginPassOk(p) && NoNul(p)
    ensures Accepted(known, u, p, asked, answered) <==> u in known && known[u].password == p
  {
    hide MakeMessage, ScanLogin, Arrived, CStr;
    LoginRead(MSG_VALIDATE, Lit("discovery"), u, p, asked);
    var req := Arrived(ValidateRequest(u, p, asked));
    ArrivedMade(MSG_ACK, Lit("discovery"), CStr(req.sender), Lit("Valid"), answered, 0);
    ArrivedMade(MSG_ERROR, Lit("discovery"), CStr(req.sender), Lit("Invalid credentials"), answered, 1);
    MadeFields(MSG_ACK, Lit("discovery"), CStr(req.sender), Lit("Valid"), answered);
  }

  /** A request to the discovery server and the address it comes from. */
  datatype Visit = Visit(req: Message, ip: seq<Byte>)

  /** The registry after a list of requests. */
  function AfterAll(known: Discovery.Users, visits: seq<Visit>): Discovery.Users {
    if visits == [] then known
    else
      var n := |visits| - 1;
      Discovery.After(AfterAll(known, visits[..n]), visits[n].req, visits[n].ip)
  }

  predicate Reregisters(req: Message, u: seq<Byte>) {
    req.kind == MSG_REGISTER && ScanRegister(CStr(req.payload)).count == 3 && ScanRegister(CStr(req.payload)).user == u
  }

  lemma {:induction false} EntryStays(known: Discovery.Users, visits: seq<Visit>, u: seq<Byte>)
    requires u in known
    requires forall i :: 0 <= i < |visits| ==> !Reregisters(visits[i].req, u)
    ensures var d := AfterAll(known, visits);
            u in d && d[u] == known[u]
  {
    hide ScanRegister, CStr;
    if visits != [] {
      EntryStays(known, visits[..|visits| - 1], u);
      assert !Reregisters(visits[|visits| - 1].req, u);
    }
  }

  /** A registration: what was typed, the port announced, the address it came from, and the
      clocks when it was sent and when it was answered. */
  datatype Registration = Registration(
    user: seq<Byte>, pass: seq<Byte>, port: int, ip: seq<Byte>, sent: Time, answered: Time)

  function Sent(r: Registration): Message {
    Arrived(RegisterRequest(r.user, r.pass, r.port, r.sent))
  }

  /** The client was told that it is registered. */
  predicate Succeeded(known: Discovery.Users, r: Registration) {
    && UserTyped(r.user) && PassTyped(r.pass) && -0x8000_0000 <= r.port < 0x8000_0000
    && Arrived(Discovery.Response(known, Sent(r), r.answered)).status == 0
  }

  /** The registry once `r` has been answered and others, from anywhere, have come and gone. */
  function Current(known: Discovery.Users, r: Registration, later: seq<Visit>): Discovery.Users {
    AfterAll(Discovery.After(known, Sent(r), r.ip), later)
  }

  /** The registry holds exactly what was typed and announced in the latest registration. */
  lemma LatestEntry(known: Discovery.Users, r: Registration, later: seq<Visit>)
    requires Succeeded(known, r)
    requires forall i :: 0 <= i < |later| ==> !Reregisters(later[i].req, r.user)
    ensures var d := Current(known, r, later);
            r.user in d && d[r.user] == Discovery.Info(r.pass, r.ip, r.port)
  {
    hide MakeMessage, ScanRegister, Arrived, CStr;
    var reg := Sent(r);
    RegistrationRead(r.user, r.pass, r.port, r.sent);
    DenialStatus(reg, Lit("Registry full"), r.answered);
    ArrivedMade(MSG_ERROR, Lit("discovery"), CStr(reg.sender), Lit("Registry full"), r.answered, 1);
    EntryStays(Discovery.After(known, reg, r.ip), later, r.user);
  }

  lemma LatestPassword(known: Discovery.Users, r: Registration, later: seq<Visit>)
    requires Succeeded(known, r)
    requires forall i :: 0 <= i < |later| ==> !Reregisters(later[i].req, r.user)
    ensures var d := Current(known, r, later);
            r.user in d && d[r.user].password == r.pass
  {
    hide Current, Succeeded, Reregisters;
    LatestEntry(known, r, later);
  }

  /** `m` comes from "discovery" and carries `text`. */
  predicate FromDiscovery(m: Message, kind: nat, status: int, text: seq<Byte>) {
    m.kind == kind && m.status == status && CStr(m.sender) == Lit("discovery") && CStr(m.payload) == text
  }

  lemma RespondingIs(kind: nat, to: Message, text: seq<Byte>, now: Time)
    requires NoNul(text) && |text| <= MAX_PAYLOAD_LEN
    ensures FromDiscovery(Discovery.Responding(kind, to, text, now), kind, 0, text)
    ensures FromDiscovery(Discovery.Denial(to, text, now), MSG_ERROR, 1, text)
  {
    hide CStr, Field;
    LitText("discovery");
    CStrOfField(Lit("discovery"), MAX_USERNAME_LEN);
    CStrOf(Lit("discovery"), []);
    StrLenUnique(Lit("discovery"), 9);
    assert Lit("discovery") + [] == Lit("discovery");
    PayloadText(kind, Lit("discovery"), CStr(to.sender), text, now);
    PayloadText(MSG_ERROR, Lit("discovery"), CStr(to.sender), text, now);
  }

  /** A registration that can be read and has room replaces or adds the entry of its name and no
      other, and is acknowledged; any other changes nothing and is refused with the reason. */
  lemma RegisterLaw(known: Discovery.Users, req: Message, ip: seq<Byte>, now: Time)
    requires req.kind == MSG_REGISTER
    ensures var scan := ScanRegister(CStr(req.payload));
            var d, m := Discovery.After(known, req, ip), Discovery.Response(known, req, now);
            if scan.count != 3 then
              d == known && FromDiscovery(m, MSG_ERROR, 1, Lit("Bad payload: need user:pass:port"))
            else if scan.user !in known && |known| >= 128 then
              d == known && FromDiscovery(m, MSG_ERROR, 1, Lit("Registry full"))
            else
              && FromDiscovery(m, MSG_ACK, 0, Lit("Registered OK"))
              && scan.user in d && d[scan.user] == Discovery.Info(scan.pass, ip, scan.port)
              && forall u :: u != scan.user ==> (u in d <==> u in known) && (u in d ==> d[u] == known[u])
  {
    hide ScanRegister, CStr, Discovery.Responding, Discovery.Denial;
    LitText("Bad payload: need user:pass:port");
    LitText("Registry full");
    LitText("Registered OK");
    RespondingIs(MSG_ERROR, req, Lit("Bad payload: need user:pass:port"), now);
    RespondingIs(MSG_ERROR, req, Lit("Registry full"), now);
    RespondingIs(MSG_ACK, req, Lit("Registered OK"), now);
  }

  /** Any other request leaves the registry alone. A validation is acknowledged exactly for a
      registered name with its password; a request of no known type is refused. */
  lemma QuestionLaw(known: Discovery.Users, req: Message, ip: seq<Byte>, now: Time)
    requires req.kind != MSG_REGISTER
    ensures Discovery.After(known, req, ip) == known
    ensures var m := Discovery.Response(known, req, now);
            && (req.kind == MSG_VALIDATE ==>
                  var scan := ScanLogin(CStr(req.payload));
                  if scan.user in known && known[scan.user].password == scan.pass then
                    FromDiscovery(m, MSG_ACK, 0, Lit("Valid"))
                  else FromDiscovery(m, MSG_ERROR, 1, Lit("Invalid credentials")))
            && (req.kind != MSG_VALIDATE && req.kind != MSG_DISCOVER ==>
                  FromDiscovery(m, MSG_ERROR, 1, Lit("Unknown message type")))
  {
    hide ScanLogin, CStr, Discovery.Responding, Discovery.Denial;
    LitText("Valid");
    LitText("Invalid credentials");
    LitText("Unknown message type");
    RespondingIs(MSG_ACK, req, Lit("Valid"), now);
    RespondingIs(MSG_ERROR, req, Lit("Invalid credentials"), now);
    RespondingIs(MSG_ERROR, req, Lit("Unknown message type"), now);
  }

  /** A lookup, whoever asks: the address and the port of the name's latest registration, at any
      later time and after any other requests. (A textual IPv4 address has at most 15 bytes.) */
  lemma DiscoverFinds(known: Discovery.Users, r: Registration, later: seq<Visit>, req: Message, now: Time)
    requires Succeeded(known, r) && NoNul(r.ip) && |r.ip| <= 15
    requires forall i :: 0 <= i < |later| ==> !Reregisters(later[i].req, r.user)
    requires req.kind == MSG_DISCOVER && CStr(req.payload) == r.user
    ensures var text := r.ip + Lit(":") + PrintInt(r.port);
            FromDiscovery(Discovery.Response(Current(known, r, later), req, now), MSG_DISCOVER_RESP, 0, text)
  {
    hide ScanRegister, Reregisters, Succeeded, Current, CStr, PrintNat, Discovery.Responding;
    LatestEntry(known, r, later);
    TypedName(known, r);
    TargetIs(req.payload, r.user);
    PrintIntShort(if r.port < 0 then -r.port else r.port);
    LitText(":");
    var text := r.ip + Lit(":") + PrintInt(r.port);
    assert Lit(":") == [COLON];
    assert text[..|text|] == text;
    RespondingIs(MSG_DISCOVER_RESP, req, text, now);
  }

  /** A lookup of a name nobody has registered is refused. */
  lemma DiscoverFails(known: Discovery.Users, u: seq<Byte>, req: Message, now: Time)
    requires req.kind == MSG_DISCOVER && CStr(req.payload) == u && |u| <= USER_MAX && u !in known
    ensures FromDiscovery(Discovery.Response(known, req, now), MSG_ERROR, 1, Lit("User not found"))
  {
    hide CStr, Discovery.Responding, Discovery.Denial;
    TargetIs(req.payload, u);
    LitText("User not found");
    RespondingIs(MSG_ERROR, req, Lit("User not found"), now);
  }

  lemma TypedName(known: Discovery.Users, r: Registration)
    requires Succeeded(known, r)
    ensures |r.user| <= USER_MAX && -0x8000_0000 <= r.port < 0x8000_0000
  {
  }

  lemma TargetIs(payload: seq<Byte>, u: seq<Byte>)
    requires CStr(payload) == u && |u| <= USER_MAX
    ensures CStr(Field(payload, MAX_USERNAME_LEN)) == u
  {
    hide Field;
    CStrOfField(payload, MAX_USERNAME_LEN);
    assert u[..|u|] == u;
  }

  /** The clocks at a login: when the client sends it, when the chat server asks, when the
      discovery server answers, and when the chat server replies. */
  datatype Clocks = Clocks(sent: Time, asked: Time, answered: Time, replied: Time)

  /** The world of a chat server that asks a discovery server with these users. */
  function Asking(known: Discovery.Users, at: Clocks, stamp: seq<Byte>): ChatSpec.Env {
    ChatSpec.Env(at.replied, stamp, (a, b) => Accepted(known, a, b, at.asked, at.answered))
  }

  /** Whatever password is typed at login, the server lets the user in exactly when it is the
      one of the user's latest successful registration: through the client's print, two
      servers' parses and the chat server's print in between, at any times and however many
      other requests, from any addresses, lie between the two. */
  lemma CredentialsSurvive(known: Discovery.Users, r: Registration, later: seq<Visit>, typed: seq<Byte>,
                           c: ChatSpec.Chat, s: nat, at: Clocks, stamp: seq<Byte>, selfOk: bool)
    requires Succeeded(known, r) && PassTyped(typed)
    requires forall i :: 0 <= i < |later| ==> !Reregisters(later[i].req, r.user)
    requires s < |c.slots| && ChatSpec.Find(c.slots, r.user) == -1
    ensures var env := Asking(Current(known, r, later), at, stamp);
            var e := ChatSpec.Step(c, s, Arrived(LoginRequest(r.user, typed, at.sent)), env, selfOk);
            && |e.outs| == 1
            && (e.chat.slots == c.slots[s := ChatSpec.Slot(true, r.user, 0)] <==> typed == r.pass)
            && (e.outs[0].msg.status == 0 <==> typed == r.pass)
  {
    hide MakeMessage, ScanLogin, Arrived, CStr, ChatSpec.Find, ChatSpec.Step, Accepted, Current;
    var u, current := r.user, Current(known, r, later);
    LatestPassword(known, r, later);
    LoginRead(MSG_LOGIN, [], u, typed, at.sent);
    AcceptedIff(current, u, typed, at.asked, at.answered);
    LoginDecided(c, s, Arrived(LoginRequest(u, typed, at.sent)), u, typed, Asking(current, at, stamp), selfOk);
  }

  /** A well-formed login of a name that is not online is decided by the verdict alone. */
  lemma LoginDecided(c: ChatSpec.Chat, s: nat, req: Message, u: seq<Byte>, p: seq<Byte>, env: ChatSpec.Env,
                     selfOk: bool)
    requires s < |c.slots| && ChatSpec.Find(c.slots, u) == -1
    requires req.kind == MSG_LOGIN && ScanLogin(CStr(req.payload)) == Scan(2, u, p, 0)
    ensures var e := ChatSpec.Step(c, s, req, env, selfOk);
            && |e.outs| == 1
            && (e.outs[0].msg.status == 0 <==> env.valid(u, p))
            && (e.chat.slots == c.slots[s := ChatSpec.Slot(true, u, 0)] <==> env.valid(u, p))
  {
    hide MakeMessage, ScanLogin, CStr, ChatSpec.Find;
    NotThere(c.slots, s, u);
    MadeFields(MSG_ACK, ChatSpec.SERVER, u, Lit("Login successful"), env.now);
  }

  lemma DenialStatus(req: Message, text: seq<Byte>, now: Time)
    ensures Discovery.Denial(req, text, now).status == 1
  {
  }

  lemma NotThere(slots: seq<ChatSpec.Slot>, s: nat, u: seq<Byte>)
    requires s < |slots| && ChatSpec.Find(slots, u) == -1
    ensures slots != slots[s := ChatSpec.Slot(true, u, 0)]
  {
    ChatSpec.FindFromSpec(slots, u, 0);
    assert slots[s := ChatSpec.Slot(true, u, 0)][s].active;
  }
}
