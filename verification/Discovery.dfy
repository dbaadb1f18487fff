/** The discovery server's registry: an array of records searched from the front, and the
    finite map it stands for. */
module Discovery {
  import opened Bytes
  import opened Codec
  import opened Scanf

  const MAX_USERS := 128

  /** The strings of a record are C strings. */
  datatype UserRecord = UserRecord(username: seq<Byte>, info: Info, active: bool)

  datatype Info = Info(password: seq<Byte>, ip: seq<Byte>, port: int)

  type Users = map<seq<Byte>, Info>

  const NOBODY := UserRecord([], Info([], [], 0), false)

  // ---------- the array as a map ----------

  function FindIn(rs: seq<UserRecord>, u: seq<Byte>, i: nat): (r: int)
    requires i <= |rs|
    ensures r == -1 || i <= r < |rs|
    decreases |rs| - i
  {
    if i == |rs| then -1
    else if rs[i].active && rs[i].username == u then i
    else FindIn(rs, u, i + 1)
  }

  lemma {:induction false} FindInSpec(rs: seq<UserRecord>, u: seq<Byte>, i: nat)
    requires i <= |rs|
    ensures var r := FindIn(rs, u, i);
            && (r != -1 ==> rs[r].active && rs[r].username == u)
            && (forall j :: i <= j < |rs| && (r == -1 || j < r) ==> !(rs[j].active && rs[j].username == u))
    decreases |rs| - i
  {
    if i < |rs| {
      FindInSpec(rs, u, i + 1);
    }
  }

  function NamesIn(rs: seq<UserRecord>): set<seq<Byte>> {
    set i | 0 <= i < |rs| && rs[i].active :: rs[i].username
  }

  predicate Distinct(rs: seq<UserRecord>) {
    forall i, j :: 0 <= i < j < |rs| && rs[i].active && rs[j].active ==> rs[i].username != rs[j].username
  }

  /** The last record adds its name, if it has one, and no other has it. */
  lemma NamesMore(rs: seq<UserRecord>)
    requires Distinct(rs) && rs != []
    ensures var n := |rs| - 1;
            var front := NamesIn(rs[..n]);
            if rs[n].active then NamesIn(rs) == front + {rs[n].username} && rs[n].username !in front
            else NamesIn(rs) == front
  {
    var n := |rs| - 1;
    assert forall i :: 0 <= i < n ==> rs[..n][i] == rs[i];
    if rs[n].active {
      assert NamesIn(rs) == NamesIn(rs[..n]) + {rs[n].username};
      assert rs[n].username !in NamesIn(rs[..n]);
    } else {
      assert NamesIn(rs) == NamesIn(rs[..n]);
    }
  }

  /** With distinct names, the array is full exactly when it holds as many names as records. */
  lemma {:induction false} NamesCount(rs: seq<UserRecord>)
    requires Distinct(rs)
    ensures |NamesIn(rs)| <= |rs|
    ensures |NamesIn(rs)| == |rs| <==> forall i :: 0 <= i < |rs| ==> rs[i].active
  {
    if rs == [] {
      assert NamesIn(rs) == {};
    } else {
      var n := |rs| - 1;
      NamesCount(rs[..n]);
      NamesMore(rs);
      assert forall i :: 0 <= i < n ==> rs[..n][i] == rs[i];
    }
  }

  /** The array stands for the map: same names, and each record is its name's entry. */
  predicate Stands(rs: seq<UserRecord>, known: Users) {
    && known.Keys == NamesIn(rs)
    && forall i :: 0 <= i < |rs| && rs[i].active ==> rs[i].username in known && known[rs[i].username] == rs[i].info
  }

  lemma StandsFind(rs: seq<UserRecord>, known: Users, u: seq<Byte>)
    requires Stands(rs, known)
    ensures var r := FindIn(rs, u, 0);
            if r == -1 then u !in known else u in known && known[u] == rs[r].info && rs[r].active && rs[r].username == u
  {
    FindInSpec(rs, u, 0);
    if u in known {
      assert u in NamesIn(rs);
    }
  }

  lemma StandsPut(rs: seq<UserRecord>, known: Users, k: nat, u: seq<Byte>, info: Info)
    requires Stands(rs, known) && Distinct(rs) && k < |rs|
    requires if rs[k].active then rs[k].username == u else u !in known
    ensures var after := rs[k := UserRecord(u, info, true)];
            Stands(after, known[u := info]) && Distinct(after)
  {
    var after := rs[k := UserRecord(u, info, true)];
    forall i | 0 <= i < |rs| && i != k && rs[i].active
      ensures rs[i].username != u
    {
    }
    assert after[k].username in NamesIn(after);
    forall name
      ensures name in NamesIn(after) <==> name in NamesIn(rs) + {u}
    {
      if name in NamesIn(rs) {
        var i :| 0 <= i < |rs| && rs[i].active && rs[i].username == name;
        assert after[i].active && after[i].username == name;
      }
    }
    assert known[u := info].Keys == NamesIn(after);
  }

  // ---------- what the server does, on the map ----------

  predicate InfoOk(u: seq<Byte>, info: Info) {
    u != [] && |u| <= USER_MAX && info.password != [] && |info.password| <= PASS_MAX
  }

  /** Names and passwords are never empty. */
  predicate UsersOk(known: Users) {
    forall u :: u in known ==> InfoOk(u, known[u])
  }

  predicate Refused(known: Users, u: seq<Byte>) {
    u !in known && |known| >= MAX_USERS
  }

  function Registered(known: Users, u: seq<Byte>, info: Info): Users {
    if Refused(known, u) then known else known[u := info]
  }

  predicate Valid(known: Users, payload: seq<Byte>) {
    var scan := ScanLogin(payload);
    scan.user in known && known[scan.user].password == scan.pass
  }

  function Responding(kind: nat, to: Message, text: seq<Byte>, now: Time): Message {
    MakeMessage(kind, Lit("discovery"), CStr(to.sender), text, now)
  }

  function Denial(to: Message, text: seq<Byte>, now: Time): Message {
    Responding(MSG_ERROR, to, text, now).(status := 1)
  }

  /** The registry after a request. */
  function After(known: Users, req: Message, ip: seq<Byte>): Users {
    var scan := ScanRegister(CStr(req.payload));
    if req.kind == MSG_REGISTER && scan.count == 3 then
      Registered(known, scan.user, Info(scan.pass, ip, scan.port))
    else known
  }

  /** The response to a request. */
  function Response(known: Users, req: Message, now: Time): Message {
    if req.kind == MSG_REGISTER then
      var scan := ScanRegister(CStr(req.payload));
      if scan.count != 3 then Denial(req, Lit("Bad payload: need user:pass:port"), now)
      else if Refused(known, scan.user) then Denial(req, Lit("Registry full"), now)
      else Responding(MSG_ACK, req, Lit("Registered OK"), now)
    else if req.kind == MSG_DISCOVER then
      var target := CStr(Field(req.payload, MAX_USERNAME_LEN));
      if target !in known then Denial(req, Lit("User not found"), now)
      else
        var info := known[target];
        Responding(MSG_DISCOVER_RESP, req, SnPrintf(info.ip + [COLON] + PrintInt(info.port), 64), now)
    else if req.kind == MSG_VALIDATE then
      if Valid(known, CStr(req.payload)) then Responding(MSG_ACK, req, Lit("Valid"), now)
      else Denial(req, Lit("Invalid credentials"), now)
    else Denial(req, Lit("Unknown message type"), now)
  }

  lemma AfterKeeps(known: Users, req: Message, ip: seq<Byte>)
    requires UsersOk(known)
    ensures UsersOk(After(known, req, ip))
  {
    ScanRegisterShape(CStr(req.payload));
  }

  /** A validation whose string does not yield both fields is refused: no stored name or
      password is empty. */
  lemma HalfParsedIsRefused(known: Users, payload: seq<Byte>)
    requires UsersOk(known) && NoNul(payload)
    ensures ScanLogin(payload).count != 2 ==> !Valid(known, payload)
  {
    hide ScanLogin;
    ScanLoginShape(payload);
    var scan := ScanLogin(payload);
    if scan.user in known {
      assert InfoOk(scan.user, known[scan.user]);
    }
  }

  // ---------- the server ----------

  class Registry {
    const registry: array<UserRecord>
    var locked: bool
    ghost var known: Users

    ghost predicate Ok()
      reads this, registry
    {
      && registry.Length == MAX_USERS
      && Stands(registry[..], known)
      && Distinct(registry[..])
      && UsersOk(known)
      && !locked
    }

    constructor ()
      ensures Ok() && known == map[] && fresh(registry)
    {
      registry := new UserRecord[MAX_USERS](_ => NOBODY);
      locked := false;
      known := map[];
      new;
      assert NamesIn(registry[..]) == {};
    }

    /** `find_user`; the caller holds the lock. */
    method FindUser(u: seq<Byte>) returns (r: int)
      requires locked
      ensures r == FindIn(registry[..], u, 0)
    {
      for i := 0 to registry.Length
        invariant FindIn(registry[..], u, 0) == FindIn(registry[..], u, i)
      {
        if registry[i].active && registry[i].username == u {
          return i;
        }
      }
      r := -1;
    }

    /** `register_user`: refused exactly for a new name when the registry is full, otherwise
        the name's entry is replaced or added and no other entry changes. */
    method RegisterUser(u: seq<Byte>, p: seq<Byte>, ip: seq<Byte>, port: int) returns (ok: bool)
      requires Ok() && InfoOk(u, Info(p, ip, port))
      modifies this, registry
      ensures Ok()
      ensures ok <==> !(u !in old(known) && |old(known)| == MAX_USERS)
      ensures known == if ok then old(known)[u := Info(p, ip, port)] else old(known)
    {
      hide Stands, NamesIn, Distinct;
      locked := true;
      StandsFind(registry[..], known, u);
      NamesCount(registry[..]);
      StandsKeys(registry[..], known);
      var idx := FindUser(u);
      if idx == -1 {
        idx := 0;
        while idx < MAX_USERS && registry[idx].active
          invariant 0 <= idx <= MAX_USERS
          invariant forall i :: 0 <= i < idx ==> registry[..][i].active
        {
          idx := idx + 1;
        }
        if idx == MAX_USERS {
          locked := false;
          return false;
        }
        assert !registry[..][idx].active;
      }
      StandsPut(registry[..], known, idx, u, Info(p, ip, port));
      registry[idx] := registry[idx].(active := true, info := registry[idx].info.(port := port));
      registry[idx] := registry[idx].(username := u);
      registry[idx] := registry[idx].(info := registry[idx].info.(password := p));
      registry[idx] := registry[idx].(info := registry[idx].info.(ip := ip));
      assert registry[..] == old(registry[..])[idx := UserRecord(u, Info(p, ip, port), true)];
      known := known[u := Info(p, ip, port)];
      locked := false;
      ok := true;
    }

    /** One connection of `handle_connection`. */
    method Handle(req: Message, ip: seq<Byte>, now: Time) returns (resp: Message)
      requires Ok()
      modifies this, registry
      ensures Ok()
      ensures known == After(old(known), req, ip)
      ensures resp == Response(old(known), req, now)
    {
      hide Stands, NamesIn, Distinct, Responding, ScanLogin, ScanRegister, MakeMessage;
      NamesCount(registry[..]);
      StandsKeys(registry[..], known);
      if req.kind == MSG_REGISTER {
        var scan := ScanRegister(CStr(req.payload));
        if scan.count != 3 {
          resp := Responding(MSG_ERROR, req, Lit("Bad payload: need user:pass:port"), now).(status := 1);
        } else {
          ScanRegisterShape(CStr(req.payload));
          var ok := RegisterUser(scan.user, scan.pass, ip, scan.port);
          if !ok {
            resp := Responding(MSG_ERROR, req, Lit("Registry full"), now).(status := 1);
          } else {
            resp := Responding(MSG_ACK, req, Lit("Registered OK"), now);
          }
        }
      } else if req.kind == MSG_DISCOVER {
        var target := CStr(Field(req.payload, MAX_USERNAME_LEN));
        StandsFind(registry[..], known, target);
        locked := true;
        var idx := FindUser(target);
        if idx == -1 {
          locked := false;
          resp := Responding(MSG_ERROR, req, Lit("User not found"), now).(status := 1);
        } else {
          var result := SnPrintf(registry[idx].info.ip + [COLON] + PrintInt(registry[idx].info.port), 64);
          locked := false;
          resp := Responding(MSG_DISCOVER_RESP, req, result, now);
        }
      } else if req.kind == MSG_VALIDATE {
        var scan := ScanLogin(CStr(req.payload));
        StandsFind(registry[..], known, scan.user);
        locked := true;
        var idx := FindUser(scan.user);
        var ok := idx != -1 && registry[idx].info.password == scan.pass;
        locked := false;
        resp := if ok then Responding(MSG_ACK, req, Lit("Valid"), now)
                else Responding(MSG_ERROR, req, Lit("Invalid credentials"), now).(status := 1);
      } else {
        resp := Responding(MSG_ERROR, req, Lit("Unknown message type"), now).(status := 1);
      }
    }
  }

  lemma StandsKeys(rs: seq<UserRecord>, known: Users)
    requires Stands(rs, known)
    ensures |known| == |NamesIn(rs)|
  {
    assert |known.Keys| == |known|;
  }
}
