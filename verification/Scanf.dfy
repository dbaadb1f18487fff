/** The `sscanf` and `snprintf` formats of the credential strings
    (section 7.21.6.2 of ISO/IEC 9899:2011). */
module Scanf {
  import opened Bytes
  import opened Codec

  const COLON: Byte := 58
  const USER_MAX := 31
  const PASS_MAX := 63

  predicate IsSpace(b: Byte) {
    b == 32 || 9 <= b <= 13
  }

  /** Length of what `%n[^:]` takes. */
  function UntilColon(s: seq<Byte>, n: nat): (k: nat)
    ensures k <= |s| && k <= n
  {
    if s == [] || n == 0 || s[0] == COLON then 0 else 1 + UntilColon(s[1..], n - 1)
  }

  /** Length of what `%ns` takes once leading spaces are skipped. */
  function Word(s: seq<Byte>, n: nat): (k: nat)
    ensures k <= |s| && k <= n
  {
    if s == [] || n == 0 || IsSpace(s[0]) then 0 else 1 + Word(s[1..], n - 1)
  }

  function SkipSpaces(s: seq<Byte>): (r: seq<Byte>)
    ensures |r| <= |s|
  {
    if s != [] && IsSpace(s[0]) then SkipSpaces(s[1..]) else s
  }

  predicate IsDigit(b: Byte) {
    48 <= b <= 57
  }

  function Digits(s: seq<Byte>): (k: nat)
    ensures k <= |s|
  {
    if s == [] || !IsDigit(s[0]) then 0 else 1 + Digits(s[1..])
  }

  function DigitsValue(s: seq<Byte>): nat
    requires forall i :: 0 <= i < |s| ==> IsDigit(s[i])
  {
    if s == [] then 0
    else
      assert IsDigit(s[|s| - 1]);
      DigitsValue(s[..|s| - 1]) * 10 + (s[|s| - 1] as int - 48)
  }

  lemma {:induction false} DigitsAreDigits(s: seq<Byte>)
    ensures forall i :: 0 <= i < Digits(s) ==> IsDigit(s[i])
  {
    if s != [] && IsDigit(s[0]) {
      DigitsAreDigits(s[1..]);
      assert forall i :: 0 < i < Digits(s) ==> s[i] == s[1..][i - 1];
    }
  }

  /** `%d`. */
  function ReadInt(s: seq<Byte>): Option<int> {
    var t := SkipSpaces(s);
    var signed := t != [] && (t[0] == 45 || t[0] == 43);
    var d := if signed then t[1..] else t;
    var k := Digits(d);
    if k == 0 then None
    else
      DigitsAreDigits(d);
      var v: int := DigitsValue(d[..k]);
      Some(if signed && t[0] == 45 then -v else v)
  }

  /** The outcome of a scan: how many conversions succeeded, and the zero-initialised
      variables as they are afterwards. */
  datatype Scan = Scan(count: nat, user: seq<Byte>, pass: seq<Byte>, port: int)

  /** `sscanf(s, "%31[^:]:%63s", u, p)`. */
  function ScanLogin(s: seq<Byte>): Scan {
    var k := UntilColon(s, USER_MAX);
    if k == 0 then Scan(0, [], [], 0)
    else if k == |s| || s[k] != COLON then Scan(1, s[..k], [], 0)
    else
      var t := SkipSpaces(s[k + 1..]);
      var j := Word(t, PASS_MAX);
      if j == 0 then Scan(1, s[..k], [], 0) else Scan(2, s[..k], t[..j], 0)
  }

  /** `sscanf(s, "%31[^:]:%63[^:]:%d", u, p, &port)`. */
  function ScanRegister(s: seq<Byte>): Scan {
    var k := UntilColon(s, USER_MAX);
    if k == 0 then Scan(0, [], [], 0)
    else if k == |s| || s[k] != COLON then Scan(1, s[..k], [], 0)
    else
      var t := s[k + 1..];
      var j := UntilColon(t, PASS_MAX);
      if j == 0 then Scan(1, s[..k], [], 0)
      else if j == |t| || t[j] != COLON || ReadInt(t[j + 1..]).None? then Scan(2, s[..k], t[..j], 0)
      else Scan(3, s[..k], t[..j], ReadInt(t[j + 1..]).value)
  }

  // ---------- printing ----------

  function PrintNat(n: nat): (s: seq<Byte>)
    ensures s != []
  {
    (if n < 10 then [] else PrintNat(n / 10)) + [48 + n % 10]
  }

  function PrintInt(n: int): seq<Byte> {
    if n < 0 then [45] + PrintNat(-n) else PrintNat(n)
  }

  /** `snprintf(buf, n, ...)` whose full output is `s`. */
  function SnPrintf(s: seq<Byte>, n: nat): seq<Byte>
    requires n > 0
  {
    s[..Min(|s|, n - 1)]
  }

  /** "%s:%s", as the client prints a login and the chat server a validation. */
  function PrintLogin(u: seq<Byte>, p: seq<Byte>): seq<Byte> {
    SnPrintf(u + [COLON] + p, MAX_PAYLOAD_LEN)
  }

  /** "%s:%s:%d", as the client prints a registration. */
  function PrintRegister(u: seq<Byte>, p: seq<Byte>, port: int): seq<Byte> {
    SnPrintf(u + [COLON] + p + [COLON] + PrintInt(port), MAX_PAYLOAD_LEN)
  }

  // ---------- when printing and scanning agree ----------

  predicate UserOk(u: seq<Byte>) {
    0 < |u| <= USER_MAX && COLON !in u
  }

  predicate LoginPassOk(p: seq<Byte>) {
    0 < |p| <= PASS_MAX && forall i :: 0 <= i < |p| ==> !IsSpace(p[i])
  }

  predicate RegisterPassOk(p: seq<Byte>) {
    0 < |p| <= PASS_MAX && COLON !in p
  }

  lemma {:induction false} UntilColonIs(u: seq<Byte>, rest: seq<Byte>, n: nat)
    requires COLON !in u && |u| <= n
    requires rest == [] || rest[0] == COLON
    ensures UntilColon(u + rest, n) == |u|
  {
    if u == [] {
      assert u + rest == rest;
    } else {
      assert (u + rest)[1..] == u[1..] + rest;
      UntilColonIs(u[1..], rest, n - 1);
    }
  }

  lemma {:induction false} UntilColonTakes(s: seq<Byte>, n: nat)
    ensures COLON !in s[..UntilColon(s, n)]
  {
    var k := UntilColon(s, n);
    if k > 0 {
      UntilColonTakes(s[1..], n - 1);
      assert s[..k] == [s[0]] + s[1..][..k - 1];
    }
  }

  lemma {:induction false} WordTakes(s: seq<Byte>, n: nat)
    ensures forall i :: 0 <= i < Word(s, n) ==> !IsSpace(s[i])
    ensures (forall i :: 0 <= i < |s| ==> !IsSpace(s[i])) && |s| <= n ==> Word(s, n) == |s|
  {
    if Word(s, n) > 0 {
      WordTakes(s[1..], n - 1);
      assert forall i :: 0 < i < |s| ==> s[i] == s[1..][i - 1];
    }
  }

  /** A scan never yields more than its field widths. */
  lemma ScanSizes(s: seq<Byte>)
    ensures |ScanLogin(s).user| <= USER_MAX && |ScanLogin(s).pass| <= PASS_MAX
    ensures |ScanRegister(s).user| <= USER_MAX && |ScanRegister(s).pass| <= PASS_MAX
  {
    hide ReadInt;
  }

  /** A login string is read back as printed exactly when the name has 1 to 31 bytes and no
      colon and the password 1 to 63 bytes and no white space. */
  lemma LoginRoundTrip(u: seq<Byte>, p: seq<Byte>)
    ensures ScanLogin(PrintLogin(u, p)) == Scan(2, u, p, 0) <==> UserOk(u) && LoginPassOk(p)
  {
    if |u| > USER_MAX || |p| > PASS_MAX {
      ScanSizes(PrintLogin(u, p));
      return;
    }
    var s := u + [COLON] + p;
    assert PrintLogin(u, p) == s;
    if UserOk(u) && LoginPassOk(p) {
      assert s == u + ([COLON] + p);
      UntilColonIs(u, [COLON] + p, USER_MAX);
      assert s[..|u|] == u && s[|u| + 1..] == p;
      WordTakes(p, PASS_MAX);
      assert p[..|p|] == p;
    }
    if ScanLogin(s) == Scan(2, u, p, 0) {
      UntilColonTakes(s, USER_MAX);
      var t := SkipSpaces(s[|u| + 1..]);
      WordTakes(t, PASS_MAX);
      assert p == t[..|p|];
    }
  }

  lemma {:induction false} PrintNatDigits(n: nat)
    ensures forall i :: 0 <= i < |PrintNat(n)| ==> IsDigit(PrintNat(n)[i])
    ensures DigitsValue(PrintNat(n)) == n
  {
    if n >= 10 {
      PrintNatDigits(n / 10);
      assert PrintNat(n)[..|PrintNat(n)| - 1] == PrintNat(n / 10);
    }
  }

  lemma {:induction false} AllDigits(s: seq<Byte>)
    requires forall i :: 0 <= i < |s| ==> IsDigit(s[i])
    ensures Digits(s) == |s|
  {
    if s != [] {
      AllDigits(s[1..]);
    }
  }

  lemma ReadPrintedInt(n: int)
    ensures ReadInt(PrintInt(n)) == Some(n)
  {
    var m := if n < 0 then -n else n;
    PrintNatDigits(m);
    AllDigits(PrintNat(m));
    assert PrintNat(m)[..|PrintNat(m)|] == PrintNat(m);
    assert IsDigit(PrintNat(m)[0]);
    if n < 0 {
      assert PrintInt(n)[1..] == PrintNat(m);
    }
  }

  /** A registration string is read back as printed exactly when the name has 1 to 31 bytes,
      the password 1 to 63, and neither has a colon, for every port of at most 11 characters. */
  lemma RegisterRoundTrip(u: seq<Byte>, p: seq<Byte>, port: int)
    requires |PrintInt(port)| <= 11
    ensures ScanRegister(PrintRegister(u, p, port)) == Scan(3, u, p, port) <==> UserOk(u) && RegisterPassOk(p)
  {
    hide PrintInt, ReadInt;
    if |u| > USER_MAX || |p| > PASS_MAX {
      hide ScanRegister, PrintRegister;
      ScanSizes(PrintRegister(u, p, port));
      return;
    }
    var d := PrintInt(port);
    var s := u + [COLON] + p + [COLON] + d;
    assert PrintRegister(u, p, port) == s;
    if UserOk(u) && RegisterPassOk(p) {
      var t := p + ([COLON] + d);
      assert s == u + ([COLON] + t);
      UntilColonIs(u, [COLON] + t, USER_MAX);
      assert s[..|u|] == u && s[|u| + 1..] == t;
      UntilColonIs(p, [COLON] + d, PASS_MAX);
      assert t[..|p|] == p && t[|p| + 1..] == d;
      ReadPrintedInt(port);
    }
    if ScanRegister(s) == Scan(3, u, p, port) {
      UntilColonTakes(s, USER_MAX);
      UntilColonTakes(s[|u| + 1..], PASS_MAX);
    }
  }

  /** What a scan leaves in the variables, whether or not it got to the end. */
  lemma ScanLoginShape(s: seq<Byte>)
    requires NoNul(s)
    ensures var r := ScanLogin(s);
            && r.count <= 2
            && |r.user| <= USER_MAX && NoNul(r.user) && COLON !in r.user && (r.user != [] <==> r.count >= 1)
            && |r.pass| <= PASS_MAX && NoNul(r.pass) && (r.pass != [] <==> r.count == 2)
  {
    UntilColonTakes(s, USER_MAX);
    SkipSpacesSuffix(s);
    var k := UntilColon(s, USER_MAX);
    if k < |s| {
      SkipSpacesSuffix(s[k + 1..]);
    }
  }

  lemma {:induction false} SkipSpacesSuffix(s: seq<Byte>)
    requires NoNul(s)
    ensures NoNul(SkipSpaces(s))
  {
    if s != [] && IsSpace(s[0]) {
      SkipSpacesSuffix(s[1..]);
    }
  }

  lemma ScanRegisterShape(s: seq<Byte>)
    requires NoNul(s)
    ensures var r := ScanRegister(s);
            && |r.user| <= USER_MAX && NoNul(r.user) && COLON !in r.user && (r.user != [] <==> r.count >= 1)
            && |r.pass| <= PASS_MAX && NoNul(r.pass) && (r.pass != [] <==> r.count >= 2)
  {
    UntilColonTakes(s, USER_MAX);
  }
}
