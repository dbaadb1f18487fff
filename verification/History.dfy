/** The history log: records appended by `save_history`, replies cut out of it by `fgets`. */
module History {
  import opened Bytes
  import opened Codec

  const NEWLINE: Byte := 10
  const LINE_SIZE := 256

  // ---------- writing ----------

  /** One record, `stamp` being the formatted time. */
  function Record(to: seq<Byte>, text: seq<Byte>, stamp: seq<Byte>): seq<Byte> {
    if to != [] then
      Lit("[") + stamp + Lit("] -> ") + to + Lit(" : ") + text + [NEWLINE]
    else
      Lit("[") + stamp + Lit("] BROADCAST : ") + text + [NEWLINE]
  }

  type Logs = map<seq<Byte>, seq<Byte>>

  function LogOf(logs: Logs, name: seq<Byte>): seq<Byte> {
    if name in logs then logs[name] else []
  }

  function Saved(logs: Logs, from: seq<Byte>, to: seq<Byte>, text: seq<Byte>, stamp: seq<Byte>): Logs {
    logs[from := LogOf(logs, from) + Record(to, text, stamp)]
  }

  /** A log that stops at the end of a record. */
  predicate Ended(log: seq<Byte>) {
    log == [] || log[|log| - 1] == NEWLINE
  }

  /** A log has grown by whole records. */
  predicate Grown(before: seq<Byte>, after: seq<Byte>) {
    before <= after && Ended(after[|before|..])
  }

  ghost predicate LogsGrown(before: Logs, after: Logs) {
    forall name :: Grown(LogOf(before, name), LogOf(after, name))
  }

  lemma SavedGrows(logs: Logs, from: seq<Byte>, to: seq<Byte>, text: seq<Byte>, stamp: seq<Byte>)
    ensures LogsGrown(logs, Saved(logs, from, to, text, stamp))
    ensures LogsGrown(logs, logs)
  {
    var r := Record(to, text, stamp);
    assert r[|r| - 1] == NEWLINE;
    forall name
      ensures Grown(LogOf(logs, name), LogOf(Saved(logs, from, to, text, stamp), name))
    {
      if name == from {
        assert (LogOf(logs, name) + r)[|LogOf(logs, name)|..] == r;
      }
    }
  }

  lemma GrownTransitive(a: Logs, b: Logs, c: Logs)
    requires LogsGrown(a, b) && LogsGrown(b, c)
    ensures LogsGrown(a, c)
  {
    forall name
      ensures Grown(LogOf(a, name), LogOf(c, name))
    {
      var x, y, z := LogOf(a, name), LogOf(b, name), LogOf(c, name);
      assert Grown(x, y) && Grown(y, z);
      assert z[|x|..] == y[|x|..] + z[|y|..];
    }
  }

  // ---------- reading ----------

  /** How many bytes one `fgets` takes: through the first newline, `limit` at most. */
  function ChunkLen(s: seq<Byte>, limit: nat): (n: nat)
    ensures n <= |s| && n <= limit
    ensures s != [] && limit > 0 ==> n > 0
  {
    if s == [] || limit == 0 then 0
    else if s[0] == NEWLINE then 1
    else 1 + ChunkLen(s[1..], limit - 1)
  }

  /** The lines `fgets` delivers until end of file. */
  function Chunks(s: seq<Byte>): seq<seq<Byte>> {
    if s == [] then []
    else
      var n := ChunkLen(s, LINE_SIZE - 1);
      [s[..n]] + Chunks(s[n..])
  }

  /** Lines are kept while they fit strictly below `room`; the first that does not ends it. */
  function Kept(cs: seq<seq<Byte>>, room: nat): (r: seq<Byte>)
    ensures room > 0 ==> |r| < room
  {
    if cs == [] || |cs[0]| >= room then [] else cs[0] + Kept(cs[1..], room - |cs[0]|)
  }

  /** The accumulated reply. */
  function Excerpt(log: seq<Byte>): seq<Byte> {
    Kept(Chunks(log), MAX_PAYLOAD_LEN - 1)
  }

  /** The payload sent back. */
  function Reply(log: seq<Byte>): seq<Byte> {
    if Excerpt(log) != [] then Excerpt(log) else Lit("No history.")
  }

  lemma KeptEmpty()
    ensures forall room: nat :: Kept(Chunks([]), room) == []
  {
  }

  lemma KeptStep(s: seq<Byte>, room: nat)
    requires s != []
    ensures var n := ChunkLen(s, LINE_SIZE - 1);
            Kept(Chunks(s), room) == if n >= room then [] else s[..n] + Kept(Chunks(s[n..]), room - n)
  {
    var n := ChunkLen(s, LINE_SIZE - 1);
    assert ([s[..n]] + Chunks(s[n..]))[1..] == Chunks(s[n..]);
  }

  /** `fgets(line, 256, f)` at position `pos`. */
  method Fgets(log: seq<Byte>, pos: nat) returns (line: seq<Byte>)
    requires pos <= |log|
    ensures line == log[pos..][..ChunkLen(log[pos..], LINE_SIZE - 1)]
  {
    var n := 0;
    ghost var s := log[pos..];
    while n < LINE_SIZE - 1 && pos + n < |log|
      invariant 0 <= n <= |s| && n <= LINE_SIZE - 1
      invariant ChunkLen(s, LINE_SIZE - 1) == n + ChunkLen(s[n..], LINE_SIZE - 1 - n)
    {
      assert s[n..][1..] == s[n + 1..];
      assert s[n..][0] == log[pos + n];
      n := n + 1;
      if log[pos + n - 1] == NEWLINE {
        break;
      }
    }
    line := log[pos..pos + n];
    assert line == s[..n];
  }

  /** The reading loop of the HISTORY_REQ branch. */
  method ReadHistory(log: seq<Byte>) returns (buf: seq<Byte>)
    ensures buf == Excerpt(log)
  {
    hide Chunks, Kept;
    buf := [];
    var tot := 0;
    var pos := 0;
    KeptEmpty();
    assert log[0..] == log;
    while pos < |log|
      invariant 0 <= pos <= |log|
      invariant tot == |buf| < MAX_PAYLOAD_LEN - 1
      invariant Excerpt(log) == buf + Kept(Chunks(log[pos..]), MAX_PAYLOAD_LEN - 1 - tot)
    {
      var line := Fgets(log, pos);
      KeptStep(log[pos..], MAX_PAYLOAD_LEN - 1 - tot);
      if tot + |line| >= MAX_PAYLOAD_LEN - 1 {
        break;
      }
      assert log[pos..][|line|..] == log[pos + |line|..];
      buf := buf + line;
      tot := tot + |line|;
      pos := pos + |line|;
    }
    assert pos == |log| ==> log[pos..] == [];
  }

  lemma ReplyIs(log: seq<Byte>)
    ensures Reply(log) == if Excerpt(log) != [] then Excerpt(log) else Lit("No history.")
  {
  }

  // ---------- replies only grow ----------

  lemma {:induction false} ChunkLenWithNewline(a: seq<Byte>, b: seq<Byte>, limit: nat)
    requires a != [] && Ended(a)
    ensures ChunkLen(a + b, limit) == ChunkLen(a, limit)
  {
    if limit > 0 && a[0] != NEWLINE {
      assert (a + b)[1..] == a[1..] + b;
      ChunkLenWithNewline(a[1..], b, limit - 1);
    }
  }

  /** Appending to a log of whole records leaves its lines as they were. */
  lemma {:induction false} ChunksAppend(a: seq<Byte>, b: seq<Byte>)
    requires Ended(a)
    ensures Chunks(a + b) == Chunks(a) + Chunks(b)
    decreases |a|
  {
    if a == [] {
      assert a + b == b;
    } else {
      var n := ChunkLen(a, LINE_SIZE - 1);
      ChunkLenWithNewline(a, b, LINE_SIZE - 1);
      assert (a + b)[..n] == a[..n];
      assert (a + b)[n..] == a[n..] + b;
      ChunksAppend(a[n..], b);
    }
  }

  function Flatten(cs: seq<seq<Byte>>): seq<Byte> {
    if cs == [] then [] else cs[0] + Flatten(cs[1..])
  }

  lemma {:induction false} FlattenChunks(s: seq<Byte>)
    ensures Flatten(Chunks(s)) == s
    decreases |s|
  {
    if s != [] {
      var n := ChunkLen(s, LINE_SIZE - 1);
      FlattenChunks(s[n..]);
      assert s == s[..n] + s[n..];
    }
  }

  /** More lines never change what was kept of the earlier ones, and add nothing at all once
      one of them has been refused. */
  lemma {:induction false} KeptAppend(a: seq<seq<Byte>>, b: seq<seq<Byte>>, room: nat)
    ensures Kept(a, room) <= Kept(a + b, room)
    ensures Kept(a, room) <= Flatten(a)
    ensures Kept(a, room) != Flatten(a) ==> Kept(a + b, room) == Kept(a, room)
  {
    if a != [] && |a[0]| < room {
      KeptAppend(a[1..], b, room - |a[0]|);
      assert (a + b)[1..] == a[1..] + b;
      assert (a + b)[0] == a[0];
    }
  }

  /** The reply is the longest run of leading lines of at most 1022 bytes. */
  lemma {:induction false} KeptGreedy(cs: seq<seq<Byte>>, room: nat) returns (k: nat)
    ensures k <= |cs|
    ensures Kept(cs, room) == Flatten(cs[..k])
    ensures k < |cs| ==> |Flatten(cs[..k])| + |cs[k]| >= room
  {
    if cs == [] || |cs[0]| >= room {
      k := 0;
    } else {
      var j := KeptGreedy(cs[1..], room - |cs[0]|);
      k := j + 1;
      assert cs[..k][1..] == cs[1..][..j];
    }
  }

  /** The excerpt of a later log extends that of an earlier one, and is the same once the
      earlier one had to leave something out. */
  predicate Extends(before: seq<Byte>, after: seq<Byte>) {
    && Excerpt(before) <= Excerpt(after)
    && (Excerpt(before) != before ==> Excerpt(after) == Excerpt(before))
  }

  /** A later excerpt extends an earlier one; it is the whole log until a line is refused and
      frozen from then on. */
  lemma ExcerptMonotone(before: seq<Byte>, after: seq<Byte>)
    requires Ended(before) && Grown(before, after)
    ensures Excerpt(before) <= before
    ensures Extends(before, after)
    ensures |Excerpt(before)| <= 1022
  {
    var more := after[|before|..];
    assert after == before + more;
    ChunksAppend(before, more);
    FlattenChunks(before);
    KeptAppend(Chunks(before), Chunks(more), MAX_PAYLOAD_LEN - 1);
  }
}
