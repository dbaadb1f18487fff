/** Messages on their way to a client, each tagged with the step that caused it. */
module Delivery {
  import opened Codec
  import opened Framing
  import opened ChatSpec

  datatype Tagged = Tagged(step: nat, msg: Message)

  function Tag(step: nat, ms: seq<Message>): seq<Tagged> {
    seq(|ms|, i requires 0 <= i < |ms| => Tagged(step, ms[i]))
  }

  function Msgs(ts: seq<Tagged>): seq<Message> {
    seq(|ts|, i requires 0 <= i < |ts| => ts[i].msg)
  }

  /** Steps never go back, and none is later than `now`. */
  predicate InOrder(ts: seq<Tagged>, now: nat) {
    && (forall i, j :: 0 <= i < j < |ts| ==> ts[i].step <= ts[j].step)
    && (forall i :: 0 <= i < |ts| ==> ts[i].step <= now)
  }

  lemma InOrderAppend(ts: seq<Tagged>, now: nat, m: Message)
    requires InOrder(ts, now)
    ensures InOrder(ts + [Tagged(now, m)], now)
  {
  }

  lemma MsgsAppend(ts: seq<Tagged>, t: Tagged)
    ensures Msgs(ts + [t]) == Msgs(ts) + [t.msg]
    ensures Frames(Msgs(ts + [t])) == Frames(Msgs(ts)) + Pack(t.msg)
  {
    hide Pack;
    assert Msgs(ts + [t]) == Msgs(ts) + [t.msg];
    FramesAppend(Msgs(ts), t.msg);
  }

  lemma TagAppend(step: nat, ms: seq<Message>, m: Message)
    ensures Tag(step, ms + [m]) == Tag(step, ms) + [Tagged(step, m)]
    ensures Tag(step, []) == []
  {
  }

  lemma InOrderLater(ts: seq<Tagged>, now: nat)
    requires InOrder(ts, now)
    ensures InOrder(ts, now + 1)
  {
  }

  lemma MsgsTag(h: seq<Tagged>, step: nat, ms: seq<Message>)
    ensures Msgs(h + Tag(step, ms)) == Msgs(h) + ms
  {
  }

  /** What every slot has been handed since `base`: its share of `outs`, tagged `step`. */
  predicate Handing(base: seq<seq<Tagged>>, outs: seq<Out>, handed: seq<seq<Tagged>>, step: nat) {
    && |base| == |handed|
    && forall i :: 0 <= i < |base| ==> handed[i] == base[i] + Tag(step, For(outs, i))
  }

  lemma HandingNothing(base: seq<seq<Tagged>>, step: nat)
    ensures Handing(base, [], base, step)
  {
    forall i | 0 <= i < |base|
      ensures base[i] == base[i] + Tag(step, For([], i))
    {
      assert Tag(step, For([], i)) == [];
    }
  }

  lemma HandingOne(base: seq<seq<Tagged>>, outs: seq<Out>, handed: seq<seq<Tagged>>, step: nat, o: Out)
    requires Handing(base, outs, handed, step) && o.to < |base|
    ensures Handing(base, outs + [o], handed[o.to := handed[o.to] + [Tagged(step, o.msg)]], step)
  {
    hide For, Tag;
    var next := handed[o.to := handed[o.to] + [Tagged(step, o.msg)]];
    forall i | 0 <= i < |base|
      ensures next[i] == base[i] + Tag(step, For(outs + [o], i))
    {
      ForAppend(outs, o, i);
      TagAppend(step, For(outs, i), o.msg);
      assert For(outs, i) + [] == For(outs, i);
    }
  }

  /** If both of two clients get something of two different steps, they get it in the same
      order, whatever else either of them has missed. */
  lemma SameOrder(a: seq<Tagged>, b: seq<Tagged>, now: nat, i: nat, j: nat, k: nat, l: nat)
    requires InOrder(a, now) && InOrder(b, now)
    requires i < |a| && j < |a| && k < |b| && l < |b|
    requires a[i].step == b[k].step && a[j].step == b[l].step && a[i].step != a[j].step
    ensures i < j <==> k < l
  {
    if i < j {
      assert a[i].step <= a[j].step;
    } else {
      assert a[j].step <= a[i].step;
    }
    if k < l {
      assert b[k].step <= b[l].step;
    } else {
      assert b[l].step <= b[k].step;
    }
  }
}
