/**
 The sliding-window decision of the chain and sequence tiers, on values.

 A key's list of timestamps is filtered against a cutoff on every call and grows only when the
 filtered list is shorter than the maximum. The clock is read before the lock is taken, so the
 readings of one key need not arrive in order: `LagAtMost` bounds how far one may fall behind.
 */
module SlidingWindow {

  datatype Policy = Policy(max: nat, window: nat)

  /** The timestamps strictly after the cutoff, in order. */
  function Survivors(ts: seq<int>, cutoff: int): (kept: seq<int>)
    ensures |kept| <= |ts|
  {
    if ts == [] then []
    else
      var n := |ts| - 1;
      var rest := Survivors(ts[..n], cutoff);
      if ts[n] > cutoff then rest + [ts[n]] else rest
  }

  /** The decision of one call on the list stored for its key. */
  predicate Admits(p: Policy, ts: seq<int>, now: int) {
    |Survivors(ts, now - p.window)| < p.max
  }

  /** The list stored after one call. */
  function Stored(p: Policy, ts: seq<int>, now: int): (ts': seq<int>)
    ensures |ts| <= p.max ==> |ts'| <= p.max
  {
    var live := Survivors(ts, now - p.window);
    if |live| < p.max then live + [now] else live
  }

  /** The list stored for a key after its calls, given by their readings in lock order. */
  function List(p: Policy, calls: seq<int>): (ts: seq<int>)
    ensures |ts| <= p.max
  {
    if calls == [] then [] else Stored(p, List(p, calls[..|calls| - 1]), calls[|calls| - 1])
  }

  /** Every reading ever admitted for a key, in lock order: the history that is never pruned. */
  function Admissions(p: Policy, calls: seq<int>): (ts: seq<int>)
  {
    if calls == [] then []
    else
      var n := |calls| - 1;
      var before := Admissions(p, calls[..n]);
      if Admits(p, List(p, calls[..n]), calls[n]) then before + [calls[n]] else before
  }

  /** How many of the timestamps lie in [from, to). */
  function Within(ts: seq<int>, from: int, to: int): (n: nat)
  {
    if ts == [] then 0
    else
      var n := |ts| - 1;
      Within(ts[..n], from, to) + if from <= ts[n] < to then 1 else 0
  }

  /** No reading is more than d behind a reading that was processed before it. */
  ghost predicate LagAtMost(calls: seq<int>, d: nat) {
    forall i, j :: 0 <= i < j < |calls| ==> calls[i] - d <= calls[j]
  }

  // ----- filtering -----

  lemma {:induction false} SurvivorsMembers(ts: seq<int>, c: int)
    ensures forall t :: t in Survivors(ts, c) <==> t in ts && t > c
  {
    if ts != [] {
      SurvivorsMembers(ts[..|ts| - 1], c);
      assert ts == ts[..|ts| - 1] + [ts[|ts| - 1]];
    }
  }

  lemma {:induction false} SurvivorsTwice(ts: seq<int>, c1: int, c2: int)
    requires c1 <= c2
    ensures Survivors(Survivors(ts, c1), c2) == Survivors(ts, c2)
  {
    if ts != [] {
      var n := |ts| - 1;
      SurvivorsTwice(ts[..n], c1, c2);
      if ts[n] > c1 {
        var rest := Survivors(ts[..n], c1);
        assert (rest + [ts[n]])[..|rest|] == rest;
      }
    }
  }

  lemma {:induction false} SurvivorsAll(ts: seq<int>, c: int)
    requires forall i :: 0 <= i < |ts| ==> ts[i] > c
    ensures Survivors(ts, c) == ts
  {
    if ts != [] {
      var n := |ts| - 1;
      SurvivorsAll(ts[..n], c);
      assert ts == ts[..n] + [ts[n]];
    }
  }

  lemma {:induction false} SurvivorsNone(ts: seq<int>, c: int)
    requires forall i :: 0 <= i < |ts| ==> ts[i] <= c
    ensures Survivors(ts, c) == []
  {
    if ts != [] { SurvivorsNone(ts[..|ts| - 1], c); }
  }

  lemma {:induction false} SurvivorsFull(ts: seq<int>, c: int)
    requires |Survivors(ts, c)| == |ts|
    ensures Survivors(ts, c) == ts
  {
    if ts != [] {
      var n := |ts| - 1;
      SurvivorsFull(ts[..n], c);
      assert ts == ts[..n] + [ts[n]];
    }
  }

  lemma {:induction false} WithinSurvivors(ts: seq<int>, c: int, from: int, to: int)
    requires c < from
    ensures Within(ts, from, to) <= |Survivors(ts, c)|
  {
    if ts != [] {
      WithinSurvivors(ts[..|ts| - 1], c, from, to);
    }
  }

  lemma {:induction false} SurvivorsFewer(ts: seq<int>, c1: int, c2: int)
    requires c1 <= c2
    ensures |Survivors(ts, c2)| <= |Survivors(ts, c1)|
  {
    SurvivorsTwice(ts, c1, c2);
  }

  lemma SurvivorsAppend(ts: seq<int>, t: int, c: int)
    ensures t > c ==> Survivors(ts + [t], c) == Survivors(ts, c) + [t]
    ensures t <= c ==> Survivors(ts + [t], c) == Survivors(ts, c)
  {
    assert (ts + [t])[..|ts|] == ts;
  }

  lemma WithinAppend(ts: seq<int>, t: int, from: int, to: int)
    ensures Within(ts + [t], from, to) == Within(ts, from, to) + if from <= t < to then 1 else 0
  {
    assert (ts + [t])[..|ts|] == ts;
  }

  /** One more call: the list is stored anew and the history grows by the reading if it was admitted. */
  lemma OneMoreCall(p: Policy, calls: seq<int>, now: int)
    ensures List(p, calls + [now]) == Stored(p, List(p, calls), now)
    ensures Admits(p, List(p, calls), now) ==> Admissions(p, calls + [now]) == Admissions(p, calls) + [now]
    ensures !Admits(p, List(p, calls), now) ==> Admissions(p, calls + [now]) == Admissions(p, calls)
  {
    assert (calls + [now])[..|calls|] == calls;
  }

  // ----- what the pruned list still knows of the history -----

  lemma AgreeAfterCall(p: Policy, ts: seq<int>, history: seq<int>, now: int, c: int)
    requires now - p.window <= c
    requires Survivors(ts, c) == Survivors(history, c)
    ensures Admits(p, ts, now) ==> Survivors(Stored(p, ts, now), c) == Survivors(history + [now], c)
    ensures !Admits(p, ts, now) ==> Survivors(Stored(p, ts, now), c) == Survivors(history, c)
  {
    var live := Survivors(ts, now - p.window);
    SurvivorsTwice(ts, now - p.window, c);
    if Admits(p, ts, now) {
      SurvivorsAppend(live, now, c);
      SurvivorsAppend(history, now, c);
    }
  }

  /** Above every cutoff used so far the stored list and the full history agree. */
  lemma {:induction false} KeepsRecent(p: Policy, calls: seq<int>, c: int)
    requires forall i :: 0 <= i < |calls| ==> calls[i] - p.window <= c
    ensures Survivors(List(p, calls), c) == Survivors(Admissions(p, calls), c)
  {
    if calls != [] {
      var before, now := calls[..|calls| - 1], calls[|calls| - 1];
      assert calls == before + [now];
      KeepsRecent(p, before, c);
      OneMoreCall(p, before, now);
      AgreeAfterCall(p, List(p, before), Admissions(p, before), now, c);
    }
  }

  /**
   A call whose reading is not behind any earlier one sees the full history in the compacted list:
   it is admitted exactly when fewer than max of all admissions ever made lie after now - window,
   and what is then stored is exactly the surviving history, in order. With readings that never
   decrease in lock order this holds of every call.
   */
  lemma RefinesHistory(p: Policy, calls: seq<int>, now: int)
    requires forall i :: 0 <= i < |calls| ==> calls[i] <= now
    ensures Admits(p, List(p, calls), now)
            <==> |Survivors(Admissions(p, calls), now - p.window)| < p.max
    ensures p.window > 0 ==>
              List(p, calls + [now]) == Survivors(Admissions(p, calls + [now]), now - p.window)
    ensures |List(p, calls + [now])| <= p.max
  {
    hide List, Admissions, Survivors;
    KeepsRecent(p, calls, now - p.window);
    var history := Admissions(p, calls);
    OneMoreCall(p, calls, now);
    if p.window > 0 && Admits(p, List(p, calls), now) {
      SurvivorsAppend(history, now, now - p.window);
    }
  }

  lemma BoundAfterCall(p: Policy, ts: seq<int>, history: seq<int>, now: int, d: nat, from: int, to: int)
    requires to - from <= p.window - d
    requires Survivors(ts, now - p.window + d) == Survivors(history, now - p.window + d)
    requires Within(history, from, to) <= p.max
    requires Admits(p, ts, now)
    ensures Within(history + [now], from, to) <= p.max
  {
    WithinAppend(history, now, from, to);
    if from <= now < to {
      WithinSurvivors(history, now - p.window + d, from, to);
      SurvivorsFewer(ts, now - p.window, now - p.window + d);
    }
  }

  /** Under lag at most d, no interval of length window - d ever holds more than max admissions. */
  lemma {:induction false} SkewBound(p: Policy, calls: seq<int>, d: nat, from: int, to: int)
    requires LagAtMost(calls, d)
    requires to - from <= p.window - d
    ensures Within(Admissions(p, calls), from, to) <= p.max
  {
    if calls != [] {
      hide List, Admissions, Survivors, Stored, Admits, Within;
      var before, now := calls[..|calls| - 1], calls[|calls| - 1];
      assert calls == before + [now];
      SkewBound(p, before, d, from, to);
      OneMoreCall(p, before, now);
      forall i | 0 <= i < |before| ensures before[i] - p.window <= now - p.window + d {
        assert calls[i] - d <= calls[|calls| - 1];
      }
      KeepsRecent(p, before, now - p.window + d);
      if Admits(p, List(p, before), now) {
        BoundAfterCall(p, List(p, before), Admissions(p, before), now, d, from, to);
      }
    }
  }

  lemma SurvivorsOfOne(t: int, c: int)
    ensures Survivors([t], c) == if t > c then [t] else []
  {
    assert [t][..0] == [];
  }

  ghost predicate Spread(ts: seq<int>, gap: nat) {
    forall i, j :: 0 <= i < j < |ts| ==> ts[i] + gap <= ts[j]
  }

  lemma SpreadAppend(ts: seq<int>, gap: nat, t: int)
    requires Spread(ts, gap)
    requires ts != [] ==> ts[|ts| - 1] + gap <= t
    ensures Spread(ts + [t], gap)
  {
  }

  /** The decision and the new list of a limiter whose list holds at most one timestamp. */
  lemma SingleSlotCall(p: Policy, ts: seq<int>, now: int)
    requires p.max == 1 && |ts| <= 1
    ensures Admits(p, ts, now) <==> ts == [] || ts[0] + p.window <= now
    ensures Admits(p, ts, now) ==> Stored(p, ts, now) == [now]
    ensures !Admits(p, ts, now) ==> Stored(p, ts, now) == ts
  {
    hide Survivors;
    if ts == [] {
      SurvivorsNone(ts, now - p.window);
    } else {
      assert ts == [ts[0]];
      SurvivorsOfOne(ts[0], now - p.window);
    }
  }

  /** The list is empty with the history, and otherwise holds the last admission. */
  ghost predicate HoldsLast(ts: seq<int>, history: seq<int>) {
    if history == [] then ts == [] else ts == [history[|history| - 1]]
  }

  /** With a list of capacity one a later admission has always outlived the previous one. */
  lemma {:induction false} SingleSlotHistory(p: Policy, calls: seq<int>)
    requires p.max == 1
    ensures Spread(Admissions(p, calls), p.window)
    ensures HoldsLast(List(p, calls), Admissions(p, calls))
  {
    if calls != [] {
      hide List, Admissions, Survivors, Stored, Admits, Spread;
      var before, now := calls[..|calls| - 1], calls[|calls| - 1];
      assert calls == before + [now];
      SingleSlotHistory(p, before);
      OneMoreCall(p, before, now);
      SingleSlotCall(p, List(p, before), now);
      if Admits(p, List(p, before), now) {
        SpreadAppend(Admissions(p, before), p.window, now);
      }
    }
  }

  lemma {:induction false} WithinSpread(ts: seq<int>, gap: nat, from: int, to: int)
    requires Spread(ts, gap)
    requires to - from <= gap
    ensures Within(ts, from, to) <= 1
    ensures Within(ts, from, to) == 1 ==> exists i :: 0 <= i < |ts| && from <= ts[i] < to
  {
    if ts != [] {
      var n := |ts| - 1;
      WithinSpread(ts[..n], gap, from, to);
      if Within(ts[..n], from, to) == 1 {
        var i :| 0 <= i < |ts[..n]| && from <= ts[..n][i] < to;
        assert ts[i] + gap <= ts[n];
        assert from <= ts[i] < to;
      }
    }
  }

  lemma {:induction false} NoSlotNoAdmission(p: Policy, calls: seq<int>)
    requires p.max == 0
    ensures Admissions(p, calls) == []
  {
    if calls != [] { NoSlotNoAdmission(p, calls[..|calls| - 1]); }
  }

  function Zeros(k: nat): (zs: seq<int>)
    ensures |zs| == k && forall i :: 0 <= i < k ==> zs[i] == 0
  {
    if k == 0 then [] else Zeros(k - 1) + [0]
  }

  /** The run that shows the skew bound cannot be improved: max calls at 0, one at window, one d earlier. */
  function LateRun(p: Policy, d: nat): (calls: seq<int>)
  {
    Zeros(p.max) + [p.window, p.window - d]
  }

  lemma RoomForOneMore(p: Policy, ts: seq<int>, now: int)
    requires |ts| < p.max && forall i :: 0 <= i < |ts| ==> ts[i] > now - p.window
    ensures Admits(p, ts, now) && Stored(p, ts, now) == ts + [now]
  {
    hide Survivors;
    SurvivorsAll(ts, now - p.window);
  }

  lemma {:induction false} Burst(p: Policy, k: nat)
    requires k <= p.max && p.window > 0
    ensures List(p, Zeros(k)) == Zeros(k)
    ensures Admissions(p, Zeros(k)) == Zeros(k)
  {
    if k > 0 {
      var zs := Zeros(k - 1);
      assert Zeros(k) == zs + [0];
      hide List, Admissions, Stored, Admits, Zeros;
      Burst(p, k - 1);
      RoomForOneMore(p, zs, 0);
      OneMoreCall(p, zs, 0);
    }
  }

  lemma {:induction false} WithinAll(ts: seq<int>, from: int, to: int)
    requires forall i :: 0 <= i < |ts| ==> from <= ts[i] < to
    ensures Within(ts, from, to) == |ts|
  {
    if ts != [] {
      WithinAll(ts[..|ts| - 1], from, to);
    }
  }

  /** After the burst has expired one more call finds an empty list. */
  lemma CallAfterBurst(p: Policy, zs: seq<int>)
    requires p.max >= 2 && p.window > 0 && zs == Zeros(p.max)
    ensures List(p, zs + [p.window]) == [p.window]
    ensures Admissions(p, zs + [p.window]) == zs + [p.window]
  {
    hide List, Admissions, Survivors;
    Burst(p, p.max);
    OneMoreCall(p, zs, p.window);
    SurvivorsNone(zs, 0);
    assert [] + [p.window] == [p.window];
  }

  lemma LateRunAdmitsAll(p: Policy, d: nat)
    requires p.max >= 2 && p.window > 0
    ensures Admissions(p, LateRun(p, d)) == LateRun(p, d)
  {
    hide List, Admissions, Survivors;
    var zs := Zeros(p.max);
    var one := zs + [p.window];
    CallAfterBurst(p, zs);
    OneMoreCall(p, one, p.window - d);
    assert one + [p.window - d] == LateRun(p, d);
  }

  lemma LateRunExceeds(p: Policy, d: nat, to: int)
    requires p.max >= 2 && p.window > 0 && d <= p.window && to > p.window - d
    ensures LagAtMost(LateRun(p, d), d)
    ensures Within(Admissions(p, LateRun(p, d)), 0, to) > p.max
  {
    hide Within, Admissions;
    var zs := Zeros(p.max);
    LateRunAdmitsAll(p, d);
    WithinAll(zs, 0, to);
    WithinAppend(zs, p.window, 0, to);
    WithinAppend(zs + [p.window], p.window - d, 0, to);
    assert zs + [p.window] + [p.window - d] == LateRun(p, d);
  }

  ghost predicate Exceeds(p: Policy, calls: seq<int>, from: int, to: int) {
    Within(Admissions(p, calls), from, to) > p.max
  }

  ghost predicate BoundsEveryRun(p: Policy, d: nat, length: int) {
    forall calls, from, to ::
      LagAtMost(calls, d) && to == from + length ==> !Exceeds(p, calls, from, to)
  }

  lemma {:induction false} EmptyInterval(ts: seq<int>, from: int, to: int)
    requires to <= from
    ensures Within(ts, from, to) == 0
  {
    if ts != [] { EmptyInterval(ts[..|ts| - 1], from, to); }
  }

  /**
   Which interval lengths the limiter really bounds. With two or more slots it is exactly
   window - d, so the advertised full window holds only for readings in lock order (d = 0), and with
   a lag of a window or more nothing is bounded.
   */
  lemma ExactSkewBound(p: Policy, d: nat, length: int)
    requires p.max >= 2 && p.window > 0
    ensures BoundsEveryRun(p, d, length) <==> length <= 0 || length <= p.window - d
  {
    hide Admissions, Within;
    if length <= 0 || length <= p.window - d {
      forall calls, from, to | LagAtMost(calls, d) && to == from + length
        ensures !Exceeds(p, calls, from, to)
      {
        if length <= 0 {
          EmptyInterval(Admissions(p, calls), from, to);
        } else {
          SkewBound(p, calls, d, from, to);
        }
      }
    } else {
      var late := if d <= p.window then d else p.window;
      LateRunExceeds(p, late, length);
      assert LagAtMost(LateRun(p, late), d);
      assert Exceeds(p, LateRun(p, late), 0, length);
    }
  }

  /** With at most one slot the full window is bounded however late the readings arrive. */
  lemma SmallLimiterIgnoresSkew(p: Policy, calls: seq<int>, from: int, to: int)
    requires p.max <= 1 && to - from <= p.window
    ensures Within(Admissions(p, calls), from, to) <= p.max
  {
    if p.max == 0 {
      NoSlotNoAdmission(p, calls);
    } else {
      SingleSlotHistory(p, calls);
      WithinSpread(Admissions(p, calls), p.window, from, to);
    }
  }

  // ----- denied calls and quiet periods -----

  /** A denied call changes nothing at all, whatever the clock does: there was nothing to prune. */
  lemma DeniedKeepsList(p: Policy, ts: seq<int>, now: int)
    requires |ts| <= p.max && !Admits(p, ts, now)
    ensures Stored(p, ts, now) == ts
  {
    SurvivorsFull(ts, now - p.window);
  }

  /** Inserting or removing a denied call anywhere in a run changes no later decision and no list. */
  lemma {:induction false} DeniedLeavesNoTrace(p: Policy, pre: seq<int>, x: int, post: seq<int>)
    requires !Admits(p, List(p, pre), x)
    ensures List(p, pre + [x] + post) == List(p, pre + post)
    ensures Admissions(p, pre + [x] + post) == Admissions(p, pre + post)
  {
    hide List, Admissions;
    if post == [] {
      assert pre + post == pre && pre + [x] + post == pre + [x];
      OneMoreCall(p, pre, x);
      DeniedKeepsList(p, List(p, pre), x);
    } else {
      var rest, y := post[..|post| - 1], post[|post| - 1];
      DeniedLeavesNoTrace(p, pre, x, rest);
      var a, b := pre + rest, pre + [x] + rest;
      assert pre + post == a + [y];
      assert pre + [x] + post == b + [y];
      OneMoreCall(p, a, y);
      OneMoreCall(p, b, y);
    }
  }

  /** Replaying only the admitted calls admits every one of them again and stores the same list. */
  lemma {:induction false} AdmissionsReplay(p: Policy, calls: seq<int>)
    ensures Admissions(p, Admissions(p, calls)) == Admissions(p, calls)
    ensures List(p, Admissions(p, calls)) == List(p, calls)
  {
    if calls != [] {
      var before, now := calls[..|calls| - 1], calls[|calls| - 1];
      assert calls == before + [now];
      AdmissionsReplay(p, before);
      OneMoreCall(p, before, now);
      OneMoreCall(p, Admissions(p, before), now);
      if !Admits(p, List(p, before), now) {
        DeniedKeepsList(p, List(p, before), now);
      }
    }
  }

  lemma {:induction false} ListBounded(p: Policy, calls: seq<int>, t: int)
    requires forall i :: 0 <= i < |calls| ==> calls[i] <= t
    ensures forall i :: 0 <= i < |List(p, calls)| ==> List(p, calls)[i] <= t
  {
    if calls != [] {
      var before, now := calls[..|calls| - 1], calls[|calls| - 1];
      ListBounded(p, before, t);
      SurvivorsMembers(List(p, before), now - p.window);
      var live := Survivors(List(p, before), now - p.window);
      forall i | 0 <= i < |live| ensures live[i] <= t {
        assert live[i] in live;
      }
    }
  }

  lemma QuietCallAdmitted(p: Policy, calls: seq<int>, t: int, rest: seq<int>, now: int)
    requires forall i :: 0 <= i < |calls| ==> calls[i] <= t
    requires t + p.window <= now && |rest| < p.max
    requires rest != [] ==> |List(p, calls + rest)| <= |rest|
    ensures Admits(p, List(p, calls + rest), now)
    ensures |Stored(p, List(p, calls + rest), now)| <= |rest| + 1
  {
    hide List, Survivors;
    if rest == [] {
      assert calls + rest == calls;
      ListBounded(p, calls, t);
      SurvivorsNone(List(p, calls), now - p.window);
    }
  }

  /** After a quiet window the next max calls are all admitted, in whatever order they are read. */
  lemma {:induction false} QuietWindowRestoresCapacity(p: Policy, calls: seq<int>, t: int, burst: seq<int>)
    requires forall i :: 0 <= i < |calls| ==> calls[i] <= t
    requires forall i :: 0 <= i < |burst| ==> t + p.window <= burst[i]
    requires |burst| <= p.max
    ensures Admissions(p, calls + burst) == Admissions(p, calls) + burst
    ensures burst != [] ==> |List(p, calls + burst)| <= |burst|
  {
    hide List, Admissions;
    if burst == [] {
      assert calls + burst == calls;
      assert Admissions(p, calls) + burst == Admissions(p, calls);
    } else {
      var rest, now := burst[..|burst| - 1], burst[|burst| - 1];
      QuietWindowRestoresCapacity(p, calls, t, rest);
      QuietCallAdmitted(p, calls, t, rest, now);
      var all := calls + rest;
      assert calls + burst == all + [now];
      OneMoreCall(p, all, now);
      assert Admissions(p, calls) + burst == Admissions(p, calls) + rest + [now];
    }
  }

  // ----- many keys -----

  /** One call of the limiter: its key, its clock reading and the request it was made for. */
  datatype Call<K> = Call(key: K, now: int, who: nat)

  /** The list a map of entries holds for a key; a key never called has no entry. */
  function Entry<K>(entries: map<K, seq<int>>, key: K): (ts: seq<int>)
  {
    if key in entries then entries[key] else []
  }

  /** One call on the whole map: the entry is created on demand, even when the call is denied. */
  function Allow<K>(p: Policy, entries: map<K, seq<int>>, key: K, now: int): (entries': map<K, seq<int>>)
    ensures entries'.Keys == entries.Keys + {key}
    ensures forall k :: k in entries && k != key ==> entries'[k] == entries[k]
  {
    entries[key := Stored(p, Entry(entries, key), now)]
  }

  /** The map after a run of calls in lock order. */
  function Entries<K>(p: Policy, calls: seq<Call<K>>): (entries: map<K, seq<int>>)
  {
    if calls == [] then map[]
    else
      var last := calls[|calls| - 1];
      Allow(p, Entries(p, calls[..|calls| - 1]), last.key, last.now)
  }

  /** The readings of one key's calls, in lock order. */
  function Readings<K(==)>(calls: seq<Call<K>>, key: K): (rs: seq<int>)
  {
    if calls == [] then []
    else
      var last := calls[|calls| - 1];
      var before := Readings(calls[..|calls| - 1], key);
      if last.key == key then before + [last.now] else before
  }

  /** Keys do not interfere: each entry is what a run of that key's own calls alone would store. */
  lemma {:induction false} KeysAreIndependent<K>(p: Policy, calls: seq<Call<K>>, key: K)
    ensures Entry(Entries(p, calls), key) == List(p, Readings(calls, key))
  {
    if calls != [] {
      var before, last := calls[..|calls| - 1], calls[|calls| - 1];
      KeysAreIndependent(p, before, key);
      if last.key == key {
        OneMoreCall(p, Readings(before, key), last.now);
      }
    }
  }

  /** Whether the i-th call of a run was admitted. */
  predicate AdmittedAt<K(==)>(p: Policy, calls: seq<Call<K>>, i: nat)
    requires i < |calls|
  {
    Admits(p, List(p, Readings(calls[..i], calls[i].key)), calls[i].now)
  }

  /** The admitted calls of one key whose readings lie in [from, to). */
  ghost function AdmittedIn<K>(p: Policy, calls: seq<Call<K>>, key: K, from: int, to: int): (s: set<nat>)
  {
    set i: nat | i < |calls| && calls[i].key == key && AdmittedAt(p, calls, i) && from <= calls[i].now < to
  }

  lemma AdmittedInStep<K>(p: Policy, calls: seq<Call<K>>, last: Call<K>, key: K, from: int, to: int)
    ensures var all := calls + [last];
            AdmittedIn(p, all, key, from, to) == AdmittedIn(p, calls, key, from, to)
              + if last.key == key && Admits(p, List(p, Readings(calls, key)), last.now) && from <= last.now < to
                then {|calls|} else {}
  {
    var all := calls + [last];
    assert all[..|calls|] == calls;
    forall i: nat | i < |calls| ensures all[i] == calls[i] && AdmittedAt(p, all, i) == AdmittedAt(p, calls, i) {
      assert all[..i] == calls[..i];
    }
  }

  lemma ReadingsStep<K>(calls: seq<Call<K>>, last: Call<K>, key: K)
    ensures last.key == key ==> Readings(calls + [last], key) == Readings(calls, key) + [last.now]
    ensures last.key != key ==> Readings(calls + [last], key) == Readings(calls, key)
  {
    assert (calls + [last])[..|calls|] == calls;
  }

  lemma {:induction false} CountAdmitted<K>(p: Policy, calls: seq<Call<K>>, key: K, from: int, to: int)
    ensures |AdmittedIn(p, calls, key, from, to)|
            == Within(Admissions(p, Readings(calls, key)), from, to)
  {
    if calls == [] {
      assert AdmittedIn(p, calls, key, from, to) == {};
    } else {
      var before, last := calls[..|calls| - 1], calls[|calls| - 1];
      assert calls == before + [last];
      CountAdmitted(p, before, key, from, to);
      AdmittedInStep(p, before, last, key, from, to);
      ReadingsStep(before, last, key);
      var rs := Readings(before, key);
      if last.key == key {
        OneMoreCall(p, rs, last.now);
        WithinAppend(Admissions(p, rs), last.now, from, to);
      }
    }
  }

  /** No reading of the run is more than d behind one processed before it, whatever the keys. */
  ghost predicate RunLag<K>(calls: seq<Call<K>>, d: nat) {
    forall i, j :: 0 <= i < j < |calls| ==> calls[i].now - d <= calls[j].now
  }

  lemma {:induction false} ReadingsLag<K>(calls: seq<Call<K>>, key: K, d: nat)
    requires RunLag(calls, d)
    ensures LagAtMost(Readings(calls, key), d)
    ensures forall r :: r in Readings(calls, key) ==> exists i :: 0 <= i < |calls| && calls[i].now == r
  {
    if calls != [] {
      var n := |calls| - 1;
      var before := calls[..n];
      ReadingsLag(before, key, d);
      var rs := Readings(before, key);
      forall r | r in rs ensures exists i :: 0 <= i < n && calls[i].now == r {
        var i :| 0 <= i < |before| && before[i].now == r;
        assert calls[i].now == r;
      }
      forall k | 0 <= k < |rs| ensures rs[k] - d <= calls[n].now {
        assert rs[k] in rs;
        var i :| 0 <= i < n && calls[i].now == rs[k];
        assert calls[i].now - d <= calls[n].now;
      }
    }
  }

  /** The skew bound over a run of many keys: at most max admitted calls of one key per window - d. */
  lemma KeyedSkewBound<K>(p: Policy, calls: seq<Call<K>>, key: K, d: nat, from: int, to: int)
    requires RunLag(calls, d)
    requires to - from <= p.window - d
    ensures |AdmittedIn(p, calls, key, from, to)| <= p.max
  {
    ReadingsLag(calls, key, d);
    SkewBound(p, Readings(calls, key), d, from, to);
    CountAdmitted(p, calls, key, from, to);
  }

  /** While no reading is after the present, at most max admissions are less than a window old. */
  lemma RecentBound(p: Policy, calls: seq<int>, now: int)
    requires forall i :: 0 <= i < |calls| ==> calls[i] <= now
    ensures |Survivors(Admissions(p, calls), now - p.window)| <= p.max
  {
    hide Admissions, List, Survivors;
    KeepsRecent(p, calls, now - p.window);
  }

  lemma {:induction false} ReadingsBefore<K>(calls: seq<Call<K>>, key: K, to: int)
    requires forall i :: 0 <= i < |calls| ==> calls[i].now < to
    ensures forall i :: 0 <= i < |Readings(calls, key)| ==> Readings(calls, key)[i] < to
  {
    if calls != [] { ReadingsBefore(calls[..|calls| - 1], key, to); }
  }

  /** In a run that has not read past an interval's end, the full window is bounded whatever the lag. */
  lemma KeyedRecentBound<K>(p: Policy, calls: seq<Call<K>>, key: K, from: int, to: int)
    requires forall i :: 0 <= i < |calls| ==> calls[i].now < to
    requires to - from <= p.window
    ensures |AdmittedIn(p, calls, key, from, to)| <= p.max
  {
    hide Admissions, Survivors, Readings, AdmittedIn;
    var rs := Readings(calls, key);
    ReadingsBefore(calls, key, to);
    RecentBound(p, rs, to - 1);
    WithinSurvivors(Admissions(p, rs), to - 1 - p.window, from, to);
    CountAdmitted(p, calls, key, from, to);
  }
}
