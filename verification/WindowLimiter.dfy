/**
 The two sliding-window limiters of the rate limiter as the code runs them: a map of entries filled
 on demand, each holding a timestamp slice that is compacted in place. The chain limiter keys it by
 text, the sequence limiter by number; the code is the same.
 */
module WindowLimiter {
  import opened SlidingWindow

  /** A timestamp slice: a backing array made once, and the length in use. */
  class WindowEntry {
    const slots: array<int>
    var len: nat

    ghost predicate Valid()
      reads this
    {
      len <= slots.Length
    }

    ghost function Timestamps(): (ts: seq<int>)
      requires Valid()
      reads this, slots
    {
      slots[..len]
    }

    constructor (capacity: nat)
      ensures Valid() && Timestamps() == []
      ensures fresh(slots) && slots.Length == capacity
    {
      slots := new int[capacity];
      len := 0;
    }

    /** Moves the timestamps after the cutoff to the front, in order, and drops the rest. */
    method Compact(cutoff: int)
      requires Valid()
      modifies this, slots
      ensures Valid()
      ensures Timestamps() == Survivors(old(Timestamps()), cutoff)
    {
      ghost var ts := slots[..len];
      var validIdx, i := 0, 0;
      while i < len
        invariant 0 <= validIdx <= i <= len == |ts| <= slots.Length
        invariant slots[..validIdx] == Survivors(ts[..i], cutoff)
        invariant slots[i..len] == ts[i..]
      {
        var t := slots[i];
        assert t == slots[i..len][0] == ts[i];
        assert ts[..i + 1][..i] == ts[..i];
        assert slots[i + 1..len] == slots[i..len][1..] == ts[i + 1..];
        if t > cutoff {
          slots[validIdx] := t;
          assert slots[i + 1..len] == ts[i + 1..];
          validIdx := validIdx + 1;
          assert slots[..validIdx] == Survivors(ts[..i], cutoff) + [t];
        }
        i := i + 1;
      }
      assert ts[..len] == ts;
      len := validIdx;
    }

    /** The decision under the lock: compact, then append within the capacity, so the slice never grows. */
    method Admit(policy: Policy, now: int) returns (ok: bool)
      requires Valid() && slots.Length == policy.max
      modifies this, slots
      ensures Valid()
      ensures Timestamps() == Stored(policy, old(Timestamps()), now)
      ensures ok <==> Admits(policy, old(Timestamps()), now)
    {
      Compact(now - policy.window);
      ok := len < policy.max;
      if ok {
        slots[len] := now;
        len := len + 1;
      }
    }
  }

  class Limiter<K(==)> {
    const policy: Policy
    var entries: map<K, WindowEntry>
    ghost var log: seq<Call<K>>  // every call so far, in lock order

    ghost function Footprint(): (objs: set<object>)
      reads this`entries
      ensures forall o :: o in objs ==> o is WindowEntry || o is array<int>
    {
      (set k | k in entries :: entries[k]) + (set k | k in entries :: entries[k].slots)
    }

    ghost predicate Separate()
      reads this`entries
    {
      forall k1, k2 :: k1 in entries && k2 in entries && k1 != k2 ==>
        entries[k1] != entries[k2] && entries[k1].slots != entries[k2].slots
    }

    ghost predicate Sized()
      reads this`entries, Footprint()
    {
      forall k :: k in entries ==> entries[k].Valid() && entries[k].slots.Length == policy.max
    }

    /** What the limiter stores, as a value. */
    ghost function View(): (m: map<K, seq<int>>)
      requires Sized()
      reads this`entries, Footprint()
    {
      map k | k in entries :: entries[k].Timestamps()
    }

    ghost predicate Valid()
      reads this, Footprint()
    {
      Separate() && Sized() && View() == Entries(policy, log)
    }

    constructor (policy: Policy)
      ensures Valid() && this.policy == policy && log == [] && entries == map[]
    {
      this.policy := policy;
      entries := map[];
      log := [];
    }

    /** The key's entry, made with capacity max the first time the key is seen. */
    method EntryFor(key: K) returns (entry: WindowEntry)
      requires Separate() && Sized()
      modifies this`entries
      ensures Separate() && Sized() && key in entries && key in View() && entries[key] == entry
      ensures fresh(Footprint() - old(Footprint()))
      ensures View() == old(View())[key := Entry(old(View()), key)]
    {
      if key !in entries {
        var made := new WindowEntry(policy.max);
        entries := entries[key := made];
      }
      entry := entries[key];
      assert entry.Timestamps() == Entry(old(View()), key);
    }

    /** The entry's own update changes the stored list of its key and of no other. */
    method Update(key: K, now: int) returns (ok: bool)
      requires Separate() && Sized() && key in entries && key in View()
      modifies Footprint()
      ensures Separate() && Sized() && Footprint() == old(Footprint())
      ensures View() == old(View())[key := Stored(policy, old(View())[key], now)]
      ensures ok <==> Admits(policy, old(View())[key], now)
    {
      ghost var before := View();
      var entry := entries[key];
      ok := entry.Admit(policy, now);
      forall k | k in entries && k != key
        ensures entries[k].Valid() && entries[k].Timestamps() == before[k]
      {
        assert entries[k] != entry && entries[k].slots != entry.slots;
      }
      assert entry.Timestamps() == Stored(policy, before[key], now);
    }

    /** The whole call under the lock, on the stored lists. */
    method Decide(key: K, now: int) returns (ok: bool)
      requires Separate() && Sized()
      modifies this`entries, Footprint()
      ensures Separate() && Sized() && fresh(Footprint() - old(Footprint()))
      ensures View() == SlidingWindow.Allow(policy, old(View()), key, now)
      ensures ok <==> Admits(policy, Entry(old(View()), key), now)
    {
      hide Survivors, Stored, Admits, View, Sized, Separate, Footprint;
      ghost var before := View();
      var entry := EntryFor(key);
      ok := Update(key, now);
    }

    /**
     One call. The decision and the stored lists are those of the value model, every other key keeps
     its list, and a reading that is not behind an earlier one is judged against all admissions ever
     made for the key.
     */
    method Allow(key: K, now: int, ghost who: nat) returns (ok: bool)
      requires Valid()
      modifies this, Footprint()
      ensures Valid() && fresh(Footprint() - old(Footprint()))
      ensures log == old(log) + [Call(key, now, who)]
      ensures View() == SlidingWindow.Allow(policy, old(View()), key, now)
      ensures ok <==> Admits(policy, Entry(old(View()), key), now)
      ensures ok <==> AdmittedAt(policy, log, |log| - 1)
      ensures (forall r :: r in Readings(old(log), key) ==> r <= now) ==>
                (ok <==> |Survivors(Admissions(policy, Readings(old(log), key)), now - policy.window)| < policy.max)
    {
      hide Survivors, List, Entries, Readings, Admissions, AdmittedAt, Stored, Admits, View, Sized, Separate;
      ghost var call := Call(key, now, who);
      ok := Decide(key, now);
      EntriesStep(policy, log, call);
      DecisionStep(policy, log, call);
      if forall r :: r in Readings(log, key) ==> r <= now {
        HistoryStep(policy, log, key, now);
      }
      log := log + [call];
    }
  }

  lemma EntriesStep<K>(p: Policy, log: seq<Call<K>>, call: Call<K>)
    ensures Entries(p, log + [call]) == SlidingWindow.Allow(p, Entries(p, log), call.key, call.now)
  {
    hide Stored;
    assert (log + [call])[..|log|] == log;
  }

  lemma DecisionStep<K>(p: Policy, log: seq<Call<K>>, call: Call<K>)
    ensures AdmittedAt(p, log + [call], |log|) <==> Admits(p, Entry(Entries(p, log), call.key), call.now)
  {
    hide Survivors, List, Entries, Readings;
    assert (log + [call])[..|log|] == log;
    KeysAreIndependent(p, log, call.key);
  }

  lemma HistoryStep<K>(p: Policy, log: seq<Call<K>>, key: K, now: int)
    requires forall r :: r in Readings(log, key) ==> r <= now
    ensures Admits(p, Entry(Entries(p, log), key), now)
            <==> |Survivors(Admissions(p, Readings(log, key)), now - p.window)| < p.max
  {
    hide Survivors, List, Entries, Readings, Admissions;
    KeysAreIndependent(p, log, key);
    var rs := Readings(log, key);
    assert forall i :: 0 <= i < |rs| ==> rs[i] in rs;
    RefinesHistory(p, rs, now);
  }
}
