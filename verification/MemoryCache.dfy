/**
 The in-memory frame cache: a map with expiry deadlines, one arbitrary eviction when a store finds
 it full, and a background sweep. The specification it refines is a plain history: the last store
 of a key that was not deleted, as long as it has not expired.
 */
module MemoryCache {
  import opened Bytes
  import opened Options

  datatype Entry = Entry(value: ByteString, expires: int)

  type Data = map<ByteString, Entry>

  /** Operations in lock order, with the clock reading taken under the lock and the victims chosen. */
  datatype Op =
    | Store(key: ByteString, value: ByteString, ttl: int, now: int, victims: set<ByteString>)
    | Delete(key: ByteString)
    | Sweep(now: int)

  /** A limit of zero or less means none. */
  predicate Full(data: Data, maxKeys: int) {
    maxKeys > 0 && |data| >= maxKeys
  }

  /** A store on a full map evicts one entry, any one, even when it overwrites a key already there. */
  predicate VictimsOk(data: Data, maxKeys: int, victims: set<ByteString>) {
    victims <= data.Keys && |victims| == if Full(data, maxKeys) then 1 else 0
  }

  function Expired(e: Entry, now: int): bool { now > e.expires }

  function Apply(data: Data, op: Op): (data': Data)
  {
    match op
    case Store(key, value, ttl, now, victims) => (data - victims)[key := Entry(value, now + ttl)]
    case Delete(key) => data - {key}
    case Sweep(now) => map k | k in data && !Expired(data[k], now) :: data[k]
  }

  predicate Enabled(data: Data, maxKeys: int, op: Op) {
    op.Store? ==> VictimsOk(data, maxKeys, op.victims)
  }

  function Lookup(data: Data, key: ByteString, now: int): (v: Option<ByteString>)
  {
    if key in data && !Expired(data[key], now) then Some(data[key].value) else None
  }

  // ----- runs -----

  function Run(ops: seq<Op>): (data: Data)
  {
    if ops == [] then map[] else Apply(Run(ops[..|ops| - 1]), ops[|ops| - 1])
  }

  /** Every store evicted as the code does. */
  ghost predicate ValidRun(ops: seq<Op>, maxKeys: int) {
    forall i :: 0 <= i < |ops| ==> Enabled(Run(ops[..i]), maxKeys, ops[i])
  }

  /** No store or sweep read the clock after t. */
  ghost predicate ReadBy(ops: seq<Op>, t: int) {
    forall i :: 0 <= i < |ops| && !ops[i].Delete? ==> ops[i].now <= t
  }

  /** The specification: the latest store of the key unless a delete followed it. */
  function LastStore(ops: seq<Op>, key: ByteString): (e: Option<Entry>)
  {
    if ops == [] then None
    else
      match ops[|ops| - 1]
      case Store(k, value, ttl, now, _) =>
        if k == key then Some(Entry(value, now + ttl)) else LastStore(ops[..|ops| - 1], key)
      case Delete(k) => if k == key then None else LastStore(ops[..|ops| - 1], key)
      case Sweep(_) => LastStore(ops[..|ops| - 1], key)
  }

  function LookupSpec(ops: seq<Op>, key: ByteString, now: int): (v: Option<ByteString>)
  {
    match LastStore(ops, key)
    case Some(e) => if Expired(e, now) then None else Some(e.value)
    case None => None
  }

  lemma RunStep(ops: seq<Op>, op: Op)
    ensures Run(ops + [op]) == Apply(Run(ops), op)
  {
    assert (ops + [op])[..|ops|] == ops;
  }

  /** An entry that is present is the last store of its key, whatever was evicted or swept. */
  lemma {:induction false} PresentIsLast(ops: seq<Op>, key: ByteString)
    requires key in Run(ops)
    ensures LastStore(ops, key) == Some(Run(ops)[key])
  {
    if ops != [] {
      var before, op := ops[..|ops| - 1], ops[|ops| - 1];
      if !(op.Store? && op.key == key) {
        PresentIsLast(before, key);
      }
    }
  }

  /** With no limit a last store that is gone was swept, and so had expired by then. */
  lemma {:induction false} AbsentHasExpired(ops: seq<Op>, maxKeys: int, key: ByteString, t: int)
    requires maxKeys <= 0 && ValidRun(ops, maxKeys) && ReadBy(ops, t)
    requires LastStore(ops, key).Some? && key !in Run(ops)
    ensures Expired(LastStore(ops, key).value, t)
  {
    if ops != [] {
      var n := |ops| - 1;
      var before, op := ops[..n], ops[n];
      ValidPrefix(ops, maxKeys, n);
      hide ValidRun;
      if key in Run(before) {
        PresentIsLast(before, key);
      } else {
        AbsentHasExpired(before, maxKeys, key, t);
      }
    }
  }

  /** A last store is one of the operations, and no later one touched its key. */
  lemma {:induction false} LastStoreIsAnOp(ops: seq<Op>, key: ByteString) returns (i: nat)
    requires LastStore(ops, key).Some?
    ensures i < |ops| && ops[i].Store? && ops[i].key == key
    ensures LastStore(ops, key) == Some(Entry(ops[i].value, ops[i].now + ops[i].ttl))
    ensures forall j :: i < j < |ops| && !ops[j].Sweep? ==> ops[j].key != key
  {
    var n := |ops| - 1;
    if ops[n].Store? && ops[n].key == key {
      i := n;
    } else {
      i := LastStoreIsAnOp(ops[..n], key);
      assert forall j :: i < j < n ==> ops[..n][j] == ops[j];
    }
  }

  /** Without deletes, a key that was ever stored has a last store. */
  lemma {:induction false} StoredHasLast(ops: seq<Op>, key: ByteString, i: nat)
    requires i < |ops| && ops[i].Store? && ops[i].key == key
    requires forall j :: 0 <= j < |ops| ==> !ops[j].Delete?
    ensures LastStore(ops, key).Some?
  {
    var n := |ops| - 1;
    if i < n { StoredHasLast(ops[..n], key, i); }
  }

  /** With no limit the cache answers exactly as the history does, at every later time. */
  lemma UnboundedRefinesHistory(ops: seq<Op>, maxKeys: int, key: ByteString, now: int)
    requires maxKeys <= 0 && ValidRun(ops, maxKeys) && ReadBy(ops, now)
    ensures Lookup(Run(ops), key, now) == LookupSpec(ops, key, now)
  {
    if key in Run(ops) {
      PresentIsLast(ops, key);
    } else if LastStore(ops, key).Some? {
      AbsentHasExpired(ops, maxKeys, key, now);
    }
  }

  /** With any limit the cache may forget, but never answers with a value the history would not. */
  lemma BoundedNeverWrong(ops: seq<Op>, key: ByteString, now: int)
    ensures Lookup(Run(ops), key, now) == None || Lookup(Run(ops), key, now) == LookupSpec(ops, key, now)
  {
    if key in Run(ops) { PresentIsLast(ops, key); }
  }

  lemma {:induction false} SweepIgnored(pre: seq<Op>, t: int, post: seq<Op>, key: ByteString)
    ensures LastStore(pre + [Sweep(t)] + post, key) == LastStore(pre + post, key)
  {
    if post == [] {
      assert pre + post == pre && (pre + [Sweep(t)] + post)[..|pre|] == pre;
    } else {
      var rest, op := post[..|post| - 1], post[|post| - 1];
      SweepIgnored(pre, t, rest, key);
      assert (pre + post)[..|pre + post| - 1] == pre + rest;
      assert (pre + [Sweep(t)] + post)[..|pre| + |post|] == pre + [Sweep(t)] + rest;
    }
  }

  /** With no limit a run is valid exactly when no store evicted anything. */
  lemma UnboundedValid(ops: seq<Op>, maxKeys: int)
    requires maxKeys <= 0
    ensures ValidRun(ops, maxKeys) <==> forall i :: 0 <= i < |ops| && ops[i].Store? ==> ops[i].victims == {}
  {
    hide Run;
    if ValidRun(ops, maxKeys) {
      forall i | 0 <= i < |ops| && ops[i].Store? ensures ops[i].victims == {} {
        assert Enabled(Run(ops[..i]), maxKeys, ops[i]);
      }
    }
  }

  /** With no limit, inserting a sweep anywhere in a run changes no answer at that or any later time. */
  lemma SweepsInvisible(pre: seq<Op>, t: int, post: seq<Op>, maxKeys: int, key: ByteString, now: int)
    requires maxKeys <= 0 && ValidRun(pre + post, maxKeys)
    requires ReadBy(pre + [Sweep(t)] + post, now)
    ensures Lookup(Run(pre + [Sweep(t)] + post), key, now) == Lookup(Run(pre + post), key, now)
  {
    hide Run, ValidRun, LastStore;
    var with := pre + [Sweep(t)] + post;
    var without := pre + post;
    UnboundedValid(with, maxKeys);
    UnboundedValid(without, maxKeys);
    forall i | 0 <= i < |without| && !without[i].Delete? ensures without[i].now <= now {
      assert without[i] == with[if i < |pre| then i else i + 1];
    }
    forall i | 0 <= i < |with| && with[i].Store? ensures with[i].victims == {} {
      assert with[i] == without[if i < |pre| then i else i - 1];
    }
    SweepIgnored(pre, t, post, key);
    UnboundedRefinesHistory(with, maxKeys, key, now);
    UnboundedRefinesHistory(without, maxKeys, key, now);
  }

  // ----- what a sweep removes -----

  /** A sweep at t keeps exactly the entries that expire at t or later, as they were. */
  lemma SweepKeepsExactly(data: Data, t: int, key: ByteString)
    ensures key in Apply(data, Sweep(t)) <==> key in data && t <= data[key].expires
    ensures key in Apply(data, Sweep(t)) ==> Apply(data, Sweep(t))[key] == data[key]
  {
  }

  /** Stores after a sweep read the clock at its time or later and keep entries for some time. */
  ghost predicate StoresFrom(ops: seq<Op>, t: int) {
    forall i :: 0 <= i < |ops| && ops[i].Store? ==> ops[i].now >= t && ops[i].ttl >= 0
  }

  lemma {:induction false} NothingOlder(pre: seq<Op>, t: int, post: seq<Op>, key: ByteString)
    requires StoresFrom(post, t) && key in Run(pre + [Sweep(t)] + post)
    ensures t <= Run(pre + [Sweep(t)] + post)[key].expires
  {
    var ops := pre + [Sweep(t)] + post;
    if post == [] {
      assert ops == pre + [Sweep(t)];
      RunStep(pre, Sweep(t));
      SweepKeepsExactly(Run(pre), t, key);
    } else {
      var rest, op := post[..|post| - 1], post[|post| - 1];
      assert ops == (pre + [Sweep(t)] + rest) + [op];
      RunStep(pre + [Sweep(t)] + rest, op);
      if !(op.Store? && op.key == key) { NothingOlder(pre, t, rest, key); }
    }
  }

  /**
   In every run, after a sweep at t and whatever follows it, every entry present is the last store of
   its key and expires at t or later: what had expired by then is gone, so only stores still within
   their time to live at t, and later ones, take up room.
   */
  lemma SweptIsGone(pre: seq<Op>, t: int, post: seq<Op>, key: ByteString) returns (i: nat)
    requires StoresFrom(post, t) && key in Run(pre + [Sweep(t)] + post)
    ensures var ops := pre + [Sweep(t)] + post;
            && i < |ops| && ops[i].Store? && ops[i].key == key && t <= ops[i].now + ops[i].ttl
            && Run(ops)[key] == Entry(ops[i].value, ops[i].now + ops[i].ttl)
            && forall j :: i < j < |ops| && !ops[j].Sweep? ==> ops[j].key != key
  {
    hide Run, LastStore;
    NothingOlder(pre, t, post, key);
    PresentIsLast(pre + [Sweep(t)] + post, key);
    i := LastStoreIsAnOp(pre + [Sweep(t)] + post, key);
  }

  // ----- the limit -----

  lemma StoreSize(data: Data, maxKeys: int, op: Op)
    requires op.Store? && maxKeys > 0 && |data| <= maxKeys && VictimsOk(data, maxKeys, op.victims)
    ensures |Apply(data, op)| <= maxKeys
    ensures op.key in Apply(data, op)
    ensures data.Keys - Apply(data, op).Keys <= op.victims && |op.victims| <= 1
  {
    var kept := data - op.victims;
    assert kept.Keys == data.Keys - op.victims;
    assert |kept.Keys| == |data.Keys| - |op.victims|;
    assert Apply(data, op).Keys == kept.Keys + {op.key};
    assert |kept.Keys + {op.key}| <= |kept.Keys| + 1;
    assert |Apply(data, op).Keys| == |Apply(data, op)| && |data.Keys| == |data|;
  }

  lemma SubsetSize<T>(a: set<T>, b: set<T>)
    requires a <= b
    ensures |a| <= |b|
  {
    assert |b - a| + |a| == |b| by { assert b == (b - a) + a; }
  }

  /** In every reachable state with a limit the cache holds at most that many entries. */
  lemma {:induction false} NeverOverLimit(ops: seq<Op>, maxKeys: int)
    requires maxKeys > 0 && ValidRun(ops, maxKeys)
    ensures |Run(ops)| <= maxKeys
    ensures ops != [] && ops[|ops| - 1].Store? ==> ops[|ops| - 1].key in Run(ops)
  {
    if ops != [] {
      var n := |ops| - 1;
      var before, op := ops[..n], ops[n];
      ValidPrefix(ops, maxKeys, n);
      hide ValidRun;
      NeverOverLimit(before, maxKeys);
      if op.Store? {
        StoreSize(Run(before), maxKeys, op);
      } else {
        var after := Apply(Run(before), op);
        assert after.Keys <= Run(before).Keys;
        SubsetSize(after.Keys, Run(before).Keys);
        assert |after.Keys| == |after| && |Run(before).Keys| == |Run(before)|;
      }
    }
  }

  lemma OneMoreLoss(pre: seq<Op>, mid: seq<Op>, op: Op, maxKeys: int, n: nat)
    requires maxKeys > 0 && ValidRun(mid + [op], maxKeys) && op.Store?
    requires |Run(pre).Keys - Run(mid).Keys| <= n
    ensures |Run(pre).Keys - Run(mid + [op]).Keys| <= n + 1
  {
    hide Run, Apply, ValidRun;
    assert (mid + [op])[..|mid|] == mid;
    ValidPrefix(mid + [op], maxKeys, |mid|);
    NeverOverLimit(mid, maxKeys);
    RunStep(mid, op);
    StoreSize(Run(mid), maxKeys, op);
    LossGrows(Run(pre).Keys, Run(mid).Keys, Run(mid + [op]).Keys, op.victims);
  }

  /** n stores lose at most n of the entries present before them, whichever victims are chosen. */
  lemma {:induction false} StoresLoseAtMostOneEach(pre: seq<Op>, stores: seq<Op>, maxKeys: int)
    requires maxKeys > 0 && ValidRun(pre + stores, maxKeys)
    requires forall i :: 0 <= i < |stores| ==> stores[i].Store?
    ensures |Run(pre).Keys - Run(pre + stores).Keys| <= |stores|
  {
    hide Run, Apply, ValidRun;
    if stores == [] {
      assert pre + stores == pre;
      assert Run(pre).Keys - Run(pre).Keys == {};
    } else {
      var rest, op := stores[..|stores| - 1], stores[|stores| - 1];
      var mid := pre + rest;
      assert mid + [op] == pre + stores;
      assert (mid + [op])[..|mid|] == mid;
      ValidPrefix(mid + [op], maxKeys, |mid|);
      StoresLoseAtMostOneEach(pre, rest, maxKeys);
      OneMoreLoss(pre, mid, op, maxKeys, |rest|);
    }
  }

  lemma RoomForOne(data: Data, maxKeys: int, op: Op)
    requires op.Store? && VictimsOk(data, maxKeys, op.victims) && |data| < maxKeys
    ensures data.Keys <= Apply(data, op).Keys && |Apply(data, op)| <= |data| + 1
  {
    assert op.victims == {} && data - op.victims == data;
    assert Apply(data, op).Keys == data.Keys + {op.key};
    assert |data.Keys| == |data| && |Apply(data, op).Keys| == |Apply(data, op)|;
  }

  /** Stores that fit within the limit lose nothing. */
  lemma {:induction false} StoresThatFitLoseNothing(pre: seq<Op>, stores: seq<Op>, maxKeys: int)
    requires ValidRun(pre + stores, maxKeys) && |Run(pre)| + |stores| <= maxKeys
    requires forall i :: 0 <= i < |stores| ==> stores[i].Store?
    ensures Run(pre).Keys <= Run(pre + stores).Keys && |Run(pre + stores)| <= |Run(pre)| + |stores|
  {
    hide Run, Apply, ValidRun;
    if stores == [] {
      assert pre + stores == pre;
    } else {
      var rest, op := stores[..|stores| - 1], stores[|stores| - 1];
      var mid := pre + rest;
      assert mid + [op] == pre + stores;
      assert (mid + [op])[..|mid|] == mid;
      ValidPrefix(mid + [op], maxKeys, |mid|);
      StoresThatFitLoseNothing(pre, rest, maxKeys);
      RunStep(mid, op);
      RoomForOne(Run(mid), maxKeys, op);
    }
  }

  lemma LossGrows(a: set<ByteString>, b: set<ByteString>, c: set<ByteString>, victims: set<ByteString>)
    requires b - c <= victims && |victims| <= 1
    ensures |a - c| <= |a - b| + 1
  {
    SubsetSize(a - c, (a - b) + victims);
    assert |(a - b) + victims| <= |a - b| + |victims|;
  }

  lemma ValidPrefix(ops: seq<Op>, maxKeys: int, n: nat)
    requires n < |ops| && ValidRun(ops, maxKeys)
    ensures ValidRun(ops[..n], maxKeys) && Enabled(Run(ops[..n]), maxKeys, ops[n])
  {
    forall i | 0 <= i < n ensures Enabled(Run(ops[..n][..i]), maxKeys, ops[..n][i]) {
      assert ops[..n][..i] == ops[..i];
      assert Enabled(Run(ops[..i]), maxKeys, ops[i]);
    }
    assert Enabled(Run(ops[..n]), maxKeys, ops[n]);
  }

  // ----- the cache object -----

  class Cache {
    const maxKeys: int
    var data: Data
    ghost var ops: seq<Op>  // everything done so far, in lock order

    ghost predicate Valid()
      reads this
    {
      data == Run(ops) && ValidRun(ops, maxKeys)
    }

    constructor (maxKeys: int)
      ensures Valid() && this.maxKeys == maxKeys && ops == [] && data == map[]
    {
      this.maxKeys := maxKeys;
      data := map[];
      ops := [];
    }

    ghost method Record(op: Op)
      requires data == Apply(Run(ops), op) && ValidRun(ops, maxKeys) && Enabled(Run(ops), maxKeys, op)
      modifies this`ops
      ensures Valid() && ops == old(ops) + [op]
    {
      RunStep(ops, op);
      var all := ops + [op];
      forall i | 0 <= i < |all| ensures Enabled(Run(all[..i]), maxKeys, all[i]) {
        assert all[..i] == ops[..i];
        if i < |ops| {
          assert Enabled(Run(ops[..i]), maxKeys, ops[i]);
        } else {
          assert ops[..i] == ops;
        }
      }
      ops := all;
    }

    /** Stores under the key; a full cache first drops an arbitrary entry. */
    method Store(key: ByteString, value: ByteString, ttl: int, now: int) returns (ghost victims: set<ByteString>)
      requires Valid()
      modifies this
      ensures Valid() && ops == old(ops) + [Op.Store(key, value, ttl, now, victims)]
      ensures key in data && data[key] == Entry(value, now + ttl)
      ensures victims <= old(data).Keys && |victims| == if 0 < maxKeys <= |old(data)| then 1 else 0
      ensures forall k :: k != key ==> (k in data <==> k in old(data) && k !in victims)
      ensures forall k :: k != key && k in data ==> data[k] == old(data)[k]
      ensures VictimsOk(old(data), maxKeys, victims)
      ensures data == Apply(old(data), Op.Store(key, value, ttl, now, victims))
    {
      victims := {};
      if maxKeys > 0 && |data| >= maxKeys {
        assert data.Keys != {};
        var keyToRemove :| keyToRemove in data;
        victims := {keyToRemove};
        data := data - {keyToRemove};
      }
      data := data[key := Entry(value, now + ttl)];
      Record(Op.Store(key, value, ttl, now, victims));
    }

    /** Nil for a key that is absent or expired; otherwise the last value stored under it. */
    method Retrieve(key: ByteString, now: int) returns (value: Option<ByteString>)
      requires Valid()
      ensures value == Lookup(data, key, now)
      ensures value.Some? ==> value == LookupSpec(ops, key, now)
      ensures maxKeys <= 0 && ReadBy(ops, now) ==> value == LookupSpec(ops, key, now)
    {
      if key in data {
        var e := data[key];
        value := if now > e.expires then None else Some(e.value);
      } else {
        value := None;
      }
      BoundedNeverWrong(ops, key, now);
      if maxKeys <= 0 && ReadBy(ops, now) {
        UnboundedRefinesHistory(ops, maxKeys, key, now);
      }
    }

    method Delete(key: ByteString)
      requires Valid()
      modifies this
      ensures Valid() && ops == old(ops) + [Op.Delete(key)]
      ensures data == old(data) - {key}
    {
      data := data - {key};
      Record(Op.Delete(key));
    }

    /** The background sweep: visits every key once, in any order, and drops the expired ones. */
    method SweepExpired(now: int)
      requires Valid()
      modifies this
      ensures Valid() && ops == old(ops) + [Op.Sweep(now)]
      ensures data == Apply(old(data), Op.Sweep(now))
      ensures forall k :: k in data <==> k in old(data) && now <= old(data)[k].expires
      ensures forall k :: k in data ==> data[k] == old(data)[k]
    {
      hide Run, ValidRun;
      var todo := data.Keys;
      while todo != {}
        invariant todo <= old(data).Keys && ops == old(ops) && old(data) == Run(ops) && ValidRun(ops, maxKeys)
        invariant data.Keys <= old(data).Keys
        invariant forall k :: k in data ==> data[k] == old(data)[k]
        invariant forall k :: k in old(data) ==>
          (k in data <==> k in todo || !Expired(old(data)[k], now))
        decreases |todo|
      {
        var k :| k in todo;
        if now > data[k].expires {
          data := data - {k};
        }
        todo := todo - {k};
      }
      assert data == Apply(old(data), Op.Sweep(now));
      Record(Op.Sweep(now));
    }

    method Len() returns (n: nat)
      requires Valid()
      ensures n == |data|
      ensures maxKeys > 0 ==> n <= maxKeys
    {
      n := |data|;
      if maxKeys > 0 { NeverOverLimit(ops, maxKeys); }
    }
  }
}
