/**
 The four tiers: token buckets per source and per (source, group), sliding windows per (source,
 HashKey) and per SeqNum. What a token bucket answers is given from outside.
 */
module RateLimit {
  import opened Bytes
  import opened Keys
  import opened SlidingWindow
  import WindowLimiter

  // ----- configuration -----

  const MINUTE := 60_000_000_000

  datatype Config = Config(
    senderRate: real, senderWindow: int, chainRate: real, chainWindow: int,
    sequenceMax: int, sequenceWindow: int, groupRate: real, groupBurst: int)

  datatype Tiers = Tiers(chain: Policy, sequenceMax: int, sequenceWindow: nat, groupRate: real, groupBurst: nat)

  /** Conversion of a rate to a count drops the fraction toward zero. */
  function Truncate(r: real): (n: int)
  {
    if r >= 0.0 then r.Floor else -((-r).Floor)
  }

  /**
   The defaults and the Sender aliases: windows of a minute, counted in nanoseconds, 500 per chain,
   200 per second and group with bursts of 50. Every window ends up positive and every limit at least one,
   except that the sequence maximum is passed on as given.
   */
  function Normalise(cfg: Config): (t: Tiers)
    ensures t.chain.window > 0 && t.chain.max > 0 && t.sequenceWindow > 0
    ensures t.groupRate > 0.0 && t.groupBurst > 0
    ensures t.sequenceMax == cfg.sequenceMax
    ensures cfg.sequenceWindow > 0 ==> t.sequenceWindow == cfg.sequenceWindow
    ensures cfg.chainWindow > 0 ==> t.chain.window == cfg.chainWindow
    ensures cfg.chainWindow <= 0 && cfg.senderWindow > 0 ==> t.chain.window == cfg.senderWindow
    ensures cfg.chainRate >= 1.0 ==> t.chain.max == cfg.chainRate.Floor
    ensures cfg.chainRate == 0.0 && cfg.senderRate >= 1.0 ==> t.chain.max == cfg.senderRate.Floor
    ensures cfg.groupRate > 0.0 ==> t.groupRate == cfg.groupRate
    ensures cfg.groupBurst > 0 ==> t.groupBurst == cfg.groupBurst
    ensures cfg.sequenceWindow <= 0 ==> t.sequenceWindow == 60_000_000_000
    ensures cfg.chainWindow <= 0 && cfg.senderWindow <= 0 ==> t.chain.window == 60_000_000_000
    ensures cfg.chainRate < 1.0 && (cfg.chainRate != 0.0 || cfg.senderRate < 1.0) ==> t.chain.max == 500
    ensures cfg.groupRate <= 0.0 ==> t.groupRate == 200.0
    ensures cfg.groupBurst <= 0 ==> t.groupBurst == 50
  {
    var sequenceWindow := if cfg.sequenceWindow <= 0 then MINUTE else cfg.sequenceWindow;
    var chainRate := if cfg.chainRate == 0.0 && cfg.senderRate != 0.0 then cfg.senderRate else cfg.chainRate;
    var aliased := if cfg.chainWindow <= 0 && cfg.senderWindow > 0 then cfg.senderWindow else cfg.chainWindow;
    var chainWindow := if aliased <= 0 then MINUTE else aliased;
    var chainMax := if Truncate(chainRate) <= 0 then 500 else Truncate(chainRate);
    var groupRate := if cfg.groupRate <= 0.0 then 200.0 else cfg.groupRate;
    var groupBurst := if cfg.groupBurst <= 0 then 50 else cfg.groupBurst;
    Tiers(Policy(chainMax, chainWindow), cfg.sequenceMax, sequenceWindow, groupRate, groupBurst)
  }

  // ----- chain decisions depend on their own pair only -----

  datatype ChainCall = ChainCall(src: string, hashKey: Uint64, now: int)

  /** The calls that reach the chain limiter: an unstamped HashKey of zero bypasses it. */
  function ChainLog(calls: seq<ChainCall>): (log: seq<Call<string>>)
  {
    if calls == [] then []
    else
      var before, last := ChainLog(calls[..|calls| - 1]), calls[|calls| - 1];
      if last.hashKey == 0 then before else before + [Call(ChainKey(last.src, last.hashKey), last.now, 0)]
  }

  /** The readings of one (source, HashKey) pair's own calls. */
  function PairReadings(calls: seq<ChainCall>, src: string, hashKey: Uint64): (rs: seq<int>)
  {
    if calls == [] then []
    else
      var before, last := PairReadings(calls[..|calls| - 1], src, hashKey), calls[|calls| - 1];
      if last.src == src && last.hashKey == hashKey then before + [last.now] else before
  }

  lemma {:induction false} ChainReadingsArePairs(calls: seq<ChainCall>, src: string, hashKey: Uint64)
    requires hashKey != 0
    ensures Readings(ChainLog(calls), ChainKey(src, hashKey)) == PairReadings(calls, src, hashKey)
  {
    if calls != [] {
      hide ChainKey, Readings;
      var before, last := calls[..|calls| - 1], calls[|calls| - 1];
      ChainReadingsArePairs(before, src, hashKey);
      ChainKeyInjective(src, hashKey, last.src, last.hashKey);
      ReadingsStep(ChainLog(before), Call(ChainKey(last.src, last.hashKey), last.now, 0), ChainKey(src, hashKey));
    } else {
      assert Readings<string>([], ChainKey(src, hashKey)) == [];
    }
  }

  /**
   Non-interference of the chain tier: although keys are formatted text and source text contains
   colons, what is stored for a pair, and so its next decision, is that of a run of its own calls.
   */
  lemma ChainTierIsPerPair(p: Policy, calls: seq<ChainCall>, src: string, hashKey: Uint64, now: int)
    requires hashKey != 0
    ensures Entry(Entries(p, ChainLog(calls)), ChainKey(src, hashKey)) == List(p, PairReadings(calls, src, hashKey))
    ensures Admits(p, Entry(Entries(p, ChainLog(calls)), ChainKey(src, hashKey)), now)
            <==> Admits(p, List(p, PairReadings(calls, src, hashKey)), now)
  {
    KeysAreIndependent(p, ChainLog(calls), ChainKey(src, hashKey));
    ChainReadingsArePairs(calls, src, hashKey);
  }

  // ----- the limiter objects -----

  /** How often a bucket was asked, and how often it granted. */
  datatype Tally = Tally(asked: nat, granted: nat)

  function Asked(t: Tally, verdict: bool): (t': Tally)
  {
    Tally(t.asked + 1, if verdict then t.granted + 1 else t.granted)
  }

  /** A token bucket, seen from outside. */
  class Bucket {
    ghost const owner: object
    ghost var tally: Tally

    constructor (ghost owner: object)
      ensures this.owner == owner && tally == Tally(0, 0)
    {
      this.owner := owner;
      tally := Tally(0, 0);
    }

    method Ask(verdict: bool) returns (ok: bool)
      modifies this
      ensures ok == verdict && tally == Asked(old(tally), verdict)
    {
      tally := Asked(tally, verdict);
      ok := verdict;
    }
  }

  class TokenBuckets {
    var limit: map<string, Bucket>

    ghost function Buckets(): (objs: set<object>)
      reads this
      ensures forall o :: o in objs ==> o is Bucket
    {
      set k | k in limit :: limit[k]
    }

    /** No two keys have one bucket, and no bucket has two owners. */
    ghost predicate Valid()
      reads this
    {
      && (forall k :: k in limit ==> limit[k].owner == this)
      && (forall k1, k2 :: k1 in limit && k2 in limit && k1 != k2 ==> limit[k1] != limit[k2])
    }

    /** What was asked of a key's bucket; a key never seen has none. */
    ghost function TallyOf(key: string): (t: Tally)
      reads this, Buckets()
    {
      if key in limit then limit[key].tally else Tally(0, 0)
    }

    constructor ()
      ensures Valid() && limit == map[]
    {
      limit := map[];
    }

    /**
     A key gets one bucket the first time it is seen and keeps it for good; that bucket is asked, and
     no other.
     */
    method Allow(key: string, verdict: bool) returns (ok: bool)
      requires Valid()
      modifies this, if key in limit then {limit[key]} else {}
      ensures Valid() && ok == verdict && fresh(Buckets() - old(Buckets()))
      ensures limit.Keys == old(limit).Keys + {key}
      ensures forall k :: k in old(limit) ==> limit[k] == old(limit)[k]
      ensures TallyOf(key) == Asked(old(TallyOf(key)), verdict)
      ensures forall k :: k != key ==> TallyOf(k) == old(TallyOf(k))
    {
      if key !in limit {
        var made := new Bucket(this);
        limit := limit[key := made];
      }
      ok := limit[key].Ask(verdict);
    }
  }

  datatype Level = Passed | DroppedIP | DroppedSequence

  class Limiter {
    const ip: TokenBuckets
    const chain: WindowLimiter.Limiter<string>
    const sequence: WindowLimiter.Limiter<Uint64>
    const group: TokenBuckets

    /** The two windows share no entry. */
    ghost predicate Separate()
      reads chain`entries, sequence`entries
    {
      ip != group && chain.Footprint() !! sequence.Footprint()
    }

    constructor (tiers: Tiers)
      requires tiers.sequenceMax >= 0
      ensures ip.Valid() && chain.Valid() && sequence.Valid() && group.Valid() && Separate()
      ensures chain.policy == tiers.chain && chain.log == []
      ensures sequence.policy == Policy(tiers.sequenceMax, tiers.sequenceWindow) && sequence.log == []
      ensures fresh(ip) && fresh(chain) && fresh(sequence) && fresh(group)
      ensures chain.Footprint() == {} && sequence.Footprint() == {} && ip.limit == map[] && group.limit == map[]
    {
      ip := new TokenBuckets();
      chain := new WindowLimiter.Limiter<string>(tiers.chain);
      sequence := new WindowLimiter.Limiter<Uint64>(Policy(tiers.sequenceMax, tiers.sequenceWindow));
      group := new TokenBuckets();
    }

    /** Tier 3 on its own. */
    method AllowSequence(startSeq: Uint64, now: int, ghost who: nat) returns (ok: bool)
      requires sequence.Valid() && chain.Valid() && Separate()
      modifies sequence, sequence.Footprint()
      ensures sequence.Valid() && chain.Valid() && Separate()
      ensures fresh(sequence.Footprint() - old(sequence.Footprint()))
      ensures sequence.log == old(sequence.log) + [Call(startSeq, now, who)]
      ensures sequence.View() == SlidingWindow.Allow(sequence.policy, old(sequence.View()), startSeq, now)
      ensures ok <==> Admits(sequence.policy, Entry(old(sequence.View()), startSeq), now)
    {
      hide Survivors, List, Entries, Readings, Admissions, AdmittedAt, Stored, Admits;
      hide sequence.View, sequence.Sized, sequence.Separate;
      ok := sequence.Allow(startSeq, now, who);
    }

    /** Tier 1 on its own: the windows are not touched. */
    method AskIP(src: string, verdict: bool) returns (ok: bool)
      requires ip.Valid() && sequence.Valid() && chain.Valid() && Separate()
      modifies ip, ip.Buckets()
      ensures ip.Valid() && sequence.Valid() && chain.Valid() && Separate() && ok == verdict
      ensures fresh(ip.Buckets() - old(ip.Buckets()))
      ensures ip.TallyOf(src) == Asked(old(ip.TallyOf(src)), verdict)
      ensures forall k :: k != src ==> ip.TallyOf(k) == old(ip.TallyOf(k))
      ensures sequence.View() == old(sequence.View())
    {
      hide Survivors, List, Entries, Readings, Admissions, AdmittedAt, Stored, Admits;
      hide sequence.View, sequence.Sized, sequence.Separate;
      ok := ip.Allow(src, verdict);
    }

    /** Tiers 1 and 3: a source that is over its rate is dropped before the sequence window is touched. */
    method Allow(src: string, startSeq: Uint64, verdict: bool, now: int, ghost who: nat) returns (level: Level)
      requires ip.Valid() && sequence.Valid() && chain.Valid() && Separate()
      modifies ip, ip.Buckets(), sequence, sequence.Footprint()
      ensures ip.Valid() && sequence.Valid() && chain.Valid() && Separate()
      ensures fresh(ip.Buckets() - old(ip.Buckets())) && fresh(sequence.Footprint() - old(sequence.Footprint()))
      ensures ip.TallyOf(src) == Asked(old(ip.TallyOf(src)), verdict)
      ensures forall k :: k != src ==> ip.TallyOf(k) == old(ip.TallyOf(k))
      ensures level == DroppedIP <==> !verdict
      ensures !verdict ==> sequence.log == old(sequence.log) && sequence.View() == old(sequence.View())
      ensures verdict ==>
                && sequence.log == old(sequence.log) + [Call(startSeq, now, who)]
                && sequence.View() == SlidingWindow.Allow(sequence.policy, old(sequence.View()), startSeq, now)
                && (level == Passed <==> Admits(sequence.policy, Entry(old(sequence.View()), startSeq), now))
    {
      hide Survivors, List, Entries, Readings, Admissions, AdmittedAt, Stored, Admits;
      hide sequence.View, sequence.Sized, sequence.Separate, sequence.Valid, chain.Valid;
      var ok := AskIP(src, verdict);
      if !ok { return DroppedIP; }
      ok := AllowSequence(startSeq, now, who);
      level := if ok then Passed else DroppedSequence;
    }

    /** Tier 2: a HashKey of zero passes and leaves no trace. */
    method AllowChain(src: string, hashKey: Uint64, now: int, ghost who: nat) returns (ok: bool)
      requires chain.Valid() && sequence.Valid() && Separate()
      modifies chain, chain.Footprint()
      ensures chain.Valid() && sequence.Valid() && Separate()
      ensures fresh(chain.Footprint() - old(chain.Footprint()))
      ensures hashKey == 0 ==> ok && chain.log == old(chain.log) && chain.View() == old(chain.View())
      ensures hashKey != 0 ==>
                && chain.log == old(chain.log) + [Call(ChainKey(src, hashKey), now, who)]
                && chain.View() == SlidingWindow.Allow(chain.policy, old(chain.View()), ChainKey(src, hashKey), now)
                && (ok <==> Admits(chain.policy, Entry(old(chain.View()), ChainKey(src, hashKey)), now))
    {
      hide Survivors, List, Entries, Readings, Admissions, AdmittedAt, Stored, Admits, ChainKey;
      hide chain.View, chain.Sized, chain.Separate;
      if hashKey == 0 { return true; }
      ok := chain.Allow(ChainKey(src, hashKey), now, who);
    }

    /** Tier 4: the bucket of the (source, group) pair decides, and no other bucket is touched. */
    method AllowGroup(src: string, groupIdx: nat, verdict: bool) returns (ok: bool)
      requires group.Valid() && chain.Valid() && sequence.Valid() && ip.Valid() && Separate()
      modifies group, if GroupKey(src, groupIdx) in group.limit then {group.limit[GroupKey(src, groupIdx)]} else {}
      ensures group.Valid() && chain.Valid() && sequence.Valid() && ip.Valid() && Separate() && ok == verdict
      ensures fresh(group.Buckets() - old(group.Buckets()))
      ensures group.TallyOf(GroupKey(src, groupIdx)) == Asked(old(group.TallyOf(GroupKey(src, groupIdx))), verdict)
      ensures forall k :: k != GroupKey(src, groupIdx) ==> group.TallyOf(k) == old(group.TallyOf(k))
      ensures group.limit.Keys == old(group.limit).Keys + {GroupKey(src, groupIdx)}
      ensures forall k :: k in old(group.limit) ==> group.limit[k] == old(group.limit)[k]
    {
      hide GroupKey, Survivors, List, Entries, Readings, Admissions, AdmittedAt, Stored, Admits;
      hide chain.View, chain.Sized, chain.Separate;
      ok := group.Allow(GroupKey(src, groupIdx), verdict);
    }
  }
}
