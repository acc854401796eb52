/** What the endpoint guarantees over every run, however its steps interleave. */
module EndpointTheorems {
  import opened Options
  import opened Keys
  import B = Bytes
  import W = SlidingWindow
  import N = Nack
  import D = Dedup
  import R = Retransmit
  import M = MemoryCache
  import opened Endpoint
  import opened EndpointInvariants
  import opened EndpointRuns
  import opened LookupBounds
  import J = Justification

  lemma StoredListFits<K>(p: W.Policy, log: seq<W.Call<K>>, key: K)
    ensures |W.Entry(W.Entries(p, log), key)| <= p.max
  {
    W.KeysAreIndependent(p, log, key);
  }

  lemma DeniedKeepsEntries<K>(p: W.Policy, log: seq<W.Call<K>>, key: K, now: int, k: K)
    requires !W.Admits(p, W.Entry(W.Entries(p, log), key), now)
    ensures W.Entry(W.Allow(p, W.Entries(p, log), key, now), k) == W.Entry(W.Entries(p, log), k)
  {
    hide W.Entries, W.Survivors;
    StoredListFits(p, log, key);
    W.DeniedKeepsList(p, W.Entry(W.Entries(p, log), key), now);
  }

  /** A drop at the sequence tier leaves the chain tier untouched and every stored list as it was. */
  lemma DropAtSequence(c: Config, s: State, t: nat, reading: int)
    requires Inv(c, s) && Enabled(c, s, AskSeq(t, reading)) && DoSeq(c, s, t, reading).tasks[t].stage == DropSeq
    ensures var s' := DoSeq(c, s, t, reading);
            && s'.win.chainLog == s.win.chainLog && s'.win.chains == s.win.chains
            && s'.cache == s.cache && s'.grants == s.grants && s'.out == s.out
            && forall k :: W.Entry(s'.win.seqs, k) == W.Entry(s.win.seqs, k)
  {
    hide CacheInv, TaskInv, TimeInv, ReplyInv, EgressInv, MetricsInv, N.Parse, W.Entries, W.Allow, W.Admits;
    var key := SeqNum(s.tasks[t]);
    forall k ensures W.Entry(DoSeq(c, s, t, reading).win.seqs, k) == W.Entry(s.win.seqs, k) {
      DeniedKeepsEntries(c.seqPolicy, s.win.seqLog, key, reading, k);
    }
  }

  /**
   A drop at the chain tier leaves every stored list as it was, and the NACK's sequence admission stays
   spent.
   */
  lemma DropAtChain(c: Config, s: State, t: nat, reading: int)
    requires Inv(c, s) && Enabled(c, s, AskChain(t, reading)) && DoChain(c, s, t, reading).tasks[t].stage == DropChain
    ensures var s' := DoChain(c, s, t, reading);
            && s'.win.seqLog == s.win.seqLog && SeqOk(c, s', t, s'.tasks[t])
            && s'.cache == s.cache && s'.grants == s.grants && s'.out == s.out
            && forall k :: W.Entry(s'.win.chains, k) == W.Entry(s.win.chains, k)
  {
    hide CacheInv, TimeInv, ReplyInv, EgressInv, MetricsInv, N.Parse, W.AdmittedAt, ChainKey, W.Entries, W.Allow,
         W.Admits;
    assert TaskOk(c, s, t, s.tasks[t]);
    var key := ChainKey(Source(s.tasks[t]), HashKey(s.tasks[t]));
    forall k ensures W.Entry(DoChain(c, s, t, reading).win.chains, k) == W.Entry(s.win.chains, k) {
      DeniedKeepsEntries(c.chainPolicy, s.win.chainLog, key, reading, k);
    }
  }

  // ----- the group tier and the egress group -----

  /** NACKs of a source past the group tier whose frame is routed to a shard group. */
  ghost function RoutedToShard(c: Config, s: State, src: string, g: nat): (ts: set<nat>)
  {
    set t: nat | t < |s.tasks| && PastGroup(s.tasks[t].stage) && Source(s.tasks[t]) == src
                 && s.tasks[t].look.raw.Some? && Routed(c, s.tasks[t].look.raw.value, D.Shard(g))
  }

  ghost predicate WroteTo(s: State, t: nat, dest: D.Dest) {
    exists e :: 0 <= e < |s.out.egress| && s.out.egress[e].task == t && s.out.egress[e].sending.dest == dest
  }

  /** NACKs of a source for which some socket, if not all, wrote a frame to a group. */
  ghost function Writers(s: State, src: string, dest: D.Dest): (ts: set<nat>)
  {
    set t: nat | t < |s.tasks| && Source(s.tasks[t]) == src && WroteTo(s, t, dest)
  }

  /** What the bucket of a (source, group) pair has granted. */
  ghost function GrantsOf(s: State, src: string, g: nat): (grants: set<nat>)
  {
    set i: nat | i < |s.grants| && s.grants[i].key == GroupKey(src, g) && s.grants[i].verdict
  }

  lemma RoutedIsGranted(c: Config, s: State, src: string, g: nat, t: nat)
    requires Inv(c, s) && c.hasEngine && t in RoutedToShard(c, s, src, g)
    ensures t < |s.tasks| && s.tasks[t].grantIx in GrantsOf(s, src, g)
    ensures s.tasks[t].grantIx < |s.grants| && s.grants[s.tasks[t].grantIx].task == t
  {
    hide CacheInv, TimeInv, ReplyInv, EgressInv, MetricsInv, LimitInv, N.Parse, GroupKey, TxID, SeqOk, ChainOk, LookOk;
    hide Routed;
    assert TaskOk(c, s, t, s.tasks[t]);
    RoutedExactly(c, s.tasks[t].look.raw.value, D.Shard(g));
  }

  lemma WriterIsRouted(c: Config, s: State, src: string, g: nat, t: nat)
    requires Inv(c, s) && t in Writers(s, src, D.Shard(g))
    ensures t in RoutedToShard(c, s, src, g)
  {
    hide LimitInv, CacheInv, TaskInv, TimeInv, ReplyInv, MetricsInv, LoopOk, OncePerSocket, DestOf, Routed;
    var e :| 0 <= e < |s.out.egress| && s.out.egress[e].task == t && s.out.egress[e].sending.dest == D.Shard(g);
    assert EgressOk(c, s, s.out.egress[e]);
    RoutedExactly(c, s.out.egress[e].sending.raw, D.Shard(g));
  }

  /**
   Over every run, shard-routed retransmits for a source to a group, those whose write loop failed
   halfway included, number at most the grants of that pair's own bucket: server and retransmitter
   derive the group from the same TxID.
   */
  lemma ShardRetransmitsAreGranted(c: Config, steps: seq<Step>, src: string, g: nat)
    requires CanRun(c, steps) && c.hasEngine
    ensures |RoutedToShard(c, Run(c, steps), src, g)| <= |GrantsOf(Run(c, steps), src, g)|
    ensures |Writers(Run(c, steps), src, D.Shard(g))| <= |GrantsOf(Run(c, steps), src, g)|
  {
    RunInv(c, steps);
    hide Run, CanRun, Inv, RoutedToShard, GrantsOf, Writers;
    var s := Run(c, steps);
    var a := RoutedToShard(c, s, src, g);
    forall t | t in a ensures t < |s.tasks| { RoutedIsGranted(c, s, src, g, t); }
    var f := map t | t in a :: s.tasks[t].grantIx;
    forall t | t in a
      ensures f[t] in GrantsOf(s, src, g) && f[t] < |s.grants| && s.grants[f[t]].task == t
    {
      RoutedIsGranted(c, s, src, g, t);
    }
    InjectionBound(a, GrantsOf(s, src, g), f);
    var b := Writers(s, src, D.Shard(g));
    forall t | t in b ensures t in a { WriterIsRouted(c, s, src, g, t); }
    M.SubsetSize(b, a);
  }

  // ----- no bucket bounds a control group -----

  lemma {:induction false} Enumerate(names: set<string>) returns (order: seq<string>)
    ensures Distinct(order) && forall name :: name in order <==> name in names
  {
    if names == {} {
      order := [];
    } else {
      var name :| name in names;
      order := Enumerate(names - {name});
      order := order + [name];
    }
  }

  /** A cleared NACK's frame goes out on every socket. */
  lemma SendCleared(c: Config, run: seq<Step>, t: nat) returns (run': seq<Step>)
    requires CanRun(c, run) && At(Run(c, run), t, Cleared) && Run(c, run).tasks[t].look.raw.Some?
    ensures CanRun(c, run')
    ensures var s, s' := Run(c, run), Run(c, run');
            s'.tasks == s.tasks[t := s.tasks[t].(stage := Sent)] && s'.grants == s.grants
  {
    hide Run, CanRun, N.Parse, N.Ack, DestOf, Writes, D.DedupKey;
    var order := Enumerate(c.sockets);
    var step := Retransmit(t, Attempt(R.Set, order, true));
    Extend(c, run, step);
    run' := run + [step];
  }

  /**
   A stamped frame that goes to a group of its own, whatever its TxID: block and anchor frames to the
   control group, subtree frames to the subtree-announce group.
   */
  ghost predicate ControlFrame(c: Config, raw: B.ByteString, dest: D.Dest) {
    && |raw| >= 7 && ((raw[6] in {4, 6} && dest == D.Control) || (raw[6] == 5 && dest == D.SubtreeAnnounce))
    && exists h, n :: Stamped(c, raw, h, n)
  }

  function GroupOf(c: Config, raw: B.ByteString): (g: nat) { c.groupIndex(TxID(raw)) }

  /** Each frame was asked for by the source and sent, each granted once by the bucket of its own TxID. */
  ghost predicate AllSent(c: Config, s: State, frames: seq<B.ByteString>, src: string) {
    && |s.tasks| == |frames| && |s.grants| == |frames|
    && (forall i :: 0 <= i < |frames| ==>
          s.tasks[i].stage == Sent && s.tasks[i].src == Some(src) && s.tasks[i].look.raw == Some(frames[i]))
    && (forall i :: 0 <= i < |frames| ==> s.grants[i] == Grant(i, GroupKey(src, GroupOf(c, frames[i])), true))
  }

  lemma OneMoreSent(c: Config, run: seq<Step>, frames: seq<B.ByteString>, raw: B.ByteString, src: string, dest: D.Dest)
    returns (run': seq<Step>)
    requires CanRun(c, run) && AllSent(c, Run(c, run), frames, src) && ControlFrame(c, raw, dest)
    requires c.hasEngine && c.seqPolicy.max >= 1 && c.chainPolicy.max >= 1 && c.ttl >= 0
    ensures CanRun(c, run') && AllSent(c, Run(c, run'), frames + [raw], src)
  {
    hide Run, CanRun, NackFor, GroupKey, TxID, Quiet, Stamped, N.Parse;
    var h, n :| Stamped(c, raw, h, n);
    var dt := c.seqPolicy.window + c.chainPolicy.window;
    WaitForQuiet(c, run, dt);
    var r1 := run + [Tick(dt)];
    var r2 := Fetch(c, r1, raw, Some(src), h, n);
    run' := SendCleared(c, r2, |frames|);
    var s1, s2 := Run(c, r2), Run(c, run');
    forall i | 0 <= i < |frames| ensures s2.tasks[i] == Run(c, run).tasks[i] {
      assert s1.tasks[i] == s1.tasks[..|frames|][i];
    }
  }

  lemma {:induction false} SendAll(c: Config, frames: seq<B.ByteString>, src: string, dest: D.Dest)
    returns (run: seq<Step>)
    requires forall i :: 0 <= i < |frames| ==> ControlFrame(c, frames[i], dest)
    requires c.hasEngine && c.seqPolicy.max >= 1 && c.chainPolicy.max >= 1 && c.ttl >= 0
    ensures CanRun(c, run) && AllSent(c, Run(c, run), frames, src)
  {
    if frames == [] {
      run := [];
    } else {
      var n := |frames| - 1;
      hide Run, CanRun, ControlFrame, AllSent;
      var before := SendAll(c, frames[..n], src, dest);
      run := OneMoreSent(c, before, frames[..n], frames[n], src, dest);
      assert frames[..n] + [frames[n]] == frames;
    }
  }

  lemma OneGrantEach(c: Config, s: State, frames: seq<B.ByteString>, src: string, g: nat)
    requires AllSent(c, s, frames, src)
    requires forall i, j :: 0 <= i < j < |frames| ==> GroupOf(c, frames[i]) != GroupOf(c, frames[j])
    ensures |GrantsOf(s, src, g)| <= 1
  {
    hide GroupKey, GroupOf;
    var a := GrantsOf(s, src, g);
    forall i, j | i in a && j in a ensures i == j {
      GroupKeyInjective(src, GroupOf(c, frames[i]), src, g);
      GroupKeyInjective(src, GroupOf(c, frames[j]), src, g);
    }
    if a != {} {
      var x :| x in a;
      assert a == {x};
    }
  }

  lemma SentOne(c: Config, s: State, frames: seq<B.ByteString>, src: string, t: nat)
    requires AllSent(c, s, frames, src) && t < |frames|
    ensures t < |s.tasks| && s.tasks[t].stage == Sent && s.tasks[t].src == Some(src)
    ensures s.tasks[t].look.raw == Some(frames[t])
  {
  }

  lemma SentIsControl(c: Config, run: seq<Step>, frames: seq<B.ByteString>, src: string, dest: D.Dest, t: nat)
    requires CanRun(c, run) && AllSent(c, Run(c, run), frames, src)
    requires t < |frames| && ControlFrame(c, frames[t], dest) && c.sockets != {}
    ensures t in Writers(Run(c, run), src, dest)
  {
    RunInv(c, run);
    hide Run, CanRun, Inv, ControlFrame, GroupKey, WroteTo, WroteAll, AllSent;
    SentOne(c, Run(c, run), frames, src, t);
    J.SentOnEverySocket(c, run, t);
    ControlWritten(c, Run(c, run), t, frames[t], dest);
  }

  lemma ControlWritten(c: Config, s: State, t: nat, raw: B.ByteString, dest: D.Dest)
    requires Inv(c, s) && t < |s.tasks| && s.tasks[t].look.raw == Some(raw) && ControlFrame(c, raw, dest)
    requires WroteAll(c, s.out.egress, t) && c.sockets != {}
    ensures WroteTo(s, t, dest)
  {
    hide LimitInv, CacheInv, TaskInv, TimeInv, ReplyInv, MetricsInv, LoopOk, OncePerSocket, TxID, Stamped;
    var name :| name in c.sockets;
    assert Wrote(s.out.egress, t, name);
    var e :| 0 <= e < |s.out.egress| && s.out.egress[e].task == t && s.out.egress[e].sending.iface == name;
    assert EgressOk(c, s, s.out.egress[e]);
  }

  /**
   However many frames there are for the control group whose TxIDs fall into different shards, a run
   sends all of them to that group for one source while no bucket of that source grants more than
   once: no bucket bounds what a source can have sent to the control group, nor to the
   subtree-announce group.
   */
  lemma ControlFramesSpreadOverBuckets(c: Config, frames: seq<B.ByteString>, src: string, dest: D.Dest)
    returns (run: seq<Step>)
    requires forall i :: 0 <= i < |frames| ==> ControlFrame(c, frames[i], dest)
    requires forall i, j :: 0 <= i < j < |frames| ==> GroupOf(c, frames[i]) != GroupOf(c, frames[j])
    requires c.hasEngine && c.seqPolicy.max >= 1 && c.chainPolicy.max >= 1 && c.ttl >= 0 && c.sockets != {}
    ensures CanRun(c, run)
    ensures |Writers(Run(c, run), src, dest)| >= |frames|
    ensures forall g: nat :: |GrantsOf(Run(c, run), src, g)| <= 1
  {
    hide Run, CanRun, ControlFrame, AllSent, GroupOf, GrantsOf, Writers;
    run := SendAll(c, frames, src, dest);
    var s := Run(c, run);
    forall t: nat | t < |frames| ensures t in Writers(s, src, dest) { SentIsControl(c, run, frames, src, dest, t); }
    CountUpTo(Writers(s, src, dest), |frames|);
    forall g: nat ensures |GrantsOf(s, src, g)| <= 1 { OneGrantEach(c, s, frames, src, g); }
  }

  // ----- the counters add up -----

  /** How many NACKs are at one of the stages. */
  function Count(tasks: seq<Task>, stages: set<Stage>): (n: nat)
  {
    if tasks == [] then 0
    else
      var before := Count(tasks[..|tasks| - 1], stages);
      if tasks[|tasks| - 1].stage in stages then before + 1 else before
  }

  lemma {:induction false} CountSplit(tasks: seq<Task>, a: set<Stage>, b: set<Stage>)
    requires a !! b
    ensures Count(tasks, a + b) == Count(tasks, a) + Count(tasks, b)
  {
    if tasks != [] { CountSplit(tasks[..|tasks| - 1], a, b); }
  }

  lemma {:induction false} CountEveryone(tasks: seq<Task>, all: set<Stage>)
    requires forall i :: 0 <= i < |tasks| ==> tasks[i].stage in all
    ensures Count(tasks, all) == |tasks|
  {
    if tasks != [] { CountEveryone(tasks[..|tasks| - 1], all); }
  }

  lemma {:induction false} NoneCounted(tasks: seq<Task>, stages: set<Stage>)
    requires forall i :: 0 <= i < |tasks| ==> tasks[i].stage !in stages
    ensures Count(tasks, stages) == 0
  {
    if tasks != [] { NoneCounted(tasks[..|tasks| - 1], stages); }
  }

  /** A counter that a NACK raises by one exactly at some stages counts the NACKs at those stages. */
  lemma {:induction false} CounterIsCount(tasks: seq<Task>, field: Metrics -> nat, stages: set<Stage>)
    requires field(Total([])) == 0
    requires forall a, b :: field(Plus(a, b)) == field(a) + field(b)
    requires forall stage :: field(Mark(stage)) == if stage in stages then 1 else 0
    ensures field(Total(tasks)) == Count(tasks, stages)
  {
    if tasks != [] {
      hide Plus, Mark;
      CounterIsCount(tasks[..|tasks| - 1], field, stages);
    }
  }

  const MOVING: set<Stage> := {Fresh, PassedIP, PassedSeq, PassedChain}
  const HITS: set<Stage> := {Found, Cleared, Throttled, Sent, Suppressed, SendFailed}
  const UNSERVED: set<Stage> := {Endpoint.Invalid, Endpoint.Range, LookupFailed}

  lemma IpDropsCounted(tasks: seq<Task>)
    ensures Total(tasks).ipDrops == Count(tasks, {DropIP})
  {
    CounterIsCount(tasks, (m: Metrics) => m.ipDrops, {DropIP});
  }

  lemma SeqDropsCounted(tasks: seq<Task>)
    ensures Total(tasks).seqDrops == Count(tasks, {DropSeq})
  {
    CounterIsCount(tasks, (m: Metrics) => m.seqDrops, {DropSeq});
  }

  lemma ChainDropsCounted(tasks: seq<Task>)
    ensures Total(tasks).chainDrops == Count(tasks, {DropChain})
  {
    CounterIsCount(tasks, (m: Metrics) => m.chainDrops, {DropChain});
  }

  lemma GroupDropsCounted(tasks: seq<Task>)
    ensures Total(tasks).groupDrops == Count(tasks, {Throttled})
  {
    CounterIsCount(tasks, (m: Metrics) => m.groupDrops, {Throttled});
  }

  lemma MissesCounted(tasks: seq<Task>)
    ensures Total(tasks).misses == Count(tasks, {Missed})
  {
    CounterIsCount(tasks, (m: Metrics) => m.misses, {Missed});
  }

  lemma HitsCounted(tasks: seq<Task>)
    ensures Total(tasks).hits == Count(tasks, HITS)
  {
    CounterIsCount(tasks, (m: Metrics) => m.hits, HITS);
  }

  lemma RetransmitsCounted(tasks: seq<Task>)
    ensures Total(tasks).retransmits == Count(tasks, {Sent, Suppressed})
  {
    CounterIsCount(tasks, (m: Metrics) => m.retransmits, {Sent, Suppressed});
  }

  lemma DedupsCounted(tasks: seq<Task>)
    ensures Total(tasks).dedups == Count(tasks, {Suppressed})
  {
    CounterIsCount(tasks, (m: Metrics) => m.dedups, {Suppressed});
  }

  lemma ErrorsCounted(tasks: seq<Task>)
    ensures Total(tasks).cacheErrors == Count(tasks, {LookupFailed, SendFailed})
  {
    CounterIsCount(tasks, (m: Metrics) => m.cacheErrors, {LookupFailed, SendFailed});
  }

  lemma {:induction false} RequestsCounted(tasks: seq<Task>)
    ensures Total(tasks).requests == |tasks|
  {
    if tasks != [] { RequestsCounted(tasks[..|tasks| - 1]); }
  }

  lemma EveryStageIsListed(stage: Stage)
    ensures stage in UNSERVED || stage in {DropIP} || stage in {DropSeq} || stage in {DropChain}
            || stage in {Missed} || stage in HITS || stage in MOVING
  {
  }

  lemma StagesPartition(tasks: seq<Task>)
    ensures |tasks| == Count(tasks, UNSERVED) + Count(tasks, {DropIP}) + Count(tasks, {DropSeq})
                       + Count(tasks, {DropChain}) + Count(tasks, {Missed}) + Count(tasks, HITS) + Count(tasks, MOVING)
  {
    hide Count;
    CountSplit(tasks, UNSERVED, {DropIP});
    CountSplit(tasks, UNSERVED + {DropIP}, {DropSeq});
    CountSplit(tasks, UNSERVED + {DropIP} + {DropSeq}, {DropChain});
    CountSplit(tasks, UNSERVED + {DropIP} + {DropSeq} + {DropChain}, {Missed});
    CountSplit(tasks, UNSERVED + {DropIP} + {DropSeq} + {DropChain} + {Missed}, HITS);
    CountSplit(tasks, UNSERVED + {DropIP} + {DropSeq} + {DropChain} + {Missed} + HITS, MOVING);
    forall i | 0 <= i < |tasks|
      ensures tasks[i].stage in UNSERVED + {DropIP} + {DropSeq} + {DropChain} + {Missed} + HITS + MOVING
    {
      EveryStageIsListed(tasks[i].stage);
    }
    CountEveryone(tasks, UNSERVED + {DropIP} + {DropSeq} + {DropChain} + {Missed} + HITS + MOVING);
  }

  lemma HitsPartition(tasks: seq<Task>)
    ensures Count(tasks, HITS) == Count(tasks, {Found, Cleared}) + Count(tasks, {Throttled})
                                  + Count(tasks, {Sent, Suppressed}) + Count(tasks, {SendFailed})
  {
    hide Count;
    CountSplit(tasks, {Found, Cleared}, {Throttled});
    CountSplit(tasks, {Found, Cleared} + {Throttled}, {Sent, Suppressed});
    CountSplit(tasks, {Found, Cleared} + {Throttled} + {Sent, Suppressed}, {SendFailed});
    assert HITS == {Found, Cleared} + {Throttled} + {Sent, Suppressed} + {SendFailed};
  }

  /**
   Conservation in every reachable state: requests are unserved (invalid, a range or a retrieve error),
   drops of the three tiers, misses, hits or still on their way; hits are retransmits, group drops,
   failures or still on their way; retransmits counted are completed write loops plus frames suppressed.
   */
  lemma CountersAddUp(c: Config, steps: seq<Step>)
    requires CanRun(c, steps)
    ensures var s := Run(c, steps);
            var m, tasks := s.m, s.tasks;
            && m.requests == |tasks|
            && m.requests == Count(tasks, UNSERVED) + m.ipDrops + m.seqDrops + m.chainDrops
                             + m.misses + m.hits + Count(tasks, MOVING)
            && m.hits == m.retransmits + m.groupDrops + Count(tasks, {SendFailed}) + Count(tasks, {Found, Cleared})
            && m.cacheErrors == Count(tasks, {LookupFailed, SendFailed})
            && m.retransmits == Count(tasks, {Sent}) + m.dedups
            && m.dedups == Count(tasks, {Suppressed}) && m.misses == Count(tasks, {Missed})
            && m.ipDrops == Count(tasks, {DropIP}) && m.seqDrops == Count(tasks, {DropSeq})
            && m.chainDrops == Count(tasks, {DropChain}) && m.groupDrops == Count(tasks, {Throttled})
  {
    RunInv(c, steps);
    hide Run, CanRun, LimitInv, CacheInv, TaskInv, TimeInv, ReplyInv, EgressInv, Total, Count;
    var s := Run(c, steps);
    RequestsCounted(s.tasks);
    IpDropsCounted(s.tasks);
    SeqDropsCounted(s.tasks);
    ChainDropsCounted(s.tasks);
    GroupDropsCounted(s.tasks);
    MissesCounted(s.tasks);
    HitsCounted(s.tasks);
    RetransmitsCounted(s.tasks);
    DedupsCounted(s.tasks);
    ErrorsCounted(s.tasks);
    StagesPartition(s.tasks);
    HitsPartition(s.tasks);
    assert {Sent, Suppressed} == {Sent} + {Suppressed};
    CountSplit(s.tasks, {Sent}, {Suppressed});
  }
}
