/**
 The NACK server as the code runs it: an object that owns the rate limiter, the cache and the
 retransmitter and takes one NACK after another through them, with early returns. Its parts always
 hold what some run of the step system has brought about, so what is proved of every run holds of the
 server.
 */
module Server {
  import opened Bytes
  import opened Options
  import opened Keys
  import W = SlidingWindow
  import M = MemoryCache
  import I = Ingress
  import N = Nack
  import D = Dedup
  import R = Retransmit
  import RL = RateLimit
  import opened Endpoint
  import opened EndpointInvariants
  import ER = EndpointRuns
  import T = EndpointTheorems

  /** What the outside answered while a NACK was served. */
  datatype Answers = Answers(
    ip: bool, seqReading: int, chainReading: int, cacheError: bool, group: bool,
    reply: R.ClaimReply, writes: string -> bool)

  predicate Final(stage: Stage) {
    && !stage.Fresh? && !stage.PassedIP? && !stage.PassedSeq? && !stage.PassedChain?
    && !stage.Found? && !stage.Cleared?
  }

  predicate AllFinal(tasks: seq<Task>) {
    forall i :: 0 <= i < |tasks| ==> Final(tasks[i].stage)
  }

  /** How a Retransmit call ends a NACK, from what the claim store and the sockets will answer. */
  ghost function ServeStage(c: Config, raw: ByteString, reply: R.ClaimReply, writes: string -> bool): (stage: Stage)
  {
    if !R.Enters(c.redis, raw, reply) then Suppressed
    else if forall name :: name in c.sockets ==> writes(name) then Sent
    else SendFailed
  }

  /** How a NACK that found a frame ends. */
  ghost function DeliverStage(c: Config, a: Answers, raw: ByteString): (stage: Stage)
  {
    if c.hasEngine && !a.group then Throttled else ServeStage(c, raw, a.reply, a.writes)
  }

  /** How a NACK past the tiers ends, from what the cache holds for it. */
  ghost function AnswerStage(c: Config, a: Answers, held: Option<ByteString>): (stage: Stage)
  {
    if a.cacheError then LookupFailed
    else
      match held
      case None => Missed
      case Some(raw) => DeliverStage(c, a, raw)
  }

  /** What a log of grants says of a key's bucket. */
  ghost function TallyIn(grants: seq<Grant>, key: string): (t: RL.Tally)
  {
    if grants == [] then RL.Tally(0, 0)
    else
      var before, last := TallyIn(grants[..|grants| - 1], key), grants[|grants| - 1];
      if last.key == key then RL.Asked(before, last.verdict) else before
  }

  ghost function GrantsTo(grants: seq<Grant>, key: string): (ns: set<nat>)
  {
    set i: nat | i < |grants| && grants[i].key == key && grants[i].verdict
  }

  lemma {:induction false} GrantsCounted(grants: seq<Grant>, key: string)
    ensures TallyIn(grants, key).granted == |GrantsTo(grants, key)|
  {
    if grants == [] {
      assert GrantsTo(grants, key) == {};
    } else {
      var n := |grants| - 1;
      GrantsCounted(grants[..n], key);
      var before := GrantsTo(grants[..n], key);
      assert GrantsTo(grants, key) == if grants[n].key == key && grants[n].verdict then before + {n} else before;
    }
  }

  lemma TallyGrows(grants: seq<Grant>, grant: Grant, key: string)
    ensures TallyIn(grants + [grant], key)
            == if grant.key == key then RL.Asked(TallyIn(grants, key), grant.verdict) else TallyIn(grants, key)
  {
    assert (grants + [grant])[..|grants|] == grants;
  }

  /** The datagrams of an egress log without the NACKs they were for. */
  function Sendings(es: seq<Egress>): (sent: seq<R.Sending>)
    ensures |sent| == |es| && forall i :: 0 <= i < |es| ==> sent[i] == es[i].sending
  {
    seq(|es|, i requires 0 <= i < |es| => es[i].sending)
  }

  function Ifaces(out: seq<R.Sending>): (names: seq<string>)
    ensures |names| == |out| && forall i :: 0 <= i < |out| ==> names[i] == out[i].iface
  {
    seq(|out|, i requires 0 <= i < |out| => out[i].iface)
  }

  lemma OneMoreFinal(before: seq<Task>, tasks: seq<Task>)
    requires |tasks| == |before| + 1 && tasks[..|before|] == before && Final(tasks[|before|].stage)
    ensures AllFinal(before) ==> AllFinal(tasks)
  {
    hide Final;
    assert forall i :: 0 <= i < |before| ==> tasks[i] == before[i];
  }

  class Server {
    const c: Config
    const limiter: RL.Limiter
    const cache: M.Cache
    const rtx: R.Retransmitter
    var clock: int
    var replies: seq<Reply>
    var m: Metrics
    ghost var run: seq<Step>

    ghost function Spec(): (s: State)
      requires CanRun(c, run)
      reads this`run
    {
      Run(c, run)
    }

    /** The parts are set up as configured. */
    ghost predicate Configured()
      reads rtx`sockets
    {
      && limiter.sequence.policy == c.seqPolicy && limiter.chain.policy == c.chainPolicy && cache.maxKeys == c.maxKeys
      && rtx.redis == c.redis && rtx.groupIndex == c.groupIndex && rtx.sockets.Keys == c.sockets
    }

    ghost predicate Limits()
      reads limiter.ip, limiter.group, limiter.chain, limiter.sequence
      reads limiter.chain.Footprint(), limiter.sequence.Footprint()
    {
      && limiter.ip.Valid() && limiter.group.Valid() && limiter.chain.Valid() && limiter.sequence.Valid()
      && limiter.Separate()
    }

    /** The parts hold what a state of the step system says. */
    ghost predicate Shows(s: State)
      reads this, limiter.sequence`log, limiter.chain`log, cache`ops, rtx`sent, rtx`dedups
    {
      Books(s) && Logs(s)
    }

    ghost predicate Books(s: State)
      reads this`clock, this`replies, this`m
    {
      clock == s.clock && replies == s.out.replies && m == s.m && m.requests == |s.tasks|
    }

    ghost predicate Logs(s: State)
      reads limiter.sequence`log, limiter.chain`log, cache`ops, rtx`sent, rtx`dedups
    {
      && limiter.sequence.log == s.win.seqLog && limiter.chain.log == s.win.chainLog
      && cache.ops == s.cache.ops
      && rtx.sent == Sendings(s.out.egress) && rtx.dedups == s.m.dedups
    }

    /** The group buckets have been asked, and have granted, what the log of grants says. */
    ghost predicate Tallies(grants: seq<Grant>)
      reads limiter.group, limiter.group.Buckets()
    {
      forall key :: limiter.group.TallyOf(key) == TallyIn(grants, key)
    }

    ghost predicate Parts(grants: seq<Grant>)
      reads limiter.ip, limiter.group, limiter.chain, limiter.sequence, cache, rtx`sockets
      reads limiter.chain.Footprint(), limiter.sequence.Footprint(), limiter.group.Buckets()
    {
      Configured() && Limits() && cache.Valid() && Tallies(grants)
    }

    ghost predicate Valid()
      reads this, limiter.ip, limiter.group, limiter.chain, limiter.sequence, cache, rtx
      reads limiter.chain.Footprint(), limiter.sequence.Footprint(), limiter.group.Buckets()
    {
      CanRun(c, run) && Parts(Spec().grants) && Shows(Spec())
    }

    /** The latest NACK has number t, and stands at a stage as it arrived. */
    ghost predicate Serving(t: nat, nack: ByteString, src: Option<string>, stage: Stage)
      requires CanRun(c, run)
      reads this`run
    {
      t + 1 == |Spec().tasks| && Spec().tasks[t].(look := Look(0, 0, None), seqIx := 0, chainIx := 0, grantIx := 0)
                                 == Task(nack, src, stage, 0, 0, 0, Look(0, 0, None))
    }

    /** The NACKs before number t, as they stand. */
    ghost function Earlier(t: nat): (tasks: seq<Task>)
      requires CanRun(c, run) && t <= |Spec().tasks|
      reads this`run
    {
      Spec().tasks[..t]
    }

    /** Every NACK has ended. */
    ghost predicate Idle()
      requires CanRun(c, run)
      reads this`run
    {
      AllFinal(Spec().tasks)
    }

    lemma IdleAgain(t: nat, nack: ByteString, src: Option<string>, stage: Stage, before: seq<Task>)
      requires CanRun(c, run) && Serving(t, nack, src, stage) && Final(stage) && Earlier(t) == before
      ensures AllFinal(before) ==> Idle()
    {
      hide Run, CanRun, Final, AllFinal;
      OneMoreFinal(before, Spec().tasks);
    }

    /** Between NACKs the counters add up with nothing on its way. */
    lemma Reconciles()
      requires Valid() && Idle()
      ensures m.hits == m.retransmits + m.groupDrops + T.Count(Spec().tasks, {SendFailed})
      ensures m.requests == T.Count(Spec().tasks, T.UNSERVED)
                            + m.ipDrops + m.seqDrops + m.chainDrops + m.misses + m.hits
      ensures m.retransmits == T.Count(Spec().tasks, {Sent}) + m.dedups
    {
      hide Run, CanRun, T.Count, Parts;
      T.CountersAddUp(c, run);
      T.NoneCounted(Spec().tasks, T.MOVING);
      T.NoneCounted(Spec().tasks, {Found, Cleared});
    }

    constructor (c: Config, tiers: RL.Tiers, rtx: R.Retransmitter)
      requires tiers.sequenceMax >= 0 && tiers.chain == c.chainPolicy
      requires W.Policy(tiers.sequenceMax, tiers.sequenceWindow) == c.seqPolicy
      requires rtx.redis == c.redis && rtx.groupIndex == c.groupIndex && rtx.sockets.Keys == c.sockets
      requires rtx.sent == [] && rtx.dedups == 0
      ensures Valid() && this.c == c && run == [] && this.rtx == rtx
    {
      this.c := c;
      limiter := new RL.Limiter(tiers);
      cache := new M.Cache(c.maxKeys);
      this.rtx := rtx;
      clock := 0;
      replies := [];
      m := Metrics(0, 0, 0, 0, 0, 0, 0, 0, 0, 0);
      run := [];
    }

    /** What a group bucket has granted is what the step system counts as its grants. */
    lemma BucketCounts(src: string, g: nat)
      requires Valid()
      ensures limiter.group.TallyOf(GroupKey(src, g)).granted == |T.GrantsOf(Spec(), src, g)|
    {
      hide Run, CanRun, GroupKey, TallyIn, Configured, Limits, Shows, M.Run, M.ValidRun;
      GrantsCounted(Spec().grants, GroupKey(src, g));
      assert T.GrantsOf(Spec(), src, g) == GrantsTo(Spec().grants, GroupKey(src, g));
    }

    /** NACKs of a source with a frame on any socket to a shard group are at most what that bucket granted. */
    lemma BucketBoundsShard(src: string, g: nat)
      requires Valid() && c.hasEngine
      ensures |T.Writers(Spec(), src, D.Shard(g))| <= limiter.group.TallyOf(GroupKey(src, g)).granted
    {
      BucketCounts(src, g);
      hide Run, CanRun, GroupKey, Parts, Shows, T.Writers, T.GrantsOf, T.RoutedToShard;
      T.ShardRetransmitsAreGranted(c, run, src, g);
    }

    ghost method Advance(step: Step)
      requires CanRun(c, run) && Enabled(c, Spec(), step)
      modifies this`run
      ensures CanRun(c, run) && run == old(run) + [step]
      ensures Spec() == Do(c, old(Spec()), step)
    {
      hide Run, CanRun, Do, Enabled;
      ER.Extend(c, run, step);
      run := run + [step];
    }

    /** The window entries and buckets are none of the server's other parts. */
    lemma EntriesApart()
      ensures Outside(limiter.chain.Footprint()) && Outside(limiter.sequence.Footprint())
      ensures Outside(limiter.ip.Buckets()) && Outside(limiter.group.Buckets())
    {
    }

    ghost predicate Outside(objs: set<object>) {
      && this !in objs && cache !in objs && rtx !in objs
      && limiter.ip !in objs && limiter.group !in objs && limiter.chain !in objs && limiter.sequence !in objs
    }

    /** What the windows and the cache hold is what the step system says they hold. */
    lemma SequenceView()
      requires Valid()
      ensures limiter.sequence.Sized() && limiter.sequence.View() == Spec().win.seqs
              && limiter.sequence.policy == c.seqPolicy
    {
      RunInv(c, run);
      hide Run, CanRun, CacheInv, TaskInv, TimeInv, ReplyInv, EgressInv, MetricsInv, W.Entries, M.Run;
    }

    lemma ChainView()
      requires Valid()
      ensures limiter.chain.Sized() && limiter.chain.View() == Spec().win.chains
              && limiter.chain.policy == c.chainPolicy
    {
      RunInv(c, run);
      hide Run, CanRun, CacheInv, TaskInv, TimeInv, ReplyInv, EgressInv, MetricsInv, W.Entries, M.Run;
    }

    lemma CacheView()
      requires Valid()
      ensures cache.Valid() && cache.data == Spec().cache.data && cache.maxKeys == c.maxKeys
    {
      RunInv(c, run);
      hide Run, CanRun, LimitInv, TaskInv, TimeInv, ReplyInv, EgressInv, MetricsInv, W.Entries, M.Run;
    }

    /** The request is counted and the datagram read. */
    method Arrive(nack: ByteString, src: Option<string>) returns (stage: Stage)
      requires Valid()
      modifies this`m, this`run
      ensures Valid() && old(run) < run && m.requests == old(m.requests) + 1
      ensures Serving(old(m.requests), nack, src, stage)
      ensures Earlier(old(m.requests)) == old(Spec().tasks)
      ensures Spec().win == old(Spec().win)
      ensures stage == match N.Parse(nack)
                       case Invalid => Stage.Invalid
                       case Range => Stage.Range
                       case Single(_, _) => Fresh
    {
      hide Run, CanRun, N.Parse, Parts;
      EntriesApart();
      m := m.(requests := m.requests + 1);
      Advance(Step.Arrive(nack, src));
      stage := match N.Parse(nack) case Invalid => Stage.Invalid case Range => Stage.Range case Single(_, _) => Fresh;
    }

    // ----- the run moves on -----

    /** The counter of drops at a stage goes up by one. */
    static function Dropped(m: Metrics, stage: Stage): (m': Metrics)
    {
      match stage
      case DropIP => m.(ipDrops := m.ipDrops + 1)
      case DropSeq => m.(seqDrops := m.seqDrops + 1)
      case DropChain => m.(chainDrops := m.chainDrops + 1)
      case _ => m
    }

    ghost method NoteIP(t: nat, nack: ByteString, src: Option<string>, verdict: bool)
      requires CanRun(c, run) && N.Parse(nack).Single? && Serving(t, nack, src, Fresh)
      modifies this`run
      ensures CanRun(c, run) && old(run) < run
      ensures var stage, s, s' := if verdict then PassedIP else DropIP, old(Spec()), Spec();
              && Serving(t, nack, src, stage) && Earlier(t) == old(Earlier(t)) && |s'.tasks| == |s.tasks|
              && s'.grants == s.grants
              && s'.clock == s.clock && s'.win == s.win && s'.cache == s.cache && s'.out == s.out
              && s'.m == Dropped(s.m, stage)
    {
      hide Run, CanRun, N.Parse;
      Advance(AskIP(t, verdict));
    }

    ghost method NoteSequence(t: nat, nack: ByteString, src: Option<string>, seqNum: Uint64, reading: int, ok: bool)
      requires CanRun(c, run) && N.Parse(nack).Single? && seqNum == N.Parse(nack).seqNum
               && Serving(t, nack, src, PassedIP)
      requires Spec().clock - c.lag <= reading <= Spec().clock
      requires ok == W.Admits(c.seqPolicy, W.Entry(Spec().win.seqs, seqNum), reading)
      modifies this`run
      ensures CanRun(c, run) && old(run) < run
      ensures var stage, s, s' := if ok then PassedSeq else DropSeq, old(Spec()), Spec();
              && Serving(t, nack, src, stage) && Earlier(t) == old(Earlier(t)) && |s'.tasks| == |s.tasks|
              && s'.grants == s.grants
              && s'.clock == s.clock && s'.cache == s.cache && s'.out == s.out && s'.m == Dropped(s.m, stage)
              && s'.win.seqLog == s.win.seqLog + [W.Call(seqNum, reading, t)]
              && s'.win.chainLog == s.win.chainLog && s'.win.chains == s.win.chains
    {
      hide Run, CanRun, N.Parse, W.Allow, W.Admits;
      Advance(AskSeq(t, reading));
    }

    /** How the first two tiers end a NACK. */
    static function TierStage(level: RL.Level): (stage: Stage)
    {
      match level case DroppedIP => DropIP case DroppedSequence => DropSeq case Passed => PassedSeq
    }

    ghost method NoteLevel(t: nat, nack: ByteString, src: Option<string>, seqNum: Uint64, reading: int, level: RL.Level)
      requires CanRun(c, run) && N.Parse(nack).Single? && seqNum == N.Parse(nack).seqNum && Serving(t, nack, src, Fresh)
      requires Spec().clock - c.lag <= reading <= Spec().clock
      requires level != RL.DroppedIP ==>
                 (level == RL.Passed <==> W.Admits(c.seqPolicy, W.Entry(Spec().win.seqs, seqNum), reading))
      modifies this`run
      ensures CanRun(c, run) && old(run) < run
      ensures var stage, s, s' := TierStage(level), old(Spec()), Spec();
              && Serving(t, nack, src, stage) && Earlier(t) == old(Earlier(t)) && |s'.tasks| == |s.tasks|
              && s'.grants == s.grants
              && s'.clock == s.clock && s'.cache == s.cache && s'.out == s.out && s'.m == Dropped(s.m, stage)
              && s'.win.seqLog == (if level == RL.DroppedIP then s.win.seqLog
                                  else s.win.seqLog + [W.Call(seqNum, reading, t)])
              && s'.win.chainLog == s.win.chainLog && s'.win.chains == s.win.chains
    {
      hide Run, CanRun, N.Parse, W.Admits, Serving, Spec, Earlier;
      NoteIP(t, nack, src, level != RL.DroppedIP);
      if level != RL.DroppedIP { NoteSequence(t, nack, src, seqNum, reading, level == RL.Passed); }
    }

    /** Whether the chain tier lets a call pass: a HashKey of zero always does. */
    static ghost predicate ChainPasses(p: W.Policy, entries: map<string, seq<int>>, src: string, hashKey: Uint64,
                                       reading: int) {
      hashKey == 0 || W.Admits(p, W.Entry(entries, ChainKey(src, hashKey)), reading)
    }

    static ghost function ChainLog(log: seq<W.Call<string>>, src: string, hashKey: Uint64, reading: int, t: nat)
      : (log': seq<W.Call<string>>)
    {
      if hashKey == 0 then log else log + [W.Call(ChainKey(src, hashKey), reading, t)]
    }

    ghost method NoteChain(t: nat, nack: ByteString, src: Option<string>, hashKey: Uint64, reading: int, ok: bool)
      requires CanRun(c, run) && N.Parse(nack).Single? && hashKey == N.Parse(nack).hashKey
               && Serving(t, nack, src, PassedSeq)
      requires Spec().clock - c.lag <= reading <= Spec().clock
      requires ok == ChainPasses(c.chainPolicy, Spec().win.chains, SourceText(src), hashKey, reading)
      modifies this`run
      ensures CanRun(c, run) && old(run) < run
      ensures var stage, s, s' := if ok then PassedChain else DropChain, old(Spec()), Spec();
              && Serving(t, nack, src, stage) && Earlier(t) == old(Earlier(t)) && |s'.tasks| == |s.tasks|
              && s'.grants == s.grants
              && s'.clock == s.clock && s'.cache == s.cache && s'.out == s.out && s'.m == Dropped(s.m, stage)
              && s'.win.seqLog == s.win.seqLog
              && s'.win.chainLog == ChainLog(s.win.chainLog, SourceText(src), hashKey, reading, t)
    {
      hide Run, CanRun, N.Parse, W.Allow, W.Admits, ChainKey;
      Advance(AskChain(t, reading));
    }

    // ----- the books move on with the run -----

    method BookLevel(t: nat, nack: ByteString, src: Option<string>, ghost seqNum: Uint64, ghost reading: int,
                     level: RL.Level)
      returns (stage: Stage)
      requires CanRun(c, run) && Parts(Spec().grants) && Books(Spec())
      requires N.Parse(nack).Single? && seqNum == N.Parse(nack).seqNum && Serving(t, nack, src, Fresh)
      requires Spec().clock - c.lag <= reading <= Spec().clock
      requires level != RL.DroppedIP ==>
                 (level == RL.Passed <==> W.Admits(c.seqPolicy, W.Entry(Spec().win.seqs, seqNum), reading))
      modifies this`m, this`run
      ensures CanRun(c, run) && old(run) < run && Parts(Spec().grants) && Books(Spec()) && m.requests == old(m.requests)
      ensures stage == TierStage(level) && Serving(t, nack, src, stage) && Earlier(t) == old(Earlier(t))
      ensures var s, s' := old(Spec()), Spec();
              && s'.cache == s.cache && s'.out == s.out && s'.m.dedups == s.m.dedups
              && s'.win.chainLog == s.win.chainLog && s'.win.chains == s.win.chains
              && s'.win.seqLog == (if level == RL.DroppedIP then s.win.seqLog
                                  else s.win.seqLog + [W.Call(seqNum, reading, t)])
    {
      hide Run, CanRun, N.Parse, W.Admits, Parts, Serving, Spec, Earlier;
      EntriesApart();
      NoteLevel(t, nack, src, seqNum, reading, level);
      stage := TierStage(level);
      m := Dropped(m, stage);
    }

    method BookChain(t: nat, nack: ByteString, src: Option<string>, hashKey: Uint64, ghost reading: int, ok: bool)
      requires CanRun(c, run) && Parts(Spec().grants) && Books(Spec())
      requires N.Parse(nack).Single? && hashKey == N.Parse(nack).hashKey && Serving(t, nack, src, PassedSeq)
      requires Spec().clock - c.lag <= reading <= Spec().clock
      requires ok == ChainPasses(c.chainPolicy, Spec().win.chains, SourceText(src), hashKey, reading)
      modifies this`m, this`run
      ensures CanRun(c, run) && old(run) < run && Parts(Spec().grants) && Books(Spec()) && m.requests == old(m.requests)
      ensures Serving(t, nack, src, if ok then PassedChain else DropChain) && Earlier(t) == old(Earlier(t))
      ensures var s, s' := old(Spec()), Spec();
              && s'.cache == s.cache && s'.out == s.out && s'.win.seqLog == s.win.seqLog && s'.m.dedups == s.m.dedups
              && s'.win.chainLog == ChainLog(s.win.chainLog, SourceText(src), hashKey, reading, t)
    {
      hide Run, CanRun, N.Parse, ChainPasses, ChainLog, Parts, Serving, Spec, Earlier;
      EntriesApart();
      NoteChain(t, nack, src, hashKey, reading, ok);
      m := Dropped(m, if ok then PassedChain else DropChain);
    }

    // ----- the tiers before the lookup -----

    /** The limiter's call for tiers 1 and 3; no other part is touched. */
    method AskLimiter(src: string, seqNum: Uint64, verdict: bool, reading: int, ghost t: nat, ghost grants: seq<Grant>)
      returns (level: RL.Level)
      requires Parts(grants)
      modifies limiter.ip, limiter.ip.Buckets(), limiter.sequence, limiter.sequence.Footprint()
      ensures Parts(grants)
      ensures limiter.ip.TallyOf(src) == RL.Asked(old(limiter.ip.TallyOf(src)), verdict)
      ensures forall k :: k != src ==> limiter.ip.TallyOf(k) == old(limiter.ip.TallyOf(k))
      ensures fresh(limiter.ip.Buckets() - old(limiter.ip.Buckets()))
      ensures fresh(limiter.sequence.Footprint() - old(limiter.sequence.Footprint()))
      ensures level == RL.DroppedIP <==> !verdict
      ensures !verdict ==> limiter.sequence.log == old(limiter.sequence.log)
      ensures verdict ==>
                && limiter.sequence.log == old(limiter.sequence.log) + [W.Call(seqNum, reading, t)]
                && (level == RL.Passed <==>
                      W.Admits(limiter.sequence.policy, W.Entry(old(limiter.sequence.View()), seqNum), reading))
    {
      hide W.Allow, W.Admits, W.Entries, M.Run, M.ValidRun;
      hide limiter.sequence.View, limiter.sequence.Sized, limiter.sequence.Separate;
      EntriesApart();
      level := limiter.Allow(src, seqNum, verdict, reading, t);
    }

    method AskChainLimiter(src: string, hashKey: Uint64, reading: int, ghost t: nat, ghost grants: seq<Grant>)
      returns (ok: bool)
      requires Parts(grants)
      modifies limiter.chain, limiter.chain.Footprint()
      ensures Parts(grants) && fresh(limiter.chain.Footprint() - old(limiter.chain.Footprint()))
      ensures limiter.chain.log == ChainLog(old(limiter.chain.log), src, hashKey, reading, t)
      ensures ok == ChainPasses(limiter.chain.policy, old(limiter.chain.View()), src, hashKey, reading)
    {
      hide W.Allow, W.Admits, W.Entries, ChainKey, M.Run, M.ValidRun;
      hide limiter.chain.View, limiter.chain.Sized, limiter.chain.Separate;
      EntriesApart();
      ok := limiter.AllowChain(src, hashKey, reading, t);
    }

    /** Tiers 1 and 3. */
    method TierIPAndSequence(t: nat, nack: ByteString, src: Option<string>, seqNum: Uint64, verdict: bool, reading: int)
      returns (stage: Stage)
      requires Valid() && N.Parse(nack).Single? && seqNum == N.Parse(nack).seqNum && Serving(t, nack, src, Fresh)
      requires clock - c.lag <= reading <= clock
      modifies this`m, this`run, limiter.ip, limiter.ip.Buckets(), limiter.sequence, limiter.sequence.Footprint()
      ensures Valid() && old(run) < run && m.requests == old(m.requests)
      ensures fresh(limiter.ip.Buckets() - old(limiter.ip.Buckets()))
      ensures fresh(limiter.sequence.Footprint() - old(limiter.sequence.Footprint()))
      ensures Serving(t, nack, src, stage) && (stage == DropIP || stage == DropSeq || stage == PassedSeq)
      ensures Earlier(t) == old(Earlier(t)) && Spec().win.chains == old(Spec().win.chains)
      ensures limiter.ip.TallyOf(SourceText(src)) == RL.Asked(old(limiter.ip.TallyOf(SourceText(src))), verdict)
      ensures forall k :: k != SourceText(src) ==> limiter.ip.TallyOf(k) == old(limiter.ip.TallyOf(k))
      ensures src.None? ==> limiter.ip.TallyOf("::") == RL.Asked(old(limiter.ip.TallyOf("::")), verdict)
      ensures src.Some? ==> limiter.ip.TallyOf(src.value) == RL.Asked(old(limiter.ip.TallyOf(src.value)), verdict)
      ensures stage == DropIP <==> !verdict
      ensures stage == PassedSeq <==> verdict && W.Admits(c.seqPolicy, W.Entry(old(Spec().win.seqs), seqNum), reading)
      ensures stage == DropIP ==> limiter.sequence.log == old(limiter.sequence.log)
    {
      hide Run, CanRun, N.Parse, W.Admits, Parts, Serving, Spec, Earlier, limiter.sequence.View, limiter.ip.Buckets,
           limiter.group.Buckets;
      SequenceView();
      EntriesApart();
      var level := AskLimiter(SourceText(src), seqNum, verdict, reading, t, Spec().grants);
      stage := BookLevel(t, nack, src, seqNum, reading, level);
    }

    /** Tier 2. */
    method TierChain(t: nat, nack: ByteString, src: Option<string>, hashKey: Uint64, reading: int) returns (ok: bool)
      requires Valid() && N.Parse(nack).Single? && hashKey == N.Parse(nack).hashKey && Serving(t, nack, src, PassedSeq)
      requires clock - c.lag <= reading <= clock
      modifies this`m, this`run, limiter.chain, limiter.chain.Footprint()
      ensures Valid() && old(run) < run && m.requests == old(m.requests)
      ensures fresh(limiter.chain.Footprint() - old(limiter.chain.Footprint()))
      ensures Serving(t, nack, src, if ok then PassedChain else DropChain)
      ensures Earlier(t) == old(Earlier(t))
      ensures ok == ChainPasses(c.chainPolicy, old(Spec().win.chains), SourceText(src), hashKey, reading)
    {
      hide Run, CanRun, N.Parse, Parts, Serving, Spec, Earlier, ChainPasses, ChainLog, limiter.chain.View,
           limiter.ip.Buckets, limiter.group.Buckets;
      ChainView();
      EntriesApart();
      ok := AskChainLimiter(SourceText(src), hashKey, reading, t, Spec().grants);
      BookChain(t, nack, src, hashKey, reading, ok);
    }

    // ----- the lookup -----

    /** A response is sent unless it is suppressed or there is no return address. */
    method Respond(t: nat, src: Option<string>, msgType: Byte, flags: Byte, seqNum: Uint64, suppress: bool)
      modifies this`replies
      ensures replies == if suppress || src.None? then old(replies)
                         else old(replies) + [Reply(t, N.Response(msgType, flags, seqNum))]
    {
      hide N.Response;
      if !suppress && src.Some? {
        var buf := N.FillResponse(msgType, flags, seqNum);
        replies := replies + [Reply(t, buf[..])];
      }
    }

    /** The counters are set and, if there is to be one, the response is sent. */
    method Settle(m': Metrics, t: nat, src: Option<string>, answered: bool, msgType: Byte, flags: Byte, seqNum: Uint64,
                  suppress: bool, ghost grants: seq<Grant>)
      requires Parts(grants)
      modifies this`m, this`replies
      ensures Parts(grants) && m == m'
      ensures replies == if !answered || suppress || src.None? then old(replies)
                         else old(replies) + [Reply(t, N.Response(msgType, flags, seqNum))]
    {
      hide N.Response, Parts;
      EntriesApart();
      m := m';
      if answered { Respond(t, src, msgType, flags, seqNum, suppress); }
    }

    /** How the lookup leaves a NACK. */
    static function LookupStage(cacheError: bool, found: Option<ByteString>): (stage: Stage)
    {
      if cacheError then LookupFailed else if found.None? then Missed else Found
    }

    static function Looked(m: Metrics, stage: Stage): (m': Metrics)
    {
      match stage
      case LookupFailed => m.(cacheErrors := m.cacheErrors + 1)
      case Missed => m.(misses := m.misses + 1)
      case Found => m.(hits := m.hits + 1)
      case _ => m
    }

    ghost method NoteLookup(t: nat, nack: ByteString, src: Option<string>, key: ByteString, cacheError: bool,
                            found: Option<ByteString>)
      requires CanRun(c, run) && N.Parse(nack).Single? && Serving(t, nack, src, PassedChain)
      requires key == CacheKey(N.Parse(nack).hashKey, N.Parse(nack).seqNum)
      requires found == M.Lookup(Spec().cache.data, key, Spec().clock)
      modifies this`run
      ensures CanRun(c, run) && old(run) < run
      ensures var stage, s, s' := LookupStage(cacheError, found), old(Spec()), Spec();
              && Serving(t, nack, src, stage) && Earlier(t) == old(Earlier(t)) && |s'.tasks| == |s.tasks|
              && s'.grants == s.grants
              && (stage == Found ==> s'.tasks[t].look.raw == found)
              && s'.clock == s.clock && s'.win == s.win && s'.cache == s.cache && s'.m == Looked(s.m, stage)
              && s'.out.egress == s.out.egress
              && s'.out.replies == (if stage != Missed || src.None? || c.suppressMISS then s.out.replies
                                    else s.out.replies + [Reply(t, N.MISS)])
    {
      hide Run, CanRun, N.Parse, M.Lookup, N.Response, CacheKey, Do, Enabled, DoLookup, DoLookupError;
      var s := Spec();
      if cacheError {
        LookupErrorStep(c, s, t);
        LookupErrorFacts(c, s, t);
        Advance(LookupError(t));
      } else {
        LookupStep(c, s, t);
        LookupFacts(c, s, t);
        Advance(Lookup(t));
      }
    }

    method BookLookup(t: nat, nack: ByteString, src: Option<string>, ghost key: ByteString, cacheError: bool,
                      found: Option<ByteString>)
      returns (stage: Stage)
      requires CanRun(c, run) && Parts(Spec().grants) && Books(Spec())
      requires N.Parse(nack).Single? && Serving(t, nack, src, PassedChain)
      requires key == CacheKey(N.Parse(nack).hashKey, N.Parse(nack).seqNum)
      requires found == M.Lookup(Spec().cache.data, key, Spec().clock)
      modifies this`m, this`replies, this`run
      ensures CanRun(c, run) && old(run) < run && Parts(Spec().grants) && Books(Spec()) && m.requests == old(m.requests)
      ensures stage == LookupStage(cacheError, found) && Serving(t, nack, src, stage) && Earlier(t) == old(Earlier(t))
      ensures stage == Found ==> t < |Spec().tasks| && Spec().tasks[t].look.raw == found
      ensures replies == if stage != Missed || src.None? || c.suppressMISS then old(replies)
                         else old(replies) + [Reply(t, N.MISS)]
      ensures var s, s' := old(Spec()), Spec();
              s'.win == s.win && s'.cache == s.cache && s'.out.egress == s.out.egress && s'.m.dedups == s.m.dedups
    {
      hide Run, CanRun, N.Parse, M.Lookup, N.Response, CacheKey, Parts, Serving, Spec, Earlier, LookupStage;
      EntriesApart();
      NoteLookup(t, nack, src, key, cacheError, found);
      assert t < |Spec().tasks| by { ServingCount(t, nack, src, LookupStage(cacheError, found)); }
      stage := LookupStage(cacheError, found);
      Settle(Looked(m, stage), t, src, stage == Missed, N.TYPE_MISS, 0, 0, c.suppressMISS, Spec().grants);
    }

    lemma ServingCount(t: nat, nack: ByteString, src: Option<string>, stage: Stage)
      requires CanRun(c, run) && Serving(t, nack, src, stage)
      ensures t < |Spec().tasks|
    {
      hide Run, CanRun;
    }

    method AskCache(key: ByteString, ghost grants: seq<Grant>) returns (found: Option<ByteString>)
      requires Parts(grants)
      ensures Parts(grants) && found == M.Lookup(cache.data, key, clock)
    {
      hide M.Run, M.ValidRun, M.LookupSpec, W.Entries;
      found := cache.Retrieve(key, clock);
    }

    /** The lookup, with its counters and the MISS. */
    method Retrieve(t: nat, nack: ByteString, src: Option<string>, key: ByteString, cacheError: bool)
      returns (stage: Stage, raw: ByteString)
      requires Valid() && N.Parse(nack).Single? && Serving(t, nack, src, PassedChain)
      requires key == CacheKey(N.Parse(nack).hashKey, N.Parse(nack).seqNum)
      modifies this`m, this`replies, this`run
      ensures Valid() && old(run) < run && m.requests == old(m.requests)
      ensures Serving(t, nack, src, stage) && Earlier(t) == old(Earlier(t))
      ensures stage == LookupStage(cacheError, M.Lookup(cache.data, key, clock))
      ensures stage == Found ==>
                t < |Spec().tasks| && Spec().tasks[t].look.raw == Some(raw) == M.Lookup(cache.data, key, clock)
      ensures replies == if stage != Missed || src.None? || c.suppressMISS then old(replies)
                         else old(replies) + [Reply(t, N.MISS)]
    {
      hide Run, CanRun, N.Parse, M.Lookup, N.Response, CacheKey, Parts, Serving, Spec, Earlier;
      CacheView();
      var found := AskCache(key, Spec().grants);
      stage := BookLookup(t, nack, src, key, cacheError, found);
      raw := match found case None => [] case Some(bytes) => bytes;
    }

    // ----- the group tier -----

    /** The log of grants after the group tier: without a shard engine no bucket is asked. */
    ghost function GrantsAfter(grants: seq<Grant>, t: nat, src: Option<string>, raw: ByteString, verdict: bool)
      : (gs: seq<Grant>)
    {
      if c.hasEngine then grants + [Grant(t, GroupKey(SourceText(src), c.groupIndex(TxID(raw))), verdict)] else grants
    }

    ghost method NoteGroup(t: nat, nack: ByteString, src: Option<string>, raw: ByteString, seqNum: Uint64,
                           verdict: bool)
      requires CanRun(c, run) && N.Parse(nack).Single? && seqNum == N.Parse(nack).seqNum && Serving(t, nack, src, Found)
      requires Spec().tasks[t].look.raw == Some(raw)
      modifies this`run
      ensures CanRun(c, run) && old(run) < run
      ensures var ok, s, s' := !c.hasEngine || verdict, old(Spec()), Spec();
              && Serving(t, nack, src, if ok then Cleared else Throttled) && Earlier(t) == old(Earlier(t))
              && |s'.tasks| == |s.tasks| && s'.tasks[t].look.raw == Some(raw)
              && s'.grants == GrantsAfter(s.grants, t, src, raw, verdict)
              && s'.clock == s.clock && s'.win == s.win && s'.cache == s.cache
              && s'.m == (if ok then s.m else s.m.(groupDrops := s.m.groupDrops + 1))
              && s'.out.egress == s.out.egress
              && s'.out.replies == (if ok || src.None? || c.suppressACK then s.out.replies
                                    else s.out.replies + [Reply(t, N.Ack(seqNum))])
    {
      hide Run, CanRun, N.Parse, N.Ack, GroupKey, TxID, Do, Enabled;
      GroupStep(c, Spec(), t, verdict);
      Advance(AskGroup(t, verdict));
    }

    /** The limiter's call for tier 4: the pair's own bucket is asked, and nothing else is touched. */
    method AskGroupLimiter(src: Option<string>, raw: ByteString, verdict: bool, ghost grants: seq<Grant>, ghost t: nat)
      returns (ok: bool)
      requires c.hasEngine && Parts(grants)
      modifies limiter.group, limiter.group.Buckets()
      ensures Parts(GrantsAfter(grants, t, src, raw, verdict)) && ok == verdict
      ensures fresh(limiter.group.Buckets() - old(limiter.group.Buckets()))
    {
      hide W.Entries, M.Run, M.ValidRun, GroupKey, TxID, TallyIn;
      hide limiter.chain.View, limiter.chain.Sized, limiter.chain.Separate, limiter.chain.Valid;
      hide limiter.sequence.Valid, limiter.Separate;
      EntriesApart();
      var group := c.groupIndex(TxID(raw));
      ok := limiter.AllowGroup(SourceText(src), group, verdict);
      forall key ensures limiter.group.TallyOf(key) == TallyIn(GrantsAfter(grants, t, src, raw, verdict), key) {
        TallyGrows(grants, Grant(t, GroupKey(SourceText(src), group), verdict), key);
      }
    }

    method BookGroup(t: nat, nack: ByteString, src: Option<string>, raw: ByteString, seqNum: Uint64, granted: bool)
      requires CanRun(c, run) && Parts(GrantsAfter(Spec().grants, t, src, raw, granted)) && Books(Spec())
      requires N.Parse(nack).Single? && seqNum == N.Parse(nack).seqNum && Serving(t, nack, src, Found)
      requires t < |Spec().tasks| && Spec().tasks[t].look.raw == Some(raw) && (granted || c.hasEngine)
      modifies this`m, this`replies, this`run
      ensures CanRun(c, run) && old(run) < run && Parts(Spec().grants) && Books(Spec()) && m.requests == old(m.requests)
      ensures Serving(t, nack, src, if granted then Cleared else Throttled)
      ensures Earlier(t) == old(Earlier(t)) && t < |Spec().tasks| && Spec().tasks[t].look.raw == Some(raw)
      ensures replies == if granted || src.None? || c.suppressACK then old(replies)
                         else old(replies) + [Reply(t, N.Ack(seqNum))]
      ensures var s, s' := old(Spec()), Spec();
              && s'.win == s.win && s'.cache == s.cache && s'.out.egress == s.out.egress && s'.m.dedups == s.m.dedups
              && s'.grants == GrantsAfter(s.grants, t, src, raw, granted)
    {
      hide Run, CanRun, N.Parse, N.Response, Parts, Serving, Spec, Earlier, GrantsAfter;
      EntriesApart();
      NoteGroup(t, nack, src, raw, seqNum, granted);
      var m' := if granted then m else m.(groupDrops := m.groupDrops + 1);
      Settle(m', t, src, !granted, N.TYPE_ACK, 0x01, seqNum, c.suppressACK, Spec().grants);
    }

    /**
     Tier 4: with a shard engine the bucket of the source and the frame's shard decides; without one no
     bucket is asked. A throttled frame is not retransmitted but acknowledged all the same.
     */
    method TierGroup(t: nat, nack: ByteString, src: Option<string>, raw: ByteString, seqNum: Uint64, verdict: bool)
      returns (ok: bool)
      requires Valid() && N.Parse(nack).Single? && seqNum == N.Parse(nack).seqNum && Serving(t, nack, src, Found)
      requires t < |Spec().tasks| && Spec().tasks[t].look.raw == Some(raw)
      modifies this`m, this`replies, this`run, limiter.group, limiter.group.Buckets()
      ensures Valid() && old(run) < run && m.requests == old(m.requests)
      ensures fresh(limiter.group.Buckets() - old(limiter.group.Buckets()))
      ensures ok == (!c.hasEngine || verdict) && Serving(t, nack, src, if ok then Cleared else Throttled)
      ensures Earlier(t) == old(Earlier(t)) && t < |Spec().tasks| && Spec().tasks[t].look.raw == Some(raw)
      ensures Spec().grants == GrantsAfter(old(Spec().grants), t, src, raw, verdict)
      ensures forall id :: c.hasEngine && IsTxID(raw, id) ==>
                Spec().grants == old(Spec().grants) + [Grant(t, GroupKey(SourceText(src), c.groupIndex(id)), verdict)]
      ensures !c.hasEngine ==> limiter.group.limit == old(limiter.group.limit)
      ensures replies == if ok || src.None? || c.suppressACK then old(replies)
                         else old(replies) + [Reply(t, N.Ack(seqNum))]
    {
      hide Run, CanRun, N.Parse, N.Ack, Parts, Serving, Spec, Earlier, GroupKey, TxID, IsTxID;
      hide limiter.group.Buckets, limiter.ip.Buckets;
      forall id | IsTxID(raw, id) ensures id == TxID(raw) { TxIDByPosition(raw, id); }
      EntriesApart();
      ok := true;
      if c.hasEngine {
        ok := AskGroupLimiter(src, raw, verdict, Spec().grants, t);
      }
      BookGroup(t, nack, src, raw, seqNum, ok);
    }

    // ----- the retransmit -----

    static function Served(m: Metrics, stage: Stage): (m': Metrics)
    {
      match stage
      case SendFailed => m.(cacheErrors := m.cacheErrors + 1)
      case Suppressed => m.(retransmits := m.retransmits + 1, dedups := m.dedups + 1)
      case _ => m.(retransmits := m.retransmits + 1)
    }

    ghost method NoteRetransmit(t: nat, nack: ByteString, src: Option<string>, raw: ByteString, seqNum: Uint64,
                                a: Attempt)
      requires CanRun(c, run) && N.Parse(nack).Single? && seqNum == N.Parse(nack).seqNum
               && Serving(t, nack, src, Cleared)
      requires Spec().tasks[t].look.raw == Some(raw) && Plausible(c, raw, a)
      modifies this`run
      ensures CanRun(c, run) && old(run) < run
      ensures var stage, s, s' := Ending(c, raw, a), old(Spec()), Spec();
              && Serving(t, nack, src, stage) && Earlier(t) == old(Earlier(t)) && |s'.tasks| == |s.tasks|
              && s'.grants == s.grants
              && s'.clock == s.clock && s'.win == s.win && s'.cache == s.cache && s'.m == Served(s.m, stage)
              && s'.out.egress == s.out.egress + Writes(t, raw, DestOf(c, raw), a.written)
              && s'.out.replies == (if stage == SendFailed || src.None? || c.suppressACK then s.out.replies
                                    else s.out.replies + [Reply(t, N.Ack(seqNum))])
    {
      hide Run, CanRun, N.Parse, N.Ack, DestOf, Do, Enabled, Plausible, Writes, R.Enters;
      RetransmitStep(c, Spec(), t, a);
      Advance(Step.Retransmit(t, a));
    }

    /** What the retransmitter did for a frame is an attempt its endpoint can make. */
    method AskRetransmitter(raw: ByteString, reply: R.ClaimReply, writes: string -> bool, ghost grants: seq<Grant>)
      returns (stage: Stage, ghost written: seq<string>)
      requires Parts(grants)
      modifies rtx`sent, rtx`dedups, rtx`errors
      ensures Parts(grants)
      ensures stage == ServeStage(c, raw, reply, writes)
      ensures Plausible(c, raw, Attempt(reply, written, stage != SendFailed))
      ensures stage == Ending(c, raw, Attempt(reply, written, stage != SendFailed))
      ensures rtx.sent == old(rtx.sent) + Sendings(Writes(0, raw, DestOf(c, raw), written))
      ensures rtx.dedups == old(rtx.dedups) + if stage == Suppressed then 1 else 0
      ensures forall name :: name in written ==> name in c.sockets && writes(name)
    {
      EntriesApart();
      assert Configured();
      hide Parts, TxID, R.Enters, ServeStage, Plausible, Ending, Sendings, Writes, Ifaces, R.OncePerInterface;
      var before := rtx.dedups;
      var err;
      ghost var out;
      err, out := rtx.Retransmit(raw, TxID(raw), reply, writes);
      stage := CallStage(err, rtx.dedups > before);
      written := Ifaces(out);
      AttemptMade(c, raw, reply, writes, err, rtx.dedups > before, out);
    }

    method BookRetransmit(t: nat, nack: ByteString, src: Option<string>, raw: ByteString, seqNum: Uint64, stage: Stage,
                          ghost a: Attempt)
      requires CanRun(c, run) && Parts(Spec().grants) && Books(Spec())
      requires N.Parse(nack).Single? && seqNum == N.Parse(nack).seqNum && Serving(t, nack, src, Cleared)
      requires t < |Spec().tasks| && Spec().tasks[t].look.raw == Some(raw)
      requires Plausible(c, raw, a) && stage == Ending(c, raw, a)
      modifies this`m, this`replies, this`run
      ensures CanRun(c, run) && old(run) < run && Parts(Spec().grants) && Books(Spec()) && m.requests == old(m.requests)
      ensures Serving(t, nack, src, stage) && Earlier(t) == old(Earlier(t))
      ensures replies == if stage == SendFailed || src.None? || c.suppressACK then old(replies)
                         else old(replies) + [Reply(t, N.Ack(seqNum))]
      ensures var s, s' := old(Spec()), Spec();
              && s'.win == s.win && s'.cache == s.cache
              && s'.m.dedups == s.m.dedups + (if stage == Suppressed then 1 else 0)
              && Sendings(s'.out.egress) == Sendings(s.out.egress) + Sendings(Writes(0, raw, DestOf(c, raw), a.written))
    {
      hide Run, CanRun, N.Parse, N.Response, Parts, Serving, Spec, Earlier, DestOf, Plausible, Writes, Ending, Sendings;
      EntriesApart();
      SendingsAppend(Spec().out.egress, t, raw, DestOf(c, raw), a.written);
      NoteRetransmit(t, nack, src, raw, seqNum, a);
      Settle(Served(m, stage), t, src, stage != SendFailed, N.TYPE_ACK, 0x01, seqNum, c.suppressACK, Spec().grants);
    }

    /** The retransmit and its ACK: a frame suppressed as a duplicate is counted and acknowledged as sent. */
    method Serve(t: nat, nack: ByteString, src: Option<string>, raw: ByteString, seqNum: Uint64, a: Answers)
      returns (stage: Stage, ghost written: seq<string>)
      requires Valid() && N.Parse(nack).Single? && seqNum == N.Parse(nack).seqNum && Serving(t, nack, src, Cleared)
      requires t < |Spec().tasks| && Spec().tasks[t].look.raw == Some(raw)
      modifies this`m, this`replies, this`run, rtx`sent, rtx`dedups, rtx`errors
      ensures Valid() && old(run) < run && m.requests == old(m.requests)
      ensures Serving(t, nack, src, stage) && Earlier(t) == old(Earlier(t))
      ensures stage == ServeStage(c, raw, a.reply, a.writes)
      ensures Plausible(c, raw, Attempt(a.reply, written, stage != SendFailed))
      ensures stage == Ending(c, raw, Attempt(a.reply, written, stage != SendFailed))
      ensures rtx.sent == old(rtx.sent) + Sendings(Writes(0, raw, DestOf(c, raw), written))
      ensures replies == if stage == SendFailed || src.None? || c.suppressACK then old(replies)
                         else old(replies) + [Reply(t, N.Ack(seqNum))]
    {
      hide Run, CanRun, N.Parse, N.Ack, Parts, Serving, Spec, Earlier, DestOf, Plausible, Writes, Ending, Sendings;
      hide ServeStage;
      EntriesApart();
      stage, written := AskRetransmitter(raw, a.reply, a.writes, Spec().grants);
      BookRetransmit(t, nack, src, raw, seqNum, stage, Attempt(a.reply, written, stage != SendFailed));
    }

    // ----- one NACK from start to end -----

    /** The tiers before the lookup, for a NACK that asks for one frame. */
    method PassWindows(t: nat, nack: ByteString, src: Option<string>, a: Answers) returns (stage: Stage)
      requires Valid() && clock - c.lag <= a.seqReading <= clock && clock - c.lag <= a.chainReading <= clock
      requires N.Parse(nack).Single? && Serving(t, nack, src, Fresh)
      modifies this`m, this`run, limiter.ip, limiter.ip.Buckets()
      modifies limiter.sequence, limiter.sequence.Footprint(), limiter.chain, limiter.chain.Footprint()
      ensures Valid() && old(run) < run && m.requests == old(m.requests)
      ensures Serving(t, nack, src, stage) && Earlier(t) == old(Earlier(t))
      ensures stage == TierOutcome(nack, src, a, old(Spec().win.seqs), old(Spec().win.chains))
      ensures stage == DropIP ==> limiter.sequence.log == old(limiter.sequence.log)
      ensures stage == DropIP || stage == DropSeq ==> limiter.chain.log == old(limiter.chain.log)
    {
      hide Run, CanRun, N.Parse, Shows, Parts, Spec, Serving, Earlier, limiter.ip.Buckets, limiter.group.Buckets;
      hide W.Admits, ChainPasses;
      EntriesApart();
      var hashKey, seqNum := N.Parse(nack).hashKey, N.Parse(nack).seqNum;
      stage := TierIPAndSequence(t, nack, src, seqNum, a.ip, a.seqReading);
      if stage == PassedSeq {
        EntriesApart();
          var ok := TierChain(t, nack, src, hashKey, a.chainReading);
        stage := if ok then PassedChain else DropChain;
      }
    }

    /** The datagram is read and taken through the tiers that come before the lookup. */
    method PassTiers(nack: ByteString, src: Option<string>, a: Answers) returns (stage: Stage)
      requires Valid() && clock - c.lag <= a.seqReading <= clock && clock - c.lag <= a.chainReading <= clock
      modifies this`m, this`run, limiter.ip, limiter.ip.Buckets()
      modifies limiter.sequence, limiter.sequence.Footprint(), limiter.chain, limiter.chain.Footprint()
      ensures Valid() && old(run) < run && m.requests == old(m.requests) + 1
      ensures Serving(old(m.requests), nack, src, stage)
      ensures Earlier(old(m.requests)) == old(Spec().tasks)
      ensures stage == TierOutcome(nack, src, a, old(Spec().win.seqs), old(Spec().win.chains))
      ensures stage.Invalid? || stage.Range? || stage.DropIP? ==> limiter.sequence.log == old(limiter.sequence.log)
      ensures stage.Invalid? || stage.Range? || stage.DropIP? || stage.DropSeq? ==>
                limiter.chain.log == old(limiter.chain.log)
    {
      hide Run, CanRun, N.Parse, Shows, Parts, Spec, Serving, Earlier, limiter.ip.Buckets, limiter.group.Buckets;
      hide W.Admits, ChainPasses;
      var t := m.requests;
      EntriesApart();
      stage := Arrive(nack, src);
      if stage == Fresh {
        stage := PassWindows(t, nack, src, a);
      }
    }

    lemma GroupApart(grants: seq<Grant>)
      requires Parts(grants)
      ensures limiter.group != limiter.ip
    {
    }

    /** What the cache holds for a NACK. */
    ghost function Held(nack: ByteString): (raw: Option<ByteString>)
      requires N.Parse(nack).Single?
      reads this`clock, cache`data
    {
      M.Lookup(cache.data, CacheKey(N.Parse(nack).hashKey, N.Parse(nack).seqNum), clock)
    }

    /** How the tiers before the lookup will end a NACK, by what the windows hold. */
    ghost function TierOutcome(nack: ByteString, src: Option<string>, a: Answers, seqs: map<Uint64, seq<int>>,
                               chains: map<string, seq<int>>): (stage: Stage)
    {
      match N.Parse(nack)
      case Invalid => Stage.Invalid
      case Range => Stage.Range
      case Single(hashKey, seqNum) =>
        if !a.ip then DropIP
        else if !W.Admits(c.seqPolicy, W.Entry(seqs, seqNum), a.seqReading) then DropSeq
        else if !ChainPasses(c.chainPolicy, chains, SourceText(src), hashKey, a.chainReading) then DropChain
        else PassedChain
    }

    /** How a NACK will end, by what the limiter's windows and the cache hold and what the outside answers. */
    ghost function Expected(nack: ByteString, src: Option<string>, a: Answers): (stage: Stage)
      requires Valid()
      reads this, limiter.ip, limiter.group, limiter.chain, limiter.sequence, cache, rtx
      reads limiter.chain.Footprint(), limiter.sequence.Footprint(), limiter.group.Buckets()
    {
      var stage := TierOutcome(nack, src, a, limiter.sequence.View(), limiter.chain.View());
      if stage == PassedChain then AnswerStage(c, a, Held(nack)) else stage
    }

    /**
     All that serving NACK t added to what had left the server: an ACK of the number asked for, a MISS
     or no response; and the cached frame on the sockets written, all of them exactly when the NACK
     ended as sent, and none unless it ended as sent or failed.
     */
    ghost predicate Outgoing(t: nat, nack: ByteString, src: Option<string>, stage: Stage, a: Answers,
                             oldReplies: seq<Reply>, oldSent: seq<R.Sending>, written: seq<string>)
      reads this`replies, this`clock, cache`data, rtx`sent
    {
      var ack, miss := Acked(stage) && !c.suppressACK && src.Some?, stage == Missed && !c.suppressMISS && src.Some?;
      && (Acked(stage) || stage == SendFailed ==> N.Parse(nack).Single? && Held(nack).Some?)
      && (stage == Missed ==> N.Parse(nack).Single? && Held(nack).None?)
      && (ack ==> replies == oldReplies + [Reply(t, N.Ack(N.Parse(nack).seqNum))])
      && (miss ==> replies == oldReplies + [Reply(t, N.MISS)])
      && (!ack && !miss ==> replies == oldReplies)
      && (if stage == Sent || stage == Suppressed || stage == SendFailed then
            var raw, attempt := Held(nack).value, Attempt(a.reply, written, stage != SendFailed);
            && Plausible(c, raw, attempt) && stage == Ending(c, raw, attempt)
            && rtx.sent == oldSent + Sendings(Writes(0, raw, DestOf(c, raw), written))
          else written == [] && rtx.sent == oldSent)
    }

    lemma ExpectedShown(nack: ByteString, src: Option<string>, a: Answers)
      requires Valid()
      ensures var stage := TierOutcome(nack, src, a, Spec().win.seqs, Spec().win.chains);
              && (stage == PassedChain ==>
                    N.Parse(nack).Single? && Expected(nack, src, a) == AnswerStage(c, a, Held(nack)))
              && (stage != PassedChain ==> Expected(nack, src, a) == stage)
    {
      SequenceView();
      ChainView();
      hide Run, CanRun, N.Parse, Shows, Parts, Spec, Held, AnswerStage, W.Admits, ChainPasses;
      hide limiter.sequence.View, limiter.chain.View;
    }

    lemma OutcomeKinds(nack: ByteString, src: Option<string>, a: Answers, seqs: map<Uint64, seq<int>>,
                       chains: map<string, seq<int>>)
      ensures var stage := TierOutcome(nack, src, a, seqs, chains);
              && (stage == PassedChain ==> N.Parse(nack).Single?)
              && (stage != PassedChain ==>
                    stage.Invalid? || stage.Range? || stage.DropIP? || stage.DropSeq? || stage.DropChain?)
    {
      hide N.Parse, W.Admits, ChainPasses;
    }

    lemma NothingOut(t: nat, nack: ByteString, src: Option<string>, stage: Stage, a: Answers)
      requires stage.Invalid? || stage.Range? || stage.DropIP? || stage.DropSeq? || stage.DropChain?
      ensures Outgoing(t, nack, src, stage, a, replies, rtx.sent, []) && Final(stage)
    {
      hide N.Parse, N.Ack, N.Response, Held, DestOf, Writes, Sendings, Plausible;
    }

    /** What left for a NACK that found its frame: its ACK, and the frame on the sockets written. */
    ghost predicate Delivered(t: nat, src: Option<string>, stage: Stage, raw: ByteString, seqNum: Uint64, a: Answers,
                              oldReplies: seq<Reply>, oldSent: seq<R.Sending>, written: seq<string>)
      reads this`replies, rtx`sent
    {
      var attempt := Attempt(a.reply, written, stage != SendFailed);
      && replies == (if stage == SendFailed || src.None? || c.suppressACK then oldReplies
                     else oldReplies + [Reply(t, N.Ack(seqNum))])
      && (stage == Throttled ==> written == [] && rtx.sent == oldSent)
      && (stage != Throttled ==>
            && Plausible(c, raw, attempt) && stage == Ending(c, raw, attempt)
            && rtx.sent == oldSent + Sendings(Writes(0, raw, DestOf(c, raw), written)))
    }

    /** How a NACK that found its frame ends. */
    /** The group tier and the retransmit. */
    method Deliver(t: nat, nack: ByteString, src: Option<string>, raw: ByteString, seqNum: Uint64, a: Answers)
      returns (stage: Stage, ghost written: seq<string>)
      requires Valid() && N.Parse(nack).Single? && seqNum == N.Parse(nack).seqNum && Serving(t, nack, src, Found)
      requires t < |Spec().tasks| && Spec().tasks[t].look.raw == Some(raw)
      modifies this`m, this`replies, this`run, limiter.group, limiter.group.Buckets(), rtx`sent, rtx`dedups, rtx`errors
      ensures Valid() && old(run) < run && m.requests == old(m.requests)
      ensures Serving(t, nack, src, stage) && Earlier(t) == old(Earlier(t))
      ensures stage == DeliverStage(c, a, raw) && (stage == SendFailed || Acked(stage))
      ensures !c.hasEngine ==> limiter.group.limit == old(limiter.group.limit)
      ensures Delivered(t, src, stage, raw, seqNum, a, old(replies), old(rtx.sent), written)
    {
      hide Run, CanRun, N.Parse, N.Ack, Shows, Parts, Spec, Serving, Earlier, DestOf, Writes, Sendings, Plausible,
           Ending;
      hide limiter.ip.Buckets, limiter.group.Buckets, R.Enters;
      EntriesApart();
      written := [];
      var ok := TierGroup(t, nack, src, raw, seqNum, a.group);
      if !ok { return Throttled, []; }
      stage, written := Serve(t, nack, src, raw, seqNum, a);
    }

    lemma DeliveredIsOutgoing(t: nat, nack: ByteString, src: Option<string>, stage: Stage, raw: ByteString,
                              seqNum: Uint64, a: Answers, oldReplies: seq<Reply>, oldSent: seq<R.Sending>,
                              written: seq<string>)
      requires N.Parse(nack).Single? && seqNum == N.Parse(nack).seqNum && Held(nack) == Some(raw)
      requires stage == SendFailed || Acked(stage)
      requires Delivered(t, src, stage, raw, seqNum, a, oldReplies, oldSent, written)
      ensures Outgoing(t, nack, src, stage, a, oldReplies, oldSent, written)
    {
      hide N.Parse, N.Ack, N.Response, Held, DestOf, Writes, Sendings, Plausible, Ending;
    }

    lemma LookupIsOutgoing(t: nat, nack: ByteString, src: Option<string>, stage: Stage, a: Answers,
                           oldReplies: seq<Reply>)
      requires N.Parse(nack).Single? && (stage == LookupFailed || stage == Missed)
      requires stage == Missed ==> Held(nack).None?
      requires replies == if stage != Missed || src.None? || c.suppressMISS then oldReplies
                          else oldReplies + [Reply(t, N.MISS)]
      ensures Outgoing(t, nack, src, stage, a, oldReplies, rtx.sent, [])
    {
      hide N.Parse, N.Ack, N.Response, Held, DestOf, Writes, Sendings, Plausible, Ending;
    }

    /** The lookup and all that follows it. */
    method Answer(t: nat, nack: ByteString, src: Option<string>, a: Answers)
      returns (stage: Stage, ghost written: seq<string>)
      requires Valid() && N.Parse(nack).Single? && Serving(t, nack, src, PassedChain)
      modifies this`m, this`replies, this`run, limiter.group, limiter.group.Buckets(), rtx`sent, rtx`dedups, rtx`errors
      ensures Valid() && old(run) < run && m.requests == old(m.requests)
      ensures Serving(t, nack, src, stage) && Earlier(t) == old(Earlier(t))
      ensures stage == AnswerStage(c, a, Held(nack))
      ensures stage.LookupFailed? || stage.Missed? || stage.SendFailed? || Acked(stage)
      ensures !c.hasEngine ==> limiter.group.limit == old(limiter.group.limit)
      ensures Outgoing(t, nack, src, stage, a, old(replies), old(rtx.sent), written)
    {
      hide Run, CanRun, N.Parse, M.Lookup, CacheKey, Shows, Parts, Spec, Serving, Earlier, Outgoing, Delivered,
           ServeStage;
      hide limiter.ip.Buckets, limiter.group.Buckets, N.Response;
      EntriesApart();
      var hashKey, seqNum := N.Parse(nack).hashKey, N.Parse(nack).seqNum;
      var raw;
      written := [];
      stage, raw := Retrieve(t, nack, src, CacheKey(hashKey, seqNum), a.cacheError);
      if stage != Found {
        LookupIsOutgoing(t, nack, src, stage, a, old(replies));
        return;
      }
      stage, written := Deliver(t, nack, src, raw, seqNum, a);
      DeliveredIsOutgoing(t, nack, src, stage, raw, seqNum, a, old(replies), old(rtx.sent), written);
    }

    /**
     One NACK served from start to end. The server is then in a state the step system reaches, so all
     that holds of every run holds of it; the NACK has ended, earlier drops have touched no later
     tier, and what left the server is exactly what its end calls for.
     */
    method ProcessNACK(nack: ByteString, src: Option<string>, a: Answers)
      returns (stage: Stage, ghost written: seq<string>)
      requires Valid() && clock - c.lag <= a.seqReading <= clock && clock - c.lag <= a.chainReading <= clock
      modifies this`m, this`replies, this`run, limiter.ip, limiter.ip.Buckets()
      modifies limiter.sequence, limiter.sequence.Footprint(), limiter.chain, limiter.chain.Footprint()
      modifies limiter.group, limiter.group.Buckets(), rtx`sent, rtx`dedups, rtx`errors
      ensures Valid() && old(run) < run && m.requests == old(m.requests) + 1
      ensures Serving(old(m.requests), nack, src, stage) && Final(stage)
      ensures stage == old(Expected(nack, src, a))
      ensures old(Idle()) ==> Idle()
      ensures !c.hasEngine ==> limiter.group.limit == old(limiter.group.limit)
      ensures stage.Invalid? || stage.Range? || stage.DropIP? ==> limiter.sequence.log == old(limiter.sequence.log)
      ensures stage.Invalid? || stage.Range? || stage.DropIP? || stage.DropSeq? ==>
                limiter.chain.log == old(limiter.chain.log)
      ensures Outgoing(old(m.requests), nack, src, stage, a, old(replies), old(rtx.sent), written)
    {
      hide Run, CanRun, N.Parse, Shows, Parts, Spec, Serving, Earlier, AllFinal, Outgoing, Held, AnswerStage, Expected;
      hide TierOutcome, limiter.ip.Buckets, limiter.group.Buckets;
      ExpectedShown(nack, src, a);
      ghost var before := Spec().tasks;
      var t := m.requests;
      EntriesApart();
      GroupApart(Spec().grants);
      written := [];
      stage := PassTiers(nack, src, a);
      OutcomeKinds(nack, src, a, old(Spec().win.seqs), old(Spec().win.chains));
      if stage == PassedChain {
        stage, written := Answer(t, nack, src, a);
      } else {
        NothingOut(t, nack, src, stage, a);
      }
      IdleAgain(t, nack, src, stage, before);
    }

    // ----- between NACKs -----

    /** Time passes. */
    method Wait(dt: nat)
      requires Valid()
      modifies this`clock, this`run
      ensures Valid() && run == old(run) + [Tick(dt)] && clock == old(clock) + dt
    {
      hide Run, CanRun, Parts;
      EntriesApart();
      Advance(Tick(dt));
      clock := clock + dt;
    }

    ghost method NoteFrame(raw: ByteString, victims: set<ByteString>)
      requires CanRun(c, run)
      requires raw != [] && I.Classify(c.codec, raw).Cacheable? ==> M.VictimsOk(Spec().cache.data, c.maxKeys, victims)
      modifies this`run
      ensures CanRun(c, run) && run == old(run) + [Frame(raw, c.ttl, victims)]
      ensures var s, s' := old(Spec()), Spec();
              && s' == s.(cache := s'.cache)
              && (raw != [] && I.Classify(c.codec, raw).Cacheable? ==>
                    s'.cache.ops == s.cache.ops + [M.Store(I.Classify(c.codec, raw).key, raw, c.ttl, s.clock, victims)])
              && (raw == [] || !I.Classify(c.codec, raw).Cacheable? ==> s'.cache == s.cache)
    {
      hide Run, CanRun, I.Classify, M.VictimsOk, M.Apply;
      Advance(Frame(raw, c.ttl, victims));
    }

    method StoreFrame(key: ByteString, raw: ByteString, ghost grants: seq<Grant>)
      returns (ghost victims: set<ByteString>)
      requires Parts(grants)
      modifies cache
      ensures Parts(grants) && M.VictimsOk(old(cache.data), c.maxKeys, victims)
      ensures cache.ops == old(cache.ops) + [M.Store(key, raw, c.ttl, clock, victims)]
      ensures key in cache.data && cache.data[key] == M.Entry(raw, clock + c.ttl)
    {
      hide Limits, M.Run, M.ValidRun, M.Apply, M.VictimsOk;
      EntriesApart();
      victims := cache.Store(key, raw, c.ttl, clock);
    }

    /**
     The ingress path: a frame that its decoder gives a pair with a number is stored under the pair and
     found there for the time to live; others change nothing.
     */
    method ReceiveFrame(raw: ByteString) returns (ghost victims: set<ByteString>)
      requires Valid()
      modifies cache, this`run
      ensures Valid() && run == old(run) + [Frame(raw, c.ttl, victims)]
      ensures forall h, n :: I.Files(c.codec, raw, h, n) ==>
                CacheKey(h, n) in cache.data && cache.data[CacheKey(h, n)] == M.Entry(raw, clock + c.ttl)
      ensures forall h, n, now :: I.Files(c.codec, raw, h, n) && now <= clock + c.ttl ==>
                M.Lookup(cache.data, CacheKey(h, n), now) == Some(raw)
      ensures I.Ignored(c.codec, raw) ==> cache.data == old(cache.data)
    {
      hide Run, CanRun, I.Classify, I.Files, I.Ignored, M.VictimsOk, Parts, Spec, CacheKey;
      I.FilesIfSo(c.codec, raw);
      victims := {};
      CacheView();
      EntriesApart();
      if raw != [] {
        match I.Classify(c.codec, raw)
        case Cacheable(key) => victims := StoreFrame(key, raw, Spec().grants);
        case _ =>
      }
      NoteFrame(raw, victims);
    }

    method Sweep(ghost grants: seq<Grant>)
      requires Parts(grants)
      modifies cache
      ensures Parts(grants) && cache.ops == old(cache.ops) + [M.Sweep(clock)]
      ensures cache.data == M.Apply(old(cache.data), M.Sweep(clock))
      ensures forall k :: k in cache.data <==> k in old(cache.data) && clock <= old(cache.data)[k].expires
      ensures forall k :: k in cache.data ==> cache.data[k] == old(cache.data)[k]
    {
      hide Limits, M.Run, M.ValidRun, M.Apply;
      EntriesApart();
      cache.SweepExpired(clock);
    }

    /** Exactly the entries that had expired are gone, and no lookup changes. */
    method SweepExpired()
      requires Valid()
      modifies cache, this`run
      ensures Valid() && run == old(run) + [Step.Sweep]
      ensures forall k :: k in cache.data <==> k in old(cache.data) && clock <= old(cache.data)[k].expires
      ensures forall k :: k in cache.data ==> cache.data[k] == old(cache.data)[k]
      ensures forall key :: M.Lookup(cache.data, key, clock) == M.Lookup(old(cache.data), key, clock)
    {
      hide Run, CanRun, Parts;
      EntriesApart();
      Sweep(Spec().grants);
      Advance(Step.Sweep);
    }
  }

  function CallStage(err: bool, suppressed: bool): (stage: Stage)
  {
    if err then SendFailed else if suppressed then Suppressed else Sent
  }

  /** What a retransmitter that keeps its contract did, as an attempt of its endpoint. */
  lemma AttemptMade(c: Config, raw: ByteString, reply: R.ClaimReply, writes: string -> bool, err: bool,
                    suppressed: bool, out: seq<R.Sending>)
    requires R.OncePerInterface(out)
    requires forall i :: 0 <= i < |out| ==>
               out[i].iface in c.sockets && writes(out[i].iface) && out[i].raw == raw && out[i].dest == DestOf(c, raw)
    requires !R.Enters(c.redis, raw, reply) ==> !err && out == [] && suppressed
    requires R.Enters(c.redis, raw, reply) ==>
               && !suppressed && (err <==> exists name :: name in c.sockets && !writes(name))
               && (!err ==> forall name :: name in c.sockets ==> R.Sending(name, raw, DestOf(c, raw)) in out)
    ensures var stage := CallStage(err, suppressed);
            var a := Attempt(reply, Ifaces(out), stage != SendFailed);
            && Plausible(c, raw, a) && stage == Ending(c, raw, a) && stage == ServeStage(c, raw, reply, writes)
    ensures Sendings(Writes(0, raw, DestOf(c, raw), Ifaces(out))) == out
    ensures forall name :: name in Ifaces(out) ==> name in c.sockets && writes(name)
  {
    hide R.Enters, DestOf;
    if !err && R.Enters(c.redis, raw, reply) { AllWritten(c.sockets, raw, DestOf(c, raw), out); }
  }

  lemma AllWritten(sockets: set<string>, raw: ByteString, dest: D.Dest, out: seq<R.Sending>)
    requires forall name :: name in sockets ==> R.Sending(name, raw, dest) in out
    ensures forall name :: name in sockets ==> name in Ifaces(out)
  {
    forall name | name in sockets ensures name in Ifaces(out) {
      var i :| 0 <= i < |out| && out[i] == R.Sending(name, raw, dest);
      assert Ifaces(out)[i] == name;
    }
  }

  lemma SendingsAppend(es: seq<Egress>, t: nat, raw: ByteString, dest: D.Dest, written: seq<string>)
    ensures Sendings(es + Writes(t, raw, dest, written)) == Sendings(es) + Sendings(Writes(0, raw, dest, written))
  {
  }

  lemma LookupStep(c: Config, s: State, t: nat)
    requires At(s, t, PassedChain)
    ensures Enabled(c, s, Lookup(t)) && Do(c, s, Lookup(t)) == DoLookup(c, s, t)
  {
  }

  lemma LookupErrorStep(c: Config, s: State, t: nat)
    requires At(s, t, PassedChain)
    ensures Enabled(c, s, LookupError(t)) && Do(c, s, LookupError(t)) == DoLookupError(s, t)
  {
  }

  lemma LookupErrorFacts(c: Config, s: State, t: nat)
    requires At(s, t, PassedChain)
    ensures var s' := DoLookupError(s, t);
            && s'.tasks == s.tasks[t := s.tasks[t].(stage := LookupFailed, look := Look(s.clock, |s.cache.ops|, None))]
            && s'.clock == s.clock && s'.win == s.win && s'.cache == s.cache && s'.grants == s.grants && s'.out == s.out
            && s'.m == s.m.(cacheErrors := s.m.cacheErrors + 1)
  {
    hide N.Parse;
  }

  lemma LookupFacts(c: Config, s: State, t: nat)
    requires At(s, t, PassedChain)
    ensures var s' := DoLookup(c, s, t);
            var found := M.Lookup(s.cache.data, Key(s.tasks[t]), s.clock);
            var stage := if found.None? then Missed else Found;
            && s'.tasks == s.tasks[t := s.tasks[t].(stage := stage, look := Look(s.clock, |s.cache.ops|, found))]
            && s'.clock == s.clock && s'.win == s.win && s'.cache == s.cache && s'.grants == s.grants
            && s'.out.egress == s.out.egress
            && s'.out.replies == (if stage != Missed || s.tasks[t].src.None? || c.suppressMISS then s.out.replies
                                  else s.out.replies + [Reply(t, N.MISS)])
            && s'.m == (if stage == Missed then s.m.(misses := s.m.misses + 1) else s.m.(hits := s.m.hits + 1))
  {
    hide N.Parse, M.Lookup, N.Response;
  }

  lemma RetransmitStep(c: Config, s: State, t: nat, a: Attempt)
    requires At(s, t, Cleared) && s.tasks[t].look.raw.Some? && Plausible(c, s.tasks[t].look.raw.value, a)
    ensures Enabled(c, s, Step.Retransmit(t, a)) && Do(c, s, Step.Retransmit(t, a)) == DoRetransmit(c, s, t, a)
  {
  }

  lemma GroupStep(c: Config, s: State, t: nat, verdict: bool)
    requires At(s, t, Found) && s.tasks[t].look.raw.Some?
    ensures Enabled(c, s, AskGroup(t, verdict)) && Do(c, s, AskGroup(t, verdict)) == DoGroup(c, s, t, verdict)
  {
  }
}
