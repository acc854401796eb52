/** Runs of the endpoint put together step by step, for the theorems that say a run exists. */
module EndpointRuns {
  import opened Options
  import opened Keys
  import B = Bytes
  import W = SlidingWindow
  import M = MemoryCache
  import I = Ingress
  import N = Nack
  import opened Endpoint
  import opened EndpointInvariants

  lemma Extend(c: Config, run: seq<Step>, step: Step)
    requires CanRun(c, run) && Enabled(c, Run(c, run), step)
    ensures CanRun(c, run + [step])
    ensures Run(c, run + [step]) == Do(c, Run(c, run), step)
  {
    hide Do, Enabled;
    assert (run + [step])[..|run|] == run;
  }

  /** A NACK as a listener builds it for one frame. */
  function NackFor(h: B.Uint64, n: B.Uint64): (nack: B.ByteString)
    ensures N.Parse(nack) == N.Single(h, n)
  {
    var zeros: B.ByteString := seq(32, _ => 0);
    N.ParseBuilt(0, h, n, n, zeros);
    N.Build(0, h, n, n, zeros)
  }

  /** Whether both windows have room for a NACK's call. */
  predicate Room(c: Config, s: State, src: string, h: B.Uint64, n: B.Uint64, reading: int) {
    && W.Admits(c.seqPolicy, W.Entry(s.win.seqs, n), reading)
    && (h != 0 ==> W.Admits(c.chainPolicy, W.Entry(s.win.chains, ChainKey(src, h)), reading))
  }

  /** A NACK that has passed the tiers before the lookup. */
  function Passed(nack: B.ByteString, src: Option<string>, seqIx: nat, chainIx: nat): (task: Task)
  {
    Task(nack, src, PassedChain, seqIx, chainIx, 0, Look(0, 0, None))
  }

  /** The state after a NACK has come in and passed the first three tiers. */
  function AfterTiers(c: Config, s: State, src: Option<string>, h: B.Uint64, n: B.Uint64, reading: int): (s': State)
  {
    var t := |s.tasks|;
    var task := Passed(NackFor(h, n), src, |s.win.seqLog|, if h == 0 then 0 else |s.win.chainLog|);
    var win := s.win.(seqLog := s.win.seqLog + [W.Call(n, reading, t)],
                      seqs := W.Allow(c.seqPolicy, s.win.seqs, n, reading));
    var win' := if h == 0 then win
                else
                  var key := ChainKey(Source(task), h);
                  win.(chainLog := s.win.chainLog + [W.Call(key, reading, t)],
                       chains := W.Allow(c.chainPolicy, s.win.chains, key, reading));
    s.(tasks := s.tasks + [task], win := win', m := s.m.(requests := s.m.requests + 1))
  }

  lemma AfterTiersAt(c: Config, s: State, src: Option<string>, h: B.Uint64, n: B.Uint64, reading: int)
    ensures var s' := AfterTiers(c, s, src, h, n, reading);
            && |s'.tasks| == |s.tasks| + 1 && s'.tasks[..|s.tasks|] == s.tasks && At(s', |s.tasks|, PassedChain)
            && SeqNum(s'.tasks[|s.tasks|]) == n && HashKey(s'.tasks[|s.tasks|]) == h
            && s'.tasks == s.tasks + [Passed(NackFor(h, n), src, |s.win.seqLog|,
                                             if h == 0 then 0 else |s.win.chainLog|)]
            && s'.clock == s.clock && s'.cache == s.cache && s'.out == s.out && s'.grants == s.grants
            && s'.win.seqLog == s.win.seqLog + [W.Call(n, reading, |s.tasks|)]
            && (h == 0 ==> s'.win.chainLog == s.win.chainLog)
            && (h != 0 ==>
                 s'.win.chainLog == s.win.chainLog + [W.Call(ChainKey(SourceText(src), h), reading, |s.tasks|)])
  {
    hide W.Allow, N.Parse, NackFor, ChainKey;
  }

  /** A NACK comes in and passes IP, sequence and chain tier at one time. */
  lemma PassTiers(c: Config, run: seq<Step>, src: Option<string>, h: B.Uint64, n: B.Uint64, reading: int)
    returns (more: seq<Step>)
    requires CanRun(c, run) && Room(c, Run(c, run), SourceText(src), h, n, reading)
    requires Run(c, run).clock - c.lag <= reading <= Run(c, run).clock
    ensures CanRun(c, run + more) && Run(c, run + more) == AfterTiers(c, Run(c, run), src, h, n, reading)
    ensures Asking(more)
  {
    hide Run, CanRun, N.Parse, N.Build, W.Admits, W.Allow, ChainKey, NackFor;
    var s := Run(c, run);
    var t, nack := |s.tasks|, NackFor(h, n);
    var r1, r2 := run + [Arrive(nack, src)], run + [Arrive(nack, src)] + [AskIP(t, true)];
    Extend(c, run, Arrive(nack, src));
    var s1 := Run(c, r1);
    assert s1.tasks[t] == Task(nack, src, Fresh, 0, 0, 0, Look(0, 0, None));
    Extend(c, r1, AskIP(t, true));
    var s2 := Run(c, r2);
    assert s2.tasks == s.tasks + [Task(nack, src, PassedIP, 0, 0, 0, Look(0, 0, None))];
    var s4 := PassWindows(c, r2, s, nack, src, h, n, reading);
    more := [Arrive(nack, src), AskIP(t, true), AskSeq(t, reading), AskChain(t, reading)];
    assert r2 + [AskSeq(t, reading)] + [AskChain(t, reading)] == run + more;
  }

  lemma PassWindows(c: Config, run: seq<Step>, s: State, nack: B.ByteString, src: Option<string>, h: B.Uint64,
                    n: B.Uint64, reading: int) returns (s': State)
    requires CanRun(c, run) && N.Parse(nack) == N.Single(h, n) && nack == NackFor(h, n)
    requires Run(c, run) == s.(tasks := s.tasks + [Task(nack, src, PassedIP, 0, 0, 0, Look(0, 0, None))],
                               m := s.m.(requests := s.m.requests + 1))
    requires Room(c, s, SourceText(src), h, n, reading) && s.clock - c.lag <= reading <= s.clock
    ensures var t := |s.tasks|;
            var run' := run + [AskSeq(t, reading)] + [AskChain(t, reading)];
            CanRun(c, run') && Run(c, run') == s' == AfterTiers(c, s, src, h, n, reading)
  {
    hide Run, CanRun, N.Parse, N.Build, W.Admits, W.Allow, ChainKey, NackFor;
    var t := |s.tasks|;
    Extend(c, run, AskSeq(t, reading));
    var r3 := run + [AskSeq(t, reading)];
    assert Run(c, r3).tasks == s.tasks + [Task(nack, src, PassedSeq, |s.win.seqLog|, 0, 0, Look(0, 0, None))];
    Extend(c, r3, AskChain(t, reading));
    s' := Run(c, r3 + [AskChain(t, reading)]);
    assert s'.tasks == AfterTiers(c, s, src, h, n, reading).tasks;
  }

  /** Steps of one endpoint's NACKs up to their retransmit. */
  predicate Asking(steps: seq<Step>) {
    forall i :: 0 <= i < |steps| ==> !steps[i].Tick? && !steps[i].Retransmit? && !steps[i].Frame? && !steps[i].Sweep?
  }

  // ----- a frame is received and asked for -----

  /** Every call so far was read a window or more ago. */
  ghost predicate Quiet(c: Config, s: State) {
    && (forall i :: 0 <= i < |s.win.seqLog| ==> s.win.seqLog[i].now + c.seqPolicy.window <= s.clock)
    && (forall i :: 0 <= i < |s.win.chainLog| ==> s.win.chainLog[i].now + c.chainPolicy.window <= s.clock)
  }

  lemma QuietAdmits<K>(p: W.Policy, log: seq<W.Call<K>>, key: K, clock: int)
    requires p.max >= 1 && forall i :: 0 <= i < |log| ==> log[i].now + p.window <= clock
    ensures W.Admits(p, W.Entry(W.Entries(p, log), key), clock)
  {
    hide W.List, W.Admits, W.Readings, W.Entries;
    W.KeysAreIndependent(p, log, key);
    var t := clock - p.window;
    W.ReadingsBefore(log, key, t + 1);
    var rs := W.Readings(log, key);
    assert rs + [] == rs;
    W.QuietCallAdmitted(p, rs, t, [], clock);
  }

  /** After a quiet time every NACK has room. */
  lemma QuietHasRoom(c: Config, s: State, src: string, h: B.Uint64, n: B.Uint64)
    requires LimitInv(c, s) && Quiet(c, s) && c.seqPolicy.max >= 1 && c.chainPolicy.max >= 1
    ensures Room(c, s, src, h, n, s.clock)
  {
    hide W.Admits, W.Entries, ChainKey;
    QuietAdmits(c.seqPolicy, s.win.seqLog, n, s.clock);
    QuietAdmits(c.chainPolicy, s.win.chainLog, ChainKey(src, h), s.clock);
  }

  /** Once the longer of the two windows has passed it is quiet. */
  lemma WaitForQuiet(c: Config, run: seq<Step>, dt: nat)
    requires CanRun(c, run) && dt >= c.seqPolicy.window && dt >= c.chainPolicy.window
    ensures CanRun(c, run + [Tick(dt)])
    ensures Run(c, run + [Tick(dt)]) == Run(c, run).(clock := Run(c, run).clock + dt)
    ensures Quiet(c, Run(c, run + [Tick(dt)]))
  {
    RunInv(c, run);
    hide Run, CanRun, CacheInv, TaskInv, TimeInv, ReplyInv, EgressInv, MetricsInv, W.Entries;
    Extend(c, run, Tick(dt));
  }

  lemma SomeVictims(data: M.Data, maxKeys: int) returns (victims: set<B.ByteString>)
    ensures M.VictimsOk(data, maxKeys, victims)
  {
    victims := {};
    if M.Full(data, maxKeys) {
      assert data.Keys != {};
      var k :| k in data;
      victims := {k};
    }
  }

  /** A frame with a stamp. */
  ghost predicate Stamped(c: Config, raw: B.ByteString, h: B.Uint64, n: B.Uint64) {
    I.Files(c.codec, raw, h, n)
  }

  lemma ReceiveFrame(c: Config, run: seq<Step>, raw: B.ByteString, h: B.Uint64, n: B.Uint64) returns (step: Step)
    requires CanRun(c, run) && Stamped(c, raw, h, n) && c.ttl >= 0
    ensures step.Frame? && CanRun(c, run + [step])
    ensures var s, s' := Run(c, run), Run(c, run + [step]);
            && s' == s.(cache := s'.cache)
            && M.Lookup(s'.cache.data, B.CacheKey(h, n), s'.clock) == Some(raw)
  {
    hide Run, CanRun, I.StampOf, I.Carries, M.VictimsOk;
    var s := Run(c, run);
    var victims := SomeVictims(s.cache.data, c.maxKeys);
    step := Frame(raw, c.ttl, victims);
    I.FilesExactly(c.codec, raw, h, n);
    hide I.Classify, B.CacheKey, I.Files;
    Extend(c, run, step);
  }

  /** A NACK that found a frame and was cleared by the group tier. */
  predicate ClearedFor(task: Task, raw: B.ByteString, src: Option<string>, h: B.Uint64, n: B.Uint64) {
    && task.stage == Cleared && task.nack == NackFor(h, n) && task.src == src && task.look.raw == Some(raw)
  }

  /** The state after one NACK more, cleared with what it found, and nothing else said or sent. */
  ghost predicate Fetched(c: Config, s: State, s': State, raw: B.ByteString, src: Option<string>, h: B.Uint64,
                          n: B.Uint64) {
    && |s'.tasks| == |s.tasks| + 1 && s'.tasks[..|s.tasks|] == s.tasks
    && ClearedFor(s'.tasks[|s.tasks|], raw, src, h, n)
    && s'.out == s.out && s'.clock == s.clock
    && (!c.hasEngine ==> s'.grants == s.grants)
    && (c.hasEngine ==>
          s'.grants == s.grants + [Grant(|s.tasks|, GroupKey(SourceText(src), c.groupIndex(TxID(raw))), true)])
  }

  lemma Clear(c: Config, run: seq<Step>, s: State, raw: B.ByteString, src: Option<string>, h: B.Uint64, n: B.Uint64)
    requires CanRun(c, run) && |s.tasks| + 1 == |Run(c, run).tasks| && Run(c, run).tasks[..|s.tasks|] == s.tasks
    requires Run(c, run).tasks[|s.tasks|].stage == PassedChain
    requires Run(c, run).tasks[|s.tasks|].nack == NackFor(h, n) && Run(c, run).tasks[|s.tasks|].src == src
    requires Run(c, run).out == s.out && Run(c, run).clock == s.clock && Run(c, run).grants == s.grants
    requires M.Lookup(Run(c, run).cache.data, B.CacheKey(h, n), s.clock) == Some(raw)
    ensures var run' := run + [Lookup(|s.tasks|)] + [AskGroup(|s.tasks|, true)];
            CanRun(c, run') && Fetched(c, s, Run(c, run'), raw, src, h, n)
  {
    hide Run, CanRun, N.Parse, N.Ack, NackFor, M.Lookup, B.CacheKey, GroupKey, TxID;
    var t := |s.tasks|;
    Extend(c, run, Lookup(t));
    var r1 := run + [Lookup(t)];
    assert Run(c, r1).tasks[t].stage == Found && Run(c, r1).tasks[t].look.raw == Some(raw);
    Extend(c, r1, AskGroup(t, true));
  }

  lemma StillQuiet(c: Config, s: State, s': State)
    requires Quiet(c, s) && s'.win == s.win && s'.clock == s.clock
    ensures Quiet(c, s')
    ensures Inv(c, s') ==> LimitInv(c, s')
  {
    hide CacheInv, TaskInv, TimeInv, ReplyInv, EgressInv, MetricsInv, LimitInv;
  }

  lemma AskingSteps(run: seq<Step>, tiers: seq<Step>, t: nat)
    requires Asking(tiers)
    ensures var more := tiers + [Lookup(t)] + [AskGroup(t, true)];
            Asking(more) && run + more == run + tiers + [Lookup(t)] + [AskGroup(t, true)]
  {
  }

  /** After a quiet time a frame in the cache can be asked for, found and cleared. */
  lemma AskFor(c: Config, run: seq<Step>, raw: B.ByteString, src: Option<string>, h: B.Uint64, n: B.Uint64)
    returns (more: seq<Step>)
    requires CanRun(c, run) && Quiet(c, Run(c, run))
    requires M.Lookup(Run(c, run).cache.data, B.CacheKey(h, n), Run(c, run).clock) == Some(raw)
    requires c.seqPolicy.max >= 1 && c.chainPolicy.max >= 1
    ensures Asking(more) && CanRun(c, run + more)
    ensures Fetched(c, Run(c, run), Run(c, run + more), raw, src, h, n)
  {
    hide Run, CanRun, NackFor, M.Lookup, B.CacheKey, Fetched, AfterTiers, Inv, Room, Quiet, Asking;
    var s := Run(c, run);
    assert LimitInv(c, s) by { RunInv(c, run); StillQuiet(c, s, s); }
    QuietHasRoom(c, s, SourceText(src), h, n);
    var tiers := PassTiers(c, run, src, h, n, s.clock);
    AfterTiersAt(c, s, src, h, n, s.clock);
    Clear(c, run + tiers, s, raw, src, h, n);
    var t := |s.tasks|;
    more := tiers + [Lookup(t)] + [AskGroup(t, true)];
    AskingSteps(run, tiers, t);
  }

  /** After a quiet time a stamped frame can be received, asked for, found and cleared. */
  lemma Fetch(c: Config, run: seq<Step>, raw: B.ByteString, src: Option<string>, h: B.Uint64, n: B.Uint64)
    returns (run': seq<Step>)
    requires CanRun(c, run) && Quiet(c, Run(c, run)) && Stamped(c, raw, h, n)
    requires c.seqPolicy.max >= 1 && c.chainPolicy.max >= 1 && c.ttl >= 0
    ensures CanRun(c, run') && Fetched(c, Run(c, run), Run(c, run'), raw, src, h, n)
  {
    hide Run, CanRun, M.Lookup, B.CacheKey, Stamped, Quiet, ClearedFor;
    var frame := ReceiveFrame(c, run, raw, h, n);
    StillQuiet(c, Run(c, run), Run(c, run + [frame]));
    var more := AskFor(c, run + [frame], raw, src, h, n);
    run' := run + [frame] + more;
  }
}
