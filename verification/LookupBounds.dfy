/**
 How many lookups the sliding-window tiers let through: by the readings with which NACKs were
 admitted, and by the times at which their lookups were made.
 */
module LookupBounds {
  import opened Options
  import opened Keys
  import B = Bytes
  import W = SlidingWindow
  import N = Nack
  import opened Endpoint
  import opened EndpointInvariants
  import opened EndpointRuns

  lemma {:induction false} InjectionBound(a: set<nat>, b: set<nat>, f: map<nat, nat>)
    requires forall x :: x in a ==> x in f && f[x] in b
    requires forall x, y :: x in a && y in a && x in f && y in f && f[x] == f[y] ==> x == y
    ensures |a| <= |b|
  {
    if a != {} {
      var x :| x in a;
      InjectionBound(a - {x}, b - {f[x]}, f);
      assert |a - {x}| == |a| - 1 && |b - {f[x]}| == |b| - 1;
    }
  }

  /** The reading with which a NACK passed the sequence tier. */
  function SeqReading(s: State, task: Task): (t: int)
  {
    if task.seqIx < |s.win.seqLog| then s.win.seqLog[task.seqIx].now else 0
  }

  function ChainReading(s: State, task: Task): (t: int)
  {
    if task.chainIx < |s.win.chainLog| then s.win.chainLog[task.chainIx].now else 0
  }

  /** A NACK for a sequence number, from any source and flow, whose lookup was made. */
  predicate SeqLookup(s: State, seqNum: B.Uint64, t: nat) {
    t < |s.tasks| && LookedUp(s.tasks[t].stage) && Asks(s.tasks[t]) && SeqNum(s.tasks[t]) == seqNum
  }

  /** A NACK of a source for a flow whose lookup was made. */
  predicate ChainLookup(s: State, src: string, h: B.Uint64, t: nat) {
    && t < |s.tasks| && LookedUp(s.tasks[t].stage) && Asks(s.tasks[t]) && HashKey(s.tasks[t]) == h
    && Source(s.tasks[t]) == src
  }

  // ----- counted by the readings -----

  ghost function SeqLookupsRead(s: State, seqNum: B.Uint64, from: int, to: int): (ts: set<nat>)
  {
    set t: nat | t < |s.tasks| && SeqLookup(s, seqNum, t) && from <= SeqReading(s, s.tasks[t]) < to
  }

  ghost function ChainLookupsRead(s: State, src: string, h: B.Uint64, from: int, to: int): (ts: set<nat>)
  {
    set t: nat | t < |s.tasks| && ChainLookup(s, src, h, t) && from <= ChainReading(s, s.tasks[t]) < to
  }

  lemma SeqLookupIsAdmitted(c: Config, s: State, seqNum: B.Uint64, t: nat)
    requires Inv(c, s) && SeqLookup(s, seqNum, t)
    ensures s.tasks[t].seqIx < |s.win.seqLog| && s.win.seqLog[s.tasks[t].seqIx].who == t
    ensures s.win.seqLog[s.tasks[t].seqIx].key == seqNum && W.AdmittedAt(c.seqPolicy, s.win.seqLog, s.tasks[t].seqIx)
  {
    hide CacheInv, TimeInv, ReplyInv, EgressInv, MetricsInv, LimitInv, N.Parse, W.AdmittedAt;
    assert TaskOk(c, s, t, s.tasks[t]);
  }

  lemma ChainLookupIsAdmitted(c: Config, s: State, src: string, h: B.Uint64, t: nat)
    requires Inv(c, s) && h != 0 && ChainLookup(s, src, h, t)
    ensures s.tasks[t].chainIx < |s.win.chainLog| && s.win.chainLog[s.tasks[t].chainIx].who == t
    ensures s.win.chainLog[s.tasks[t].chainIx].key == ChainKey(src, h)
    ensures W.AdmittedAt(c.chainPolicy, s.win.chainLog, s.tasks[t].chainIx)
  {
    hide CacheInv, TimeInv, ReplyInv, EgressInv, MetricsInv, LimitInv, N.Parse, W.AdmittedAt, ChainKey;
    assert TaskOk(c, s, t, s.tasks[t]);
  }

  /**
   Of the NACKs admitted by readings in an interval of a window less the lag, at most SequenceMax for
   one sequence number go on to a lookup, over all sources and flows.
   */
  lemma SequenceTierBound(c: Config, steps: seq<Step>, seqNum: B.Uint64, from: int, to: int)
    requires CanRun(c, steps) && to - from <= c.seqPolicy.window - c.lag
    ensures |SeqLookupsRead(Run(c, steps), seqNum, from, to)| <= c.seqPolicy.max
  {
    RunInv(c, steps);
    hide Run, CanRun, Inv, SeqLookup, SeqLookupsRead, W.AdmittedIn, W.RunLag;
    var s := Run(c, steps);
    var a := SeqLookupsRead(s, seqNum, from, to);
    forall t | t in a ensures t < |s.tasks| { SeqReadInLog(c, s, seqNum, from, to, t); }
    var f := map t | t in a :: s.tasks[t].seqIx;
    forall t | t in a
      ensures f[t] in W.AdmittedIn(c.seqPolicy, s.win.seqLog, seqNum, from, to)
              && f[t] < |s.win.seqLog| && s.win.seqLog[f[t]].who == t
    {
      SeqReadInLog(c, s, seqNum, from, to, t);
    }
    LogBound(a, W.AdmittedIn(c.seqPolicy, s.win.seqLog, seqNum, from, to), f, s.win.seqLog);
    LogLag(c, s);
    W.KeyedSkewBound(c.seqPolicy, s.win.seqLog, seqNum, c.lag, from, to);
  }

  lemma LogLag(c: Config, s: State)
    requires Inv(c, s)
    ensures W.RunLag(s.win.seqLog, c.lag) && W.RunLag(s.win.chainLog, c.lag)
  {
    hide CacheInv, TaskInv, TimeInv, ReplyInv, EgressInv, MetricsInv, W.RunLag, W.Entries;
  }

  lemma SeqReadInLog(c: Config, s: State, seqNum: B.Uint64, from: int, to: int, t: nat)
    requires Inv(c, s) && t in SeqLookupsRead(s, seqNum, from, to)
    ensures t < |s.tasks| && s.tasks[t].seqIx in W.AdmittedIn(c.seqPolicy, s.win.seqLog, seqNum, from, to)
    ensures s.tasks[t].seqIx < |s.win.seqLog| && s.win.seqLog[s.tasks[t].seqIx].who == t
  {
    hide Inv, SeqLookup, W.AdmittedAt;
    SeqLookupIsAdmitted(c, s, seqNum, t);
  }

  /** Likewise at most the chain maximum for a source and a HashKey other than zero. */
  lemma ChainTierBound(c: Config, steps: seq<Step>, src: string, h: B.Uint64, from: int, to: int)
    requires CanRun(c, steps) && h != 0 && to - from <= c.chainPolicy.window - c.lag
    ensures |ChainLookupsRead(Run(c, steps), src, h, from, to)| <= c.chainPolicy.max
  {
    RunInv(c, steps);
    hide Run, CanRun, Inv, ChainLookup, ChainLookupsRead, W.AdmittedIn, W.RunLag, ChainKey;
    var s := Run(c, steps);
    var key := ChainKey(src, h);
    var a := ChainLookupsRead(s, src, h, from, to);
    forall t | t in a ensures t < |s.tasks| { ChainReadInLog(c, s, src, h, from, to, t); }
    var f := map t | t in a :: s.tasks[t].chainIx;
    forall t | t in a
      ensures f[t] in W.AdmittedIn(c.chainPolicy, s.win.chainLog, key, from, to)
              && f[t] < |s.win.chainLog| && s.win.chainLog[f[t]].who == t
    {
      ChainReadInLog(c, s, src, h, from, to, t);
    }
    LogBound(a, W.AdmittedIn(c.chainPolicy, s.win.chainLog, key, from, to), f, s.win.chainLog);
    LogLag(c, s);
    W.KeyedSkewBound(c.chainPolicy, s.win.chainLog, key, c.lag, from, to);
  }

  lemma ChainReadInLog(c: Config, s: State, src: string, h: B.Uint64, from: int, to: int, t: nat)
    requires Inv(c, s) && h != 0 && t in ChainLookupsRead(s, src, h, from, to)
    ensures t < |s.tasks|
            && s.tasks[t].chainIx in W.AdmittedIn(c.chainPolicy, s.win.chainLog, ChainKey(src, h), from, to)
    ensures s.tasks[t].chainIx < |s.win.chainLog| && s.win.chainLog[s.tasks[t].chainIx].who == t
  {
    hide Inv, ChainLookup, W.AdmittedAt, ChainKey;
    ChainLookupIsAdmitted(c, s, src, h, t);
  }

  // ----- counted by the times of the lookups -----

  ghost function SeqLookupsAt(s: State, seqNum: B.Uint64, from: int, to: int): (ts: set<nat>)
  {
    set t: nat | t < |s.tasks| && SeqLookup(s, seqNum, t) && from <= s.tasks[t].look.at < to
  }

  ghost function ChainLookupsAt(s: State, src: string, h: B.Uint64, from: int, to: int): (ts: set<nat>)
  {
    set t: nat | t < |s.tasks| && ChainLookup(s, src, h, t) && from <= s.tasks[t].look.at < to
  }

  /** No lookup for the number was made more than so long after the reading that admitted it. */
  ghost predicate SeqPrompt(s: State, seqNum: B.Uint64, delay: nat) {
    forall t: nat :: SeqLookup(s, seqNum, t) ==> s.tasks[t].look.at <= SeqReading(s, s.tasks[t]) + delay
  }

  ghost predicate ChainPrompt(s: State, src: string, h: B.Uint64, delay: nat) {
    forall t: nat :: ChainLookup(s, src, h, t) ==> s.tasks[t].look.at <= ChainReading(s, s.tasks[t]) + delay
  }

  /** The largest of the indices given. */
  lemma {:induction false} Largest(a: set<nat>, f: map<nat, nat>) returns (x: nat)
    requires a != {} && forall t :: t in a ==> t in f
    ensures x in a && forall t :: t in a ==> t in f && x in f && f[t] <= f[x]
  {
    var y :| y in a;
    if a == {y} {
      x := y;
    } else {
      x := Largest(a - {y}, f);
      if f[x] < f[y] { x := y; }
    }
  }

  /**
   A NACK admitted at an index of a log and looked up at a time, at most so long after its reading;
   nothing up to that index was read after the lookup.
   */
  ghost predicate Ticket<K>(p: W.Policy, log: seq<W.Call<K>>, key: K, t: nat, ix: nat, at: int, delay: nat) {
    && ix < |log| && log[ix].who == t && log[ix].key == key && W.AdmittedAt(p, log, ix)
    && at <= log[ix].now + delay
    && (forall i :: 0 <= i <= ix ==> log[i].now <= at)
  }

  lemma TicketAdmitted<K>(p: W.Policy, log: seq<W.Call<K>>, key: K, t: nat, ix: nat, at: int, delay: nat,
                          last: nat, from: int, to: int)
    requires Ticket(p, log, key, t, ix, at, delay) && ix <= last < |log| && from <= at < to
    ensures ix in W.AdmittedIn(p, log[..last + 1], key, from - delay, to)
  {
    hide W.AdmittedAt;
    var pre := log[..last + 1];
    assert pre <= log;
    AdmittedKept(p, pre, log, ix);
    assert log[ix].now <= at;
  }

  lemma TicketWho<K>(p: W.Policy, log: seq<W.Call<K>>, key: K, t: nat, ix: nat, at: int, delay: nat)
    requires Ticket(p, log, key, t, ix, at, delay)
    ensures ix < |log| && log[ix].who == t
  {
    hide W.AdmittedAt;
  }

  lemma LogReadBefore<K>(p: W.Policy, log: seq<W.Call<K>>, key: K, t: nat, ix: nat, at: int, delay: nat, to: int,
                         pre: seq<W.Call<K>>)
    requires Ticket(p, log, key, t, ix, at, delay) && at < to && pre == log[..ix + 1]
    ensures forall i :: 0 <= i < |pre| ==> pre[i].now < to
  {
    hide W.AdmittedAt;
  }

  /** Each NACK is admitted at its own index, so they are at most as many as the admissions they name. */
  lemma TicketsBound<K>(p: W.Policy, log: seq<W.Call<K>>, key: K, a: set<nat>, f: map<nat, nat>, at: map<nat, int>,
                        from: int, to: int, delay: nat, last: nat)
    requires forall t :: t in a ==>
               t in f && t in at && Ticket(p, log, key, t, f[t], at[t], delay) && from <= at[t] < to
    requires last < |log| && forall t :: t in a ==> t in f && f[t] <= last
    ensures |a| <= |W.AdmittedIn(p, log[..last + 1], key, from - delay, to)|
  {
    hide W.AdmittedIn, Ticket;
    var admitted := W.AdmittedIn(p, log[..last + 1], key, from - delay, to);
    forall t | t in a ensures t in f && f[t] in admitted && f[t] < |log| && log[f[t]].who == t {
      TicketWho(p, log, key, t, f[t], at[t], delay);
      TicketAdmitted(p, log, key, t, f[t], at[t], delay, last, from, to);
    }
    LogBound(a, admitted, f, log);
  }

  lemma LogBound<K>(a: set<nat>, b: set<nat>, f: map<nat, nat>, log: seq<W.Call<K>>)
    requires forall t :: t in a ==> t in f && f[t] in b && f[t] < |log| && log[f[t]].who == t
    ensures |a| <= |b|
  {
    forall x, y | x in a && y in a && x in f && y in f && f[x] == f[y] ensures x == y {
      assert log[f[x]].who == x && log[f[y]].who == y;
    }
    InjectionBound(a, b, f);
  }

  /**
   NACKs looked up in an interval of the window less the delay are at most max, whatever the lag: the
   last of them to be admitted found the others no longer in the window.
   */
  lemma LookupsBound<K>(p: W.Policy, log: seq<W.Call<K>>, key: K, a: set<nat>, f: map<nat, nat>, at: map<nat, int>,
                        from: int, to: int, delay: nat)
    requires forall t :: t in a ==>
               t in f && t in at && Ticket(p, log, key, t, f[t], at[t], delay) && from <= at[t] < to
    requires to - from <= p.window - delay
    ensures |a| <= p.max
  {
    if a != {} {
      hide W.AdmittedIn, Ticket;
      var x := Largest(a, f);
      TicketWho(p, log, key, x, f[x], at[x], delay);
      var pre := log[..f[x] + 1];
      TicketsBound(p, log, key, a, f, at, from, to, delay, f[x]);
      LogReadBefore(p, log, key, x, f[x], at[x], delay, to, pre);
      W.KeyedRecentBound(p, pre, key, from - delay, to);
    }
  }

  lemma SeqTicket(c: Config, s: State, seqNum: B.Uint64, t: nat, delay: nat)
    requires Inv(c, s) && SeqLookup(s, seqNum, t) && SeqPrompt(s, seqNum, delay)
    ensures Ticket(c.seqPolicy, s.win.seqLog, seqNum, t, s.tasks[t].seqIx, s.tasks[t].look.at, delay)
  {
    SeqLookupIsAdmitted(c, s, seqNum, t);
    hide LimitInv, CacheInv, ReplyInv, EgressInv, MetricsInv, TaskInv, W.AdmittedAt, N.Parse;
    assert TimeOk(s, s.tasks[t]);
  }

  lemma ChainTicket(c: Config, s: State, src: string, h: B.Uint64, t: nat, delay: nat)
    requires Inv(c, s) && h != 0 && ChainLookup(s, src, h, t) && ChainPrompt(s, src, h, delay)
    ensures Ticket(c.chainPolicy, s.win.chainLog, ChainKey(src, h), t, s.tasks[t].chainIx, s.tasks[t].look.at, delay)
  {
    hide LimitInv, CacheInv, ReplyInv, EgressInv, MetricsInv, TaskInv, W.AdmittedAt, N.Parse, ChainKey;
    ChainLookupIsAdmitted(c, s, src, h, t);
    assert TimeOk(s, s.tasks[t]);
  }

  /**
   Within any interval of a window less the delay at most SequenceMax lookups are made for a sequence
   number, over all sources and flows, however the NACKs interleave and however late the readings are.
   */
  lemma SequenceLookupBound(c: Config, steps: seq<Step>, seqNum: B.Uint64, from: int, to: int, delay: nat)
    requires CanRun(c, steps) && SeqPrompt(Run(c, steps), seqNum, delay) && to - from <= c.seqPolicy.window - delay
    ensures |SeqLookupsAt(Run(c, steps), seqNum, from, to)| <= c.seqPolicy.max
  {
    RunInv(c, steps);
    hide Run, CanRun, Inv, SeqLookup, SeqPrompt, Ticket;
    var s := Run(c, steps);
    var a := SeqLookupsAt(s, seqNum, from, to);
    var f := map t | t in a :: s.tasks[t].seqIx;
    var at := map t | t in a :: s.tasks[t].look.at;
    forall t | t in a ensures Ticket(c.seqPolicy, s.win.seqLog, seqNum, t, f[t], at[t], delay) {
      SeqTicket(c, s, seqNum, t, delay);
    }
    LookupsBound(c.seqPolicy, s.win.seqLog, seqNum, a, f, at, from, to, delay);
  }

  /** Likewise at most the chain maximum for a source and a HashKey other than zero. */
  lemma ChainLookupBound(c: Config, steps: seq<Step>, src: string, h: B.Uint64, from: int, to: int, delay: nat)
    requires CanRun(c, steps) && h != 0 && ChainPrompt(Run(c, steps), src, h, delay)
    requires to - from <= c.chainPolicy.window - delay
    ensures |ChainLookupsAt(Run(c, steps), src, h, from, to)| <= c.chainPolicy.max
  {
    RunInv(c, steps);
    hide Run, CanRun, Inv, ChainLookup, ChainPrompt, Ticket, ChainKey;
    var s := Run(c, steps);
    var key := ChainKey(src, h);
    var a := ChainLookupsAt(s, src, h, from, to);
    var f := map t | t in a :: s.tasks[t].chainIx;
    var at := map t | t in a :: s.tasks[t].look.at;
    forall t | t in a ensures Ticket(c.chainPolicy, s.win.chainLog, key, t, f[t], at[t], delay) {
      ChainTicket(c, s, src, h, t, delay);
    }
    LookupsBound(c.chainPolicy, s.win.chainLog, key, a, f, at, from, to, delay);
  }

  // ----- the runs that show the bounds cannot be improved -----

  /** NACK t after a lookup that found nothing. */
  function MissedTask(task: Task, s: State): (task': Task)
  {
    task.(stage := Missed, look := Look(s.clock, |s.cache.ops|, None))
  }

  /** From one state to another the first k NACKs have been looked up, and missed, and nothing else counts. */
  ghost predicate Looked(s: State, s': State, k: nat) {
    && s'.win == s.win && s'.clock == s.clock && s'.cache == s.cache && |s'.tasks| == |s.tasks|
    && (forall i :: 0 <= i < |s.tasks| && i < k ==> s'.tasks[i] == MissedTask(s.tasks[i], s))
    && (forall i :: k <= i < |s.tasks| ==> s'.tasks[i] == s.tasks[i])
  }

  lemma LookupMisses(c: Config, run: seq<Step>, t: nat)
    requires CanRun(c, run) && At(Run(c, run), t, PassedChain) && Run(c, run).cache.data == map[]
    ensures CanRun(c, run + [Lookup(t)])
    ensures var s, s' := Run(c, run), Run(c, run + [Lookup(t)]);
            && s'.win == s.win && s'.clock == s.clock && s'.cache == s.cache
            && s'.tasks == s.tasks[t := MissedTask(s.tasks[t], s)]
  {
    hide Run, CanRun, N.Parse, N.Response, B.CacheKey;
    Extend(c, run, Lookup(t));
  }

  lemma {:induction false} LookAll(c: Config, run: seq<Step>, k: nat) returns (run': seq<Step>)
    requires CanRun(c, run) && k <= |Run(c, run).tasks| && Run(c, run).cache.data == map[]
    requires forall i :: 0 <= i < k ==> At(Run(c, run), i, PassedChain)
    ensures CanRun(c, run') && Looked(Run(c, run), Run(c, run'), k)
  {
    hide Run, CanRun, N.Parse;
    if k == 0 {
      run' := run;
    } else {
      var r := LookAll(c, run, k - 1);
      assert Run(c, r).tasks[k - 1] == Run(c, run).tasks[k - 1] && At(Run(c, run), k - 1, PassedChain);
      LookupMisses(c, r, k - 1);
      run' := r + [Lookup(k - 1)];
    }
  }

  lemma JustTick(c: Config, run: seq<Step>, dt: nat)
    requires CanRun(c, run)
    ensures CanRun(c, run + [Tick(dt)])
    ensures Run(c, run + [Tick(dt)]) == Run(c, run).(clock := Run(c, run).clock + dt)
  {
    hide Run, CanRun;
    Extend(c, run, Tick(dt));
  }

  /** Whether a NACK was admitted by a reading of the sequence tier and looked up at a time. */
  predicate SeqServed(s: State, seqNum: B.Uint64, t: nat, reading: int, at: int) {
    SeqLookup(s, seqNum, t) && SeqReading(s, s.tasks[t]) == reading && s.tasks[t].look.at == at
  }

  predicate ChainServed(s: State, src: string, h: B.Uint64, t: nat, reading: int, at: int) {
    ChainLookup(s, src, h, t) && ChainReading(s, s.tasks[t]) == reading && s.tasks[t].look.at == at
  }

  /** The first n NACKs for one number, all admitted at time zero, stand before their lookup. */
  ghost predicate SeqReady(s: State, seqNum: B.Uint64, src: Option<string>, n: nat) {
    && s.clock == 0 && s.cache.data == map[] && |s.tasks| == n && |s.win.seqLog| == n && s.win.chainLog == []
    && W.Readings(s.win.seqLog, seqNum) == W.Zeros(n) && SeqTasks(s, seqNum, src, n)
  }

  ghost predicate SeqTasks(s: State, seqNum: B.Uint64, src: Option<string>, n: nat)
    requires |s.tasks| == n == |s.win.seqLog|
  {
    && (forall i :: 0 <= i < n ==> s.tasks[i] == Passed(NackFor(0, seqNum), src, i, 0))
    && (forall i :: 0 <= i < n ==> s.win.seqLog[i].now == 0)
  }

  lemma SeqTasksStep(s: State, s': State, seqNum: B.Uint64, src: Option<string>, n: nat)
    requires SeqReady(s, seqNum, src, n)
    requires s'.tasks == s.tasks + [Passed(NackFor(0, seqNum), src, n, 0)]
    requires s'.win.seqLog == s.win.seqLog + [W.Call(seqNum, 0, n)]
    ensures SeqTasks(s', seqNum, src, n + 1)
  {
    hide W.Readings, W.Zeros, NackFor;
  }

  lemma ZerosHaveRoom(p: W.Policy, n: nat)
    requires n < p.max && p.window > 0
    ensures W.Admits(p, W.List(p, W.Zeros(n)), 0)
  {
    hide W.Admits, W.List, W.Stored, W.Zeros;
    W.Burst(p, n);
    W.RoomForOneMore(p, W.Zeros(n), 0);
  }

  lemma SeqReadyStep(c: Config, s: State, seqNum: B.Uint64, src: Option<string>, n: nat)
    requires SeqReady(s, seqNum, src, n)
    ensures SeqReady(AfterTiers(c, s, src, 0, seqNum, 0), seqNum, src, n + 1)
  {
    assert W.Zeros(n + 1) == W.Zeros(n) + [0];
    hide W.Readings, W.Zeros, NackFor, AfterTiers, Passed, SeqTasks;
    AfterTiersAt(c, s, src, 0, seqNum, 0);
    SeqTasksStep(s, AfterTiers(c, s, src, 0, seqNum, 0), seqNum, src, n);
    W.ReadingsStep(s.win.seqLog, W.Call(seqNum, 0, |s.tasks|), seqNum);
  }

  /** What the tiers hold is what their logs make of it. */
  lemma ListsAreEntries(c: Config, run: seq<Step>)
    requires CanRun(c, run)
    ensures Run(c, run).win.seqs == W.Entries(c.seqPolicy, Run(c, run).win.seqLog)
    ensures Run(c, run).win.chains == W.Entries(c.chainPolicy, Run(c, run).win.chainLog)
  {
    RunInv(c, run);
    hide Run, CanRun, CacheInv, TaskInv, TimeInv, ReplyInv, EgressInv, MetricsInv, W.Entries;
  }

  lemma SeqRoom(c: Config, run: seq<Step>, seqNum: B.Uint64, src: Option<string>, n: nat)
    requires CanRun(c, run) && SeqReady(Run(c, run), seqNum, src, n) && n < c.seqPolicy.max && c.seqPolicy.window > 0
    ensures Room(c, Run(c, run), SourceText(src), 0, seqNum, 0)
  {
    hide Run, CanRun, W.Entries, W.Admits, W.List, W.Zeros, W.Readings, SeqTasks;
    ListsAreEntries(c, run);
    W.KeysAreIndependent(c.seqPolicy, Run(c, run).win.seqLog, seqNum);
    ZerosHaveRoom(c.seqPolicy, n);
  }

  lemma {:induction false} SeqCrowd(c: Config, seqNum: B.Uint64, src: Option<string>, n: nat) returns (run: seq<Step>)
    requires n <= c.seqPolicy.max && c.seqPolicy.window > 0
    ensures CanRun(c, run) && SeqReady(Run(c, run), seqNum, src, n)
  {
    if n == 0 {
      run := [];
    } else {
      hide Run, CanRun, AfterTiers, Room;
      var before := SeqCrowd(c, seqNum, src, n - 1);
      SeqRoom(c, before, seqNum, src, n - 1);
      SeqReadyStep(c, Run(c, before), seqNum, src, n - 1);
      assert Run(c, before).clock == 0;
      hide SeqReady;
      var more := PassTiers(c, before, src, 0, seqNum, 0);
      run := before + more;
    }
  }

  /** After the crowd's lookups, and once its window has passed, one NACK more is admitted and looked up. */
  lemma OneMoreLookup(c: Config, run: seq<Step>, seqNum: B.Uint64, src: Option<string>) returns (run': seq<Step>)
    requires CanRun(c, run) && c.seqPolicy.max >= 1 && Run(c, run).cache.data == map[]
    requires forall i :: 0 <= i < |Run(c, run).win.seqLog| ==>
               Run(c, run).win.seqLog[i].now + c.seqPolicy.window <= Run(c, run).clock
    ensures CanRun(c, run')
    ensures var s, s' := Run(c, run), Run(c, run');
            && |s'.tasks| == |s.tasks| + 1 && s'.tasks[..|s.tasks|] == s.tasks && s.win.seqLog <= s'.win.seqLog
            && SeqServed(s', seqNum, |s.tasks|, s.clock, s.clock)
  {
    RunInv(c, run);
    hide Run, CanRun, CacheInv, TaskInv, TimeInv, ReplyInv, EgressInv, MetricsInv, W.Entries, W.Admits, AfterTiers,
         SeqServed;
    var s := Run(c, run);
    QuietAdmits(c.seqPolicy, s.win.seqLog, seqNum, s.clock);
    var more := PassTiers(c, run, src, 0, seqNum, s.clock);
    var r := run + more;
    AfterTiersAt(c, s, src, 0, seqNum, s.clock);
    LookupMisses(c, r, |s.tasks|);
    run' := r + [Lookup(|s.tasks|)];
    ServedLast(s, Run(c, r), Run(c, run'), seqNum);
  }

  lemma ServedLast(s: State, s1: State, s2: State, seqNum: B.Uint64)
    requires |s1.tasks| == |s.tasks| + 1 && s1.tasks[..|s.tasks|] == s.tasks && At(s1, |s.tasks|, PassedChain)
    requires SeqNum(s1.tasks[|s.tasks|]) == seqNum && s1.clock == s.clock && s1.tasks[|s.tasks|].seqIx == |s.win.seqLog|
    requires s1.win.seqLog == s.win.seqLog + [W.Call(seqNum, s.clock, |s.tasks|)]
    requires s2.win == s1.win && s2.tasks == s1.tasks[|s.tasks| := MissedTask(s1.tasks[|s.tasks|], s1)]
    ensures |s2.tasks| == |s.tasks| + 1 && s2.tasks[..|s.tasks|] == s.tasks && s.win.seqLog <= s2.win.seqLog
    ensures SeqServed(s2, seqNum, |s.tasks|, s.clock, s.clock)
  {
    hide N.Parse;
  }

  /**
   SequenceMax NACKs are admitted at time zero and looked up `delay` later; one more is admitted and
   looked up when the window has passed.
   */
  lemma SeqLateRun(c: Config, seqNum: B.Uint64, src: Option<string>, delay: nat) returns (run: seq<Step>)
    requires c.seqPolicy.max >= 1 && c.seqPolicy.window > 0 && delay <= c.seqPolicy.window
    ensures CanRun(c, run) && |Run(c, run).tasks| == c.seqPolicy.max + 1
    ensures forall t :: 0 <= t < c.seqPolicy.max ==> SeqServed(Run(c, run), seqNum, t, 0, delay)
    ensures SeqServed(Run(c, run), seqNum, c.seqPolicy.max, c.seqPolicy.window, c.seqPolicy.window)
  {
    hide Run, CanRun, N.Parse, W.Readings, W.Zeros, NackFor;
    var n := c.seqPolicy.max;
    var r0 := SeqCrowd(c, seqNum, src, n);
    JustTick(c, r0, delay);
    var r1 := r0 + [Tick(delay)];
    var r2 := LookAll(c, r1, n);
    JustTick(c, r2, c.seqPolicy.window - delay);
    var r3 := r2 + [Tick(c.seqPolicy.window - delay)];
    run := OneMoreLookup(c, r3, seqNum, src);
    forall t | 0 <= t < n ensures SeqServed(Run(c, run), seqNum, t, 0, delay) {
      assert Run(c, run).tasks[t] == Run(c, r3).tasks[..n][t] == MissedTask(Run(c, r1).tasks[t], Run(c, r1));
    }
  }

  lemma {:induction false} CountUpTo(a: set<nat>, n: nat)
    requires forall t: nat :: t < n ==> t in a
    ensures |a| >= n
  {
    if n > 0 {
      CountUpTo(a - {n - 1}, n - 1);
    }
  }

  ghost predicate SeqExceeds(c: Config, steps: seq<Step>, seqNum: B.Uint64, from: int, to: int)
    requires CanRun(c, steps)
  {
    |SeqLookupsAt(Run(c, steps), seqNum, from, to)| > c.seqPolicy.max
  }

  /** No interval of the length ever holds more than SequenceMax lookups, as long as lookups are prompt. */
  ghost predicate SeqBounded(c: Config, seqNum: B.Uint64, delay: nat, length: int) {
    forall steps, from, to ::
      CanRun(c, steps) && SeqPrompt(Run(c, steps), seqNum, delay) && to == from + length ==>
        !SeqExceeds(c, steps, seqNum, from, to)
  }

  lemma OnlyTasks(s: State, seqNum: B.Uint64, t: nat)
    requires SeqLookup(s, seqNum, t)
    ensures t < |s.tasks|
  {
  }

  lemma SeqServedAt(s: State, seqNum: B.Uint64, t: nat, reading: int, at: int, from: int, to: int, delay: nat)
    requires SeqServed(s, seqNum, t, reading, at) && from <= at < to && at <= reading + delay
    ensures t in SeqLookupsAt(s, seqNum, from, to) && s.tasks[t].look.at <= SeqReading(s, s.tasks[t]) + delay
  {
    hide N.Parse;
  }

  lemma SeqLateRunExceeds(c: Config, seqNum: B.Uint64, delay: nat, d: nat, length: int) returns (run: seq<Step>)
    requires c.seqPolicy.max >= 1 && c.seqPolicy.window > 0 && d <= delay && d <= c.seqPolicy.window
    requires length > c.seqPolicy.window - d
    ensures CanRun(c, run) && SeqPrompt(Run(c, run), seqNum, delay) && SeqExceeds(c, run, seqNum, d, d + length)
  {
    run := SeqLateRun(c, seqNum, None, d);
    hide Run, CanRun, SeqLookup, SeqReading;
    var s, n := Run(c, run), c.seqPolicy.max;
    hide SeqLookupsAt, SeqServed;
    forall t: nat | t < n + 1
      ensures t in SeqLookupsAt(s, seqNum, d, d + length) && s.tasks[t].look.at <= SeqReading(s, s.tasks[t]) + delay
    {
      if t < n { SeqServedAt(s, seqNum, t, 0, d, d, d + length, delay); }
      else { SeqServedAt(s, seqNum, t, c.seqPolicy.window, c.seqPolicy.window, d, d + length, delay); }
    }
    forall t: nat | SeqLookup(s, seqNum, t) ensures t < n + 1 { OnlyTasks(s, seqNum, t); }
    CountUpTo(SeqLookupsAt(s, seqNum, d, d + length), n + 1);
  }

  /** With a sequence maximum of zero no NACK gets as far as a lookup. */
  lemma NothingLookedUp(c: Config, steps: seq<Step>, seqNum: B.Uint64, t: nat)
    requires CanRun(c, steps) && c.seqPolicy.max == 0
    ensures !SeqLookup(Run(c, steps), seqNum, t)
  {
    RunInv(c, steps);
    hide Run, CanRun, Inv, W.List, W.Readings;
    if SeqLookup(Run(c, steps), seqNum, t) {
      SeqLookupIsAdmitted(c, Run(c, steps), seqNum, t);
      assert false;
    }
  }

  /**
   Exactly which intervals of lookup times the sequence tier bounds: those no longer than the window
   less the time a lookup may follow its reading. So the full window is bounded only if every lookup
   is made at the very time of its reading. A maximum of zero bounds everything.
   */
  lemma ExactSequenceLookupBound(c: Config, seqNum: B.Uint64, delay: nat, length: int)
    requires c.seqPolicy.window > 0
    ensures SeqBounded(c, seqNum, delay, length)
            <==> c.seqPolicy.max == 0 || length <= 0 || length <= c.seqPolicy.window - delay
  {
    if c.seqPolicy.max == 0 || length <= 0 || length <= c.seqPolicy.window - delay {
      forall steps, from, to | CanRun(c, steps) && SeqPrompt(Run(c, steps), seqNum, delay) && to == from + length
        ensures !SeqExceeds(c, steps, seqNum, from, to)
      {
        if c.seqPolicy.max == 0 {
          forall t: nat ensures !SeqLookup(Run(c, steps), seqNum, t) { NothingLookedUp(c, steps, seqNum, t); }
          assert SeqLookupsAt(Run(c, steps), seqNum, from, to) == {};
        } else if length <= 0 {
          assert SeqLookupsAt(Run(c, steps), seqNum, from, to) == {};
        } else {
          SequenceLookupBound(c, steps, seqNum, from, to, delay);
        }
      }
    } else {
      var d := if delay <= c.seqPolicy.window then delay else c.seqPolicy.window;
      var run := SeqLateRunExceeds(c, seqNum, delay, d, length);
    }
  }

  // ----- the same for the chain tier -----

  /** The first n NACKs of a source for one flow and successive numbers, all admitted at time zero. */
  ghost predicate ChainReady(s: State, src: Option<string>, h: B.Uint64, n: nat)
    requires n <= INT_RANGE
  {
    && s.clock == 0 && s.cache.data == map[] && |s.tasks| == n && |s.win.chainLog| == n
    && W.Readings(s.win.chainLog, ChainKey(SourceText(src), h)) == W.Zeros(n)
    && NewNumbers(s.win.seqLog, n) && ChainTasks(s, src, h, n)
  }

  /** No number beyond n was asked for. */
  ghost predicate NewNumbers(log: seq<W.Call<B.Uint64>>, n: nat) {
    forall m: B.Uint64 :: m > n ==> W.Readings(log, m) == []
  }

  ghost predicate ChainTasks(s: State, src: Option<string>, h: B.Uint64, n: nat)
    requires n <= INT_RANGE && |s.tasks| == n == |s.win.chainLog|
  {
    && (forall i :: 0 <= i < n ==> s.tasks[i] == Passed(NackFor(h, i + 1), src, s.tasks[i].seqIx, i))
    && (forall i :: 0 <= i < n ==> s.win.chainLog[i].now == 0)
  }

  /** The limits of the code are integers below 2 to the 63. */
  const INT_RANGE := 0x8000_0000_0000_0000

  lemma NewNumberHasRoom(p: W.Policy, entries: map<B.Uint64, seq<int>>, log: seq<W.Call<B.Uint64>>, m: B.Uint64,
                         now: int)
    requires p.max >= 1 && entries == W.Entries(p, log) && W.Readings(log, m) == []
    ensures W.Admits(p, W.Entry(entries, m), now)
  {
    hide W.Entries, W.Readings;
    W.KeysAreIndependent(p, log, m);
    W.SurvivorsNone([], now - p.window);
  }

  lemma ChainTasksStep(s: State, s': State, src: Option<string>, h: B.Uint64, n: nat)
    requires h != 0 && n + 1 <= INT_RANGE && ChainReady(s, src, h, n)
    requires s'.tasks == s.tasks + [Passed(NackFor(h, n + 1), src, |s.win.seqLog|, n)]
    requires s'.win.chainLog == s.win.chainLog + [W.Call(ChainKey(SourceText(src), h), 0, |s.tasks|)]
    ensures ChainTasks(s', src, h, n + 1)
  {
    hide W.Readings, W.Zeros, NackFor, ChainKey, NewNumbers;
  }

  lemma NewNumbersStep(log: seq<W.Call<B.Uint64>>, log': seq<W.Call<B.Uint64>>, call: W.Call<B.Uint64>, n: nat)
    requires NewNumbers(log, n) && log' == log + [call] && call.key == n + 1
    ensures NewNumbers(log', n + 1)
  {
    hide W.Readings;
    forall m: B.Uint64 | m > n + 1 ensures W.Readings(log', m) == [] { W.ReadingsStep(log, call, m); }
  }

  lemma ChainReadyStep(c: Config, s: State, src: Option<string>, h: B.Uint64, n: nat)
    requires h != 0 && n + 1 <= INT_RANGE && ChainReady(s, src, h, n)
    ensures ChainReady(AfterTiers(c, s, src, h, n + 1, 0), src, h, n + 1)
  {
    assert W.Zeros(n + 1) == W.Zeros(n) + [0];
    hide W.Readings, W.Zeros, NackFor, ChainKey, AfterTiers, Passed, ChainTasks, NewNumbers;
    var s' := AfterTiers(c, s, src, h, n + 1, 0);
    AfterTiersAt(c, s, src, h, n + 1, 0);
    ChainTasksStep(s, s', src, h, n);
    W.ReadingsStep(s.win.chainLog, W.Call(ChainKey(SourceText(src), h), 0, |s.tasks|), ChainKey(SourceText(src), h));
    NewNumbersStep(s.win.seqLog, s'.win.seqLog, W.Call(n + 1, 0, |s.tasks|), n);
  }

  lemma ChainRoom(c: Config, run: seq<Step>, src: Option<string>, h: B.Uint64, n: nat)
    requires CanRun(c, run) && n + 1 <= INT_RANGE && ChainReady(Run(c, run), src, h, n)
    requires n < c.chainPolicy.max && c.chainPolicy.window > 0 && c.seqPolicy.max >= 1
    ensures Room(c, Run(c, run), SourceText(src), h, n + 1, 0)
  {
    hide Run, CanRun, W.Entries, W.Admits, W.List, W.Zeros, W.Readings, ChainKey, ChainTasks;
    ListsAreEntries(c, run);
    var s := Run(c, run);
    assert W.Readings(s.win.seqLog, n + 1) == [];
    W.KeysAreIndependent(c.chainPolicy, s.win.chainLog, ChainKey(SourceText(src), h));
    ZerosHaveRoom(c.chainPolicy, n);
    NewNumberHasRoom(c.seqPolicy, s.win.seqs, s.win.seqLog, n + 1, 0);
  }

  lemma NobodyReady(c: Config, src: Option<string>, h: B.Uint64)
    ensures CanRun(c, []) && ChainReady(Run(c, []), src, h, 0)
  {
    hide ChainKey;
  }

  lemma ChainReadyClock(s: State, src: Option<string>, h: B.Uint64, n: nat)
    requires n <= INT_RANGE && ChainReady(s, src, h, n)
    ensures s.clock == 0
  {
    hide ChainKey, NewNumbers, ChainTasks;
  }

  lemma {:induction false} ChainCrowd(c: Config, src: Option<string>, h: B.Uint64, n: nat) returns (run: seq<Step>)
    requires h != 0 && n <= c.chainPolicy.max && c.chainPolicy.window > 0 && c.seqPolicy.max >= 1 && n <= INT_RANGE
    ensures CanRun(c, run) && ChainReady(Run(c, run), src, h, n)
  {
    hide Run, CanRun, AfterTiers, Room, ChainReady;
    if n == 0 {
      NobodyReady(c, src, h);
      run := [];
    } else {
      var before := ChainCrowd(c, src, h, n - 1);
      ChainRoom(c, before, src, h, n - 1);
      ChainReadyStep(c, Run(c, before), src, h, n - 1);
      assert Run(c, before).clock == 0 by { ChainReadyClock(Run(c, before), src, h, n - 1); }
      var more := PassTiers(c, before, src, h, n, 0);
      run := before + more;
    }
  }

  lemma ChainServedLast(s: State, s1: State, s2: State, src: Option<string>, h: B.Uint64)
    requires |s1.tasks| == |s.tasks| + 1 && s1.tasks[..|s.tasks|] == s.tasks && At(s1, |s.tasks|, PassedChain)
    requires HashKey(s1.tasks[|s.tasks|]) == h && s1.tasks[|s.tasks|].src == src
    requires s1.clock == s.clock && s1.tasks[|s.tasks|].chainIx == |s.win.chainLog|
    requires s1.win.chainLog == s.win.chainLog + [W.Call(ChainKey(SourceText(src), h), s.clock, |s.tasks|)]
    requires s2.win == s1.win && s2.tasks == s1.tasks[|s.tasks| := MissedTask(s1.tasks[|s.tasks|], s1)]
    ensures |s2.tasks| == |s.tasks| + 1 && s2.tasks[..|s.tasks|] == s.tasks && s.win.chainLog <= s2.win.chainLog
    ensures ChainServed(s2, SourceText(src), h, |s.tasks|, s.clock, s.clock)
  {
    hide N.Parse, ChainKey;
  }

  lemma OneMoreChainLookup(c: Config, run: seq<Step>, src: Option<string>, h: B.Uint64, m: B.Uint64)
    returns (run': seq<Step>)
    requires CanRun(c, run) && h != 0 && c.seqPolicy.max >= 1 && c.chainPolicy.max >= 1
             && Run(c, run).cache.data == map[]
    requires W.Readings(Run(c, run).win.seqLog, m) == []
    requires forall i :: 0 <= i < |Run(c, run).win.chainLog| ==>
               Run(c, run).win.chainLog[i].now + c.chainPolicy.window <= Run(c, run).clock
    ensures CanRun(c, run')
    ensures var s, s' := Run(c, run), Run(c, run');
            && |s'.tasks| == |s.tasks| + 1 && s'.tasks[..|s.tasks|] == s.tasks && s.win.chainLog <= s'.win.chainLog
            && ChainServed(s', SourceText(src), h, |s.tasks|, s.clock, s.clock)
  {
    RunInv(c, run);
    hide Run, CanRun, CacheInv, TaskInv, TimeInv, ReplyInv, EgressInv, MetricsInv, W.Entries, W.Admits, AfterTiers;
    hide ChainServed, ChainKey, W.Readings;
    var s := Run(c, run);
    QuietAdmits(c.chainPolicy, s.win.chainLog, ChainKey(SourceText(src), h), s.clock);
    NewNumberHasRoom(c.seqPolicy, s.win.seqs, s.win.seqLog, m, s.clock);
    var more := PassTiers(c, run, src, h, m, s.clock);
    var r := run + more;
    AfterTiersAt(c, s, src, h, m, s.clock);
    LookupMisses(c, r, |s.tasks|);
    run' := r + [Lookup(|s.tasks|)];
    ChainServedLast(s, Run(c, r), Run(c, run'), src, h);
  }

  lemma ChainLateRun(c: Config, src: Option<string>, h: B.Uint64, delay: nat) returns (run: seq<Step>)
    requires h != 0 && c.seqPolicy.max >= 1 && 1 <= c.chainPolicy.max < INT_RANGE
    requires c.chainPolicy.window > 0 && delay <= c.chainPolicy.window
    ensures CanRun(c, run) && |Run(c, run).tasks| == c.chainPolicy.max + 1
    ensures forall t :: 0 <= t < c.chainPolicy.max ==> ChainServed(Run(c, run), SourceText(src), h, t, 0, delay)
    ensures ChainServed(Run(c, run), SourceText(src), h, c.chainPolicy.max, c.chainPolicy.window, c.chainPolicy.window)
  {
    hide Run, CanRun, N.Parse, W.Readings, W.Zeros, NackFor, ChainKey;
    var n := c.chainPolicy.max;
    var r0 := ChainCrowd(c, src, h, n);
    JustTick(c, r0, delay);
    var r1 := r0 + [Tick(delay)];
    var r2 := LookAll(c, r1, n);
    JustTick(c, r2, c.chainPolicy.window - delay);
    var r3 := r2 + [Tick(c.chainPolicy.window - delay)];
    run := OneMoreChainLookup(c, r3, src, h, n + 1);
    forall t | 0 <= t < n ensures ChainServed(Run(c, run), SourceText(src), h, t, 0, delay) {
      assert Run(c, run).tasks[t] == Run(c, r3).tasks[..n][t] == MissedTask(Run(c, r1).tasks[t], Run(c, r1));
    }
  }

  ghost predicate ChainExceeds(c: Config, steps: seq<Step>, src: string, h: B.Uint64, from: int, to: int)
    requires CanRun(c, steps)
  {
    |ChainLookupsAt(Run(c, steps), src, h, from, to)| > c.chainPolicy.max
  }

  ghost predicate ChainBounded(c: Config, src: string, h: B.Uint64, delay: nat, length: int) {
    forall steps, from, to ::
      CanRun(c, steps) && ChainPrompt(Run(c, steps), src, h, delay) && to == from + length ==>
        !ChainExceeds(c, steps, src, h, from, to)
  }

  lemma OnlyChainTasks(s: State, src: string, h: B.Uint64, t: nat)
    requires ChainLookup(s, src, h, t)
    ensures t < |s.tasks|
  {
  }

  lemma ChainServedAt(s: State, src: string, h: B.Uint64, t: nat, reading: int, at: int, from: int, to: int, delay: nat)
    requires ChainServed(s, src, h, t, reading, at) && from <= at < to && at <= reading + delay
    ensures t in ChainLookupsAt(s, src, h, from, to) && s.tasks[t].look.at <= ChainReading(s, s.tasks[t]) + delay
  {
    hide N.Parse;
  }

  lemma ChainLateRunExceeds(c: Config, src: string, h: B.Uint64, delay: nat, d: nat, length: int)
    returns (run: seq<Step>)
    requires h != 0 && c.seqPolicy.max >= 1 && 1 <= c.chainPolicy.max < INT_RANGE && c.chainPolicy.window > 0
    requires d <= delay && d <= c.chainPolicy.window && length > c.chainPolicy.window - d
    ensures CanRun(c, run) && ChainPrompt(Run(c, run), src, h, delay) && ChainExceeds(c, run, src, h, d, d + length)
  {
    run := ChainLateRun(c, Some(src), h, d);
    hide Run, CanRun, ChainLookup, ChainReading;
    var s, n := Run(c, run), c.chainPolicy.max;
    hide ChainLookupsAt, ChainServed;
    forall t: nat | t < n + 1
      ensures t in ChainLookupsAt(s, src, h, d, d + length) && s.tasks[t].look.at <= ChainReading(s, s.tasks[t]) + delay
    {
      if t < n { ChainServedAt(s, src, h, t, 0, d, d, d + length, delay); }
      else { ChainServedAt(s, src, h, t, c.chainPolicy.window, c.chainPolicy.window, d, d + length, delay); }
    }
    forall t: nat | ChainLookup(s, src, h, t) ensures t < n + 1 { OnlyChainTasks(s, src, h, t); }
    CountUpTo(ChainLookupsAt(s, src, h, d, d + length), n + 1);
  }

  /** If the sequence tier or the chain tier admits nothing, no NACK gets as far as a lookup. */
  lemma NoChainLookedUp(c: Config, steps: seq<Step>, src: string, h: B.Uint64, t: nat)
    requires CanRun(c, steps) && h != 0 && (c.seqPolicy.max == 0 || c.chainPolicy.max == 0)
    ensures !ChainLookup(Run(c, steps), src, h, t)
  {
    RunInv(c, steps);
    hide Run, CanRun, Inv, W.List, W.Readings, N.Parse;
    var s := Run(c, steps);
    if ChainLookup(s, src, h, t) {
      if c.seqPolicy.max == 0 {
        NothingLookedUp(c, steps, SeqNum(s.tasks[t]), t);
      } else {
        ChainLookupIsAdmitted(c, s, src, h, t);
      }
      assert false;
    }
  }

  /** Likewise for the chain tier, unless one of the two tiers admits nothing at all. */
  lemma ExactChainLookupBound(c: Config, src: string, h: B.Uint64, delay: nat, length: int)
    requires h != 0 && c.chainPolicy.max < INT_RANGE && c.chainPolicy.window > 0
    ensures ChainBounded(c, src, h, delay, length)
            <==> c.seqPolicy.max == 0 || c.chainPolicy.max == 0 || length <= 0 || length <= c.chainPolicy.window - delay
  {
    if c.seqPolicy.max == 0 || c.chainPolicy.max == 0 || length <= 0 || length <= c.chainPolicy.window - delay {
      forall steps, from, to | CanRun(c, steps) && ChainPrompt(Run(c, steps), src, h, delay) && to == from + length
        ensures !ChainExceeds(c, steps, src, h, from, to)
      {
        if c.seqPolicy.max == 0 || c.chainPolicy.max == 0 {
          forall t: nat ensures !ChainLookup(Run(c, steps), src, h, t) { NoChainLookedUp(c, steps, src, h, t); }
          assert ChainLookupsAt(Run(c, steps), src, h, from, to) == {};
        } else if length <= 0 {
          assert ChainLookupsAt(Run(c, steps), src, h, from, to) == {};
        } else {
          ChainLookupBound(c, steps, src, h, from, to, delay);
        }
      }
    } else {
      var d := if delay <= c.chainPolicy.window then delay else c.chainPolicy.window;
      var run := ChainLateRunExceeds(c, src, h, delay, d, length);
    }
  }
}
