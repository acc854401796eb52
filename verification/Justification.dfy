/**
 What a NACK is answered with comes from what was received before its lookup: theorems over the
 steps of every run, however they interleave.
 */
module Justification {
  import opened Options
  import opened Keys
  import B = Bytes
  import W = SlidingWindow
  import M = MemoryCache
  import I = Ingress
  import N = Nack
  import R = Retransmit
  import opened Endpoint
  import opened EndpointInvariants

  // ----- the cache's history is that of the frames received -----

  /** The time after a run. */
  function Clock(steps: seq<Step>): (now: int)
  {
    if steps == [] then 0
    else
      var before, last := Clock(steps[..|steps| - 1]), steps[|steps| - 1];
      if last.Tick? then before + last.dt else before
  }

  /** A step that brings a frame to be filed under a key: that of the pair its decoder gives. */
  ghost predicate Brings(c: Config, step: Step, key: B.ByteString) {
    step.Frame? && exists h, n :: I.Files(c.codec, step.raw, h, n) && key == B.CacheKey(h, n)
  }

  lemma BringsExactly(c: Config, step: Step, key: B.ByteString)
    ensures Brings(c, step, key) <==>
              step.Frame? && step.raw != [] && I.Classify(c.codec, step.raw) == I.Cacheable(key)
  {
    hide I.Classify, I.Carries, B.CacheKey;
    if step.Frame? && step.raw != [] { I.FiledUnder(c.codec, step.raw, key); }
  }

  /** The operations a run makes on the cache. */
  function Ops(c: Config, steps: seq<Step>): (ops: seq<M.Op>)
  {
    if steps == [] then []
    else
      var before, last := steps[..|steps| - 1], steps[|steps| - 1];
      match last
      case Frame(raw, ttl, victims) =>
        if raw == [] then Ops(c, before)
        else
          (match I.Classify(c.codec, raw)
           case Cacheable(key) => Ops(c, before) + [M.Store(key, raw, ttl, Clock(before), victims)]
           case _ => Ops(c, before))
      case Sweep => Ops(c, before) + [M.Sweep(Clock(before))]
      case _ => Ops(c, before)
  }

  lemma OpsStep(c: Config, s: State, step: Step)
    requires Enabled(c, s, step)
    ensures Do(c, s, step).clock == if step.Tick? then s.clock + step.dt else s.clock
    ensures !step.Frame? && !step.Sweep? ==> Do(c, s, step).cache == s.cache
  {
    hide DoSeq, DoChain, DoLookup, DoLookupError, DoGroup, DoRetransmit, DoArrive, DoIP;
    hide N.Parse, I.Classify, M.VictimsOk, M.Apply, Acts;
    match step
    case Arrive(nack, src) => ActsArrive(c, s, nack, src); hide DoOp; SameTime(c, s, step);
    case Tick(_) =>
    case Frame(_, _, _) =>
    case Sweep =>
    case AskIP(t, verdict) => ActsIP(c, s, t, verdict); SameTime(c, s, step);
    case AskSeq(t, reading) => ActsSeq(c, s, t, reading); SameTime(c, s, step);
    case AskChain(t, reading) => ActsChain(c, s, t, reading); SameTime(c, s, step);
    case Lookup(t) => ActsLookup(c, s, t); SameTime(c, s, step);
    case LookupError(t) => ActsLookupError(c, s, t); SameTime(c, s, step);
    case AskGroup(t, verdict) => ActsGroup(c, s, t, verdict); SameTime(c, s, step);
    case Retransmit(t, a) => ActsRetransmit(c, s, t, a); SameTime(c, s, step);
  }

  lemma SameTime(c: Config, s: State, step: Step)
    requires Enabled(c, s, step) && !step.Tick?
    ensures Do(c, s, step).clock == s.clock
  {
    hide N.Parse, N.Ack, M.Lookup, W.Allow, W.Admits, ChainKey, BucketOf, DestOf, Writes, M.Apply, I.Classify;
  }

  lemma {:induction false} RunOps(c: Config, steps: seq<Step>)
    requires CanRun(c, steps)
    ensures Run(c, steps).clock == Clock(steps) && Run(c, steps).cache.ops == Ops(c, steps)
  {
    if steps != [] {
      var before, last := steps[..|steps| - 1], steps[|steps| - 1];
      RunOps(c, before);
      hide I.Classify, M.VictimsOk, M.Apply, N.Parse;
      OpsStep(c, Run(c, before), last);
    }
  }

  lemma {:induction false} OpsPrefix(c: Config, steps: seq<Step>, j: nat)
    requires j <= |steps|
    ensures Ops(c, steps[..j]) <= Ops(c, steps) && Clock(steps[..j]) <= Clock(steps)
  {
    hide I.Classify;
    if j == |steps| {
      assert steps[..j] == steps;
    } else {
      var before := steps[..|steps| - 1];
      OpsPrefix(c, before, j);
      assert before[..j] == steps[..j];
    }
  }

  lemma OpsOfPrefixes(c: Config, steps: seq<Step>, i: nat, j: nat)
    requires i <= j <= |steps|
    ensures Ops(c, steps[..i]) <= Ops(c, steps[..j]) && Clock(steps[..i]) <= Clock(steps[..j])
  {
    OpsPrefix(c, steps[..j], i);
    assert steps[..j][..i] == steps[..i];
  }

  /** Every store is a frame received, at that time. */
  lemma {:induction false} StoreIsFrame(c: Config, steps: seq<Step>, i: nat) returns (j: nat)
    requires i < |Ops(c, steps)| && Ops(c, steps)[i].Store?
    ensures j < |steps| && Brings(c, steps[j], Ops(c, steps)[i].key) && steps[j].raw == Ops(c, steps)[i].value
    ensures steps[j].ttl == Ops(c, steps)[i].ttl
    ensures Clock(steps[..j]) == Ops(c, steps)[i].now && |Ops(c, steps[..j])| == i
  {
    hide I.Classify, Brings;
    var before := steps[..|steps| - 1];
    if i < |Ops(c, before)| {
      j := StoreIsFrame(c, before, i);
      assert before[..j] == steps[..j];
      assert Ops(c, before)[i] == Ops(c, steps)[i];
    } else {
      j := |before|;
      BringsExactly(c, steps[j], Ops(c, steps)[i].key);
    }
  }

  /** Every frame received that can be cached is a store, at that time. */
  lemma FrameIsStore(c: Config, steps: seq<Step>, j: nat, key: B.ByteString)
    requires j < |steps| && Brings(c, steps[j], key)
    ensures var i := |Ops(c, steps[..j])|;
            && i < |Ops(c, steps)| && i < |Ops(c, steps[..j + 1])| && Ops(c, steps)[i].Store?
            && Ops(c, steps)[i].key == key && Ops(c, steps)[i].now == Clock(steps[..j])
            && Ops(c, steps)[i].ttl == steps[j].ttl && Ops(c, steps)[i].value == steps[j].raw
  {
    var upTo := steps[..j + 1];
    assert upTo[..j] == steps[..j];
    hide I.Classify, Brings;
    BringsExactly(c, steps[j], key);
    OpsPrefix(c, steps, j + 1);
    assert Ops(c, upTo)[|Ops(c, steps[..j])|] == Ops(c, steps)[|Ops(c, steps[..j])|];
  }

  // ----- every lookup is a step of the run -----

  /** Step n is the lookup of NACK t, made with what had happened by then. */
  ghost predicate LooksUp(c: Config, steps: seq<Step>, n: nat, t: nat, look: Look) {
    && n < |steps| && steps[n] == Lookup(t)
    && look.at == Clock(steps[..n]) && look.ops == |Ops(c, steps[..n])|
  }

  ghost predicate HasLookup(c: Config, steps: seq<Step>, t: nat, look: Look) {
    exists n: nat :: LooksUp(c, steps, n, t, look)
  }

  lemma LookupKept(c: Config, before: seq<Step>, step: Step, t: nat, look: Look)
    requires HasLookup(c, before, t, look)
    ensures HasLookup(c, before + [step], t, look)
  {
    hide Ops, Clock;
    var n: nat :| LooksUp(c, before, n, t, look);
    assert (before + [step])[..n] == before[..n];
    assert LooksUp(c, before + [step], n, t, look);
  }

  predicate Answerable(stage: Stage) { Hit(stage) || stage == Missed }

  lemma EarlyStages(c: Config, s: State, step: Step, t: nat)
    requires Enabled(c, s, step) && t < |Do(c, s, step).tasks| && t == Actor(s, step)
    requires step.Arrive? || step.AskIP? || step.AskSeq? || step.AskChain? || step.LookupError?
    ensures !Answerable(Do(c, s, step).tasks[t].stage)
  {
    hide N.Parse, W.Allow, W.Admits, ChainKey;
    hide DoLookup, DoGroup, DoRetransmit, DoFrame, DoOp;
  }

  lemma LateStages(c: Config, s: State, step: Step, t: nat)
    requires Enabled(c, s, step) && t < |Do(c, s, step).tasks| && t == Actor(s, step)
    requires step.AskGroup? || step.Retransmit?
    ensures t < |s.tasks| && Do(c, s, step).tasks[t].look == s.tasks[t].look && Answerable(s.tasks[t].stage)
  {
    hide N.Parse, N.Ack, BucketOf, DestOf, Writes, R.Enters, Plausible;
    hide DoLookup, DoArrive, DoIP, DoSeq, DoChain, DoLookupError, DoFrame, DoOp;
  }

  /** Only a lookup brings a NACK to a stage past it, and nothing changes what it saw. */
  lemma LookStep(c: Config, s: State, step: Step, t: nat)
    requires Enabled(c, s, step) && t < |Do(c, s, step).tasks| && Answerable(Do(c, s, step).tasks[t].stage)
    ensures step == Lookup(t) ==> Do(c, s, step).tasks[t].look.at == s.clock
                                  && Do(c, s, step).tasks[t].look.ops == |s.cache.ops|
    ensures step != Lookup(t) ==> t < |s.tasks| && Do(c, s, step).tasks[t].look == s.tasks[t].look
                                  && Answerable(s.tasks[t].stage)
  {
    hide N.Parse, M.Lookup, N.Response, ReplyOk, Due, Grows, Sends, Answerable;
    StepActs(c, s, step);
    if t != Actor(s, step) {
      hide Do, Enabled;
      var task := Do(c, s, step).tasks[t];
      assert task == s.tasks[t];
    } else if step.AskGroup? || step.Retransmit? {
      hide Do, Enabled;
      LateStages(c, s, step, t);
    } else if !step.Lookup? {
      hide Do, Enabled;
      EarlyStages(c, s, step, t);
    }
  }

  lemma {:induction false} LookedUpAtStep(c: Config, steps: seq<Step>, t: nat)
    requires CanRun(c, steps) && t < |Run(c, steps).tasks|
    requires Answerable(Run(c, steps).tasks[t].stage)
    ensures HasLookup(c, steps, t, Run(c, steps).tasks[t].look)
  {
    if steps != [] {
      var before, step := steps[..|steps| - 1], steps[|steps| - 1];
      assert steps == before + [step];
      RunOps(c, before);
      hide Do, Enabled, Ops, Clock, HasLookup, Answerable;
      LookStep(c, Run(c, before), step, t);
      if step == Lookup(t) {
        assert steps[..|before|] == before;
        SomeLookup(c, steps, |before|, t, Run(c, steps).tasks[t].look);
      } else {
        LookedUpAtStep(c, before, t);
        LookupKept(c, before, step, t, Run(c, before).tasks[t].look);
      }
    }
  }

  lemma SomeLookup(c: Config, steps: seq<Step>, n: nat, t: nat, look: Look)
    ensures LooksUp(c, steps, n, t, look) ==> HasLookup(c, steps, t, look)
  {
  }

  // ----- an ACK, a retransmit and a MISS are justified -----

  /**
   The cache operation that stored the bytes a NACK was answered with: a frame whose own stamp is the
   pair asked for, received no more than the time to live before the lookup, and the latest such.
   */
  ghost predicate StoredFor(c: Config, s: State, task: Task, i: nat) {
    && Asks(task) && i < task.look.ops <= |s.cache.ops| && s.cache.ops[i].Store?
    && s.cache.ops[i].key == Key(task)
    && task.look.raw == Some(s.cache.ops[i].value)
    && I.Carries(c.codec, s.cache.ops[i].value, Some(I.Stamp(HashKey(task), SeqNum(task))))
    && s.cache.ops[i].now <= task.look.at <= s.cache.ops[i].now + s.cache.ops[i].ttl
    && (s.cache.ops[i].ttl == c.ttl || c.shared)
    && (forall j :: i < j < task.look.ops && s.cache.ops[j].Store? ==> s.cache.ops[j].key != Key(task))
  }

  lemma StampOfKey(c: Config, key: B.ByteString, raw: B.ByteString, h: B.Uint64, n: B.Uint64)
    requires I.KeyMatches(c.codec, key, raw) && key == B.CacheKey(h, n)
    ensures I.Carries(c.codec, raw, Some(I.Stamp(h, n))) && n != 0
  {
    hide I.Carries;
    I.CarriesExactly(c.codec, raw, Some(I.Stamp(h, n)));
    match I.StampOf(c.codec, raw)
    case None =>
    case Some(st) => B.CacheKeyInjective(st.hashKey, st.seqNum, h, n);
  }

  lemma HitIsStored(c: Config, s: State, task: Task) returns (i: nat)
    requires CacheInv(c, s) && LookOk(s, task) && task.look.raw.Some?
    ensures StoredFor(c, s, task, i) && SeqNum(task) != 0
  {
    hide M.Run, M.ValidRun, M.LastStore, N.Parse, I.StampOf, I.Carries;
    var ops := s.cache.ops[..task.look.ops];
    M.BoundedNeverWrong(ops, Key(task), task.look.at);
    i := M.LastStoreIsAnOp(ops, Key(task));
    assert ops[i] == s.cache.ops[i];
    assert forall j :: i < j < |ops| ==> ops[j] == s.cache.ops[j];
    assert StoreOk(c, s.cache.ops[i]);
    StampOfKey(c, Key(task), ops[i].value, HashKey(task), SeqNum(task));
  }

  /**
   Step j brought the frame that the lookup of NACK t at step n found: filed under the pair asked for,
   which is its own stamp, no more than the time to live it was filed with before, and the latest of
   that pair. An endpoint whose cache is its own files for its own time to live.
   */
  ghost predicate FoundFrame(c: Config, steps: seq<Step>, t: nat, task: Task, n: nat, j: nat) {
    && j < n < |steps| && steps[n] == Lookup(t) && Asks(task) && task.look.at == Clock(steps[..n])
    && Brings(c, steps[j], Key(task)) && task.look.raw == Some(steps[j].raw)
    && I.Carries(c.codec, steps[j].raw, Some(I.Stamp(HashKey(task), SeqNum(task))))
    && Clock(steps[..j]) <= Clock(steps[..n]) <= Clock(steps[..j]) + steps[j].ttl
    && (steps[j].ttl == c.ttl || c.shared)
    && (forall k :: j < k < n ==> !Brings(c, steps[k], Key(task)))
  }

  ghost predicate Justified(c: Config, steps: seq<Step>, t: nat, task: Task) {
    exists n: nat, j: nat :: FoundFrame(c, steps, t, task, n, j)
  }

  /** A store older than a lookup was brought by a step before it. */
  lemma StoreBeforeLookup(c: Config, steps: seq<Step>, i: nat, n: nat) returns (j: nat)
    requires n <= |steps| && i < |Ops(c, steps[..n])| && Ops(c, steps[..n])[i].Store?
    ensures j < n && Brings(c, steps[j], Ops(c, steps[..n])[i].key) && steps[j].raw == Ops(c, steps[..n])[i].value
    ensures steps[j].ttl == Ops(c, steps[..n])[i].ttl
    ensures Clock(steps[..j]) == Ops(c, steps[..n])[i].now && |Ops(c, steps[..j])| == i
  {
    hide Ops, Clock, I.Classify;
    j := StoreIsFrame(c, steps[..n], i);
    assert steps[..n][..j] == steps[..j];
  }

  /** Among the steps before a lookup none after the latest store's brings its key. */
  lemma LatestFrame(c: Config, steps: seq<Step>, key: B.ByteString, i: nat, j: nat, n: nat, k: nat)
    requires j < k < n <= |steps| && |Ops(c, steps[..j])| == i && i < |Ops(c, steps[..n])|
    requires Brings(c, steps[j], key)
    requires forall m :: i < m < |Ops(c, steps[..n])| && Ops(c, steps[..n])[m].Store? ==>
               Ops(c, steps[..n])[m].key != key
    ensures !Brings(c, steps[k], key)
  {
    hide Ops, Clock, I.Classify, Brings;
    if Brings(c, steps[k], key) {
      FrameIsStore(c, steps, j, key);
      OpsOfPrefixes(c, steps, j + 1, k);
      var upTo := steps[..n];
      assert upTo[..k] == steps[..k];
      FrameIsStore(c, upTo, k, key);
    }
  }

  /**
   Every NACK that hit, and so every byte string handed to Retransmit and every frame sent, has the
   bytes of the latest frame received under exactly the pair it asked for, within the time to live.
   */
  lemma HitsAreJustified(c: Config, steps: seq<Step>, t: nat)
    requires CanRun(c, steps) && t < |Run(c, steps).tasks| && Hit(Run(c, steps).tasks[t].stage)
    ensures Asks(Run(c, steps).tasks[t]) && SeqNum(Run(c, steps).tasks[t]) != 0
    ensures Justified(c, steps, t, Run(c, steps).tasks[t])
  {
    RunInv(c, steps);
    RunOps(c, steps);
    LookedUpAtStep(c, steps, t);
    hide Run, CanRun, LimitInv, TimeInv, ReplyInv, EgressInv, MetricsInv, StoredFor, LookOk, Ops, Clock, N.Parse;
    var s := Run(c, steps);
    var task := s.tasks[t];
    assert TaskOk(c, s, t, task);
    var i := HitIsStored(c, s, task);
    var n: nat :| LooksUp(c, steps, n, t, task.look);
    FrameOfStore(c, steps, t, task, i, n);
  }

  lemma FrameOfStore(c: Config, steps: seq<Step>, t: nat, task: Task, i: nat, n: nat)
    requires CanRun(c, steps) && Run(c, steps).cache.ops == Ops(c, steps)
    requires StoredFor(c, Run(c, steps), task, i) && LooksUp(c, steps, n, t, task.look)
    ensures Justified(c, steps, t, task)
  {
    hide Run, CanRun, Ops, Clock, N.Parse, I.StampOf, I.Classify, I.Carries, Brings;
    OpsPrefix(c, steps, n);
    var ops := Ops(c, steps[..n]);
    assert ops[i] == Ops(c, steps)[i];
    var j := StoreBeforeLookup(c, steps, i, n);
    forall k | j < k < n ensures !Brings(c, steps[k], Key(task)) {
      forall m | i < m < |ops| && ops[m].Store? ensures ops[m].key != Key(task) {
        assert ops[m] == Ops(c, steps)[m];
      }
      LatestFrame(c, steps, Key(task), i, j, n, k);
    }
    assert FoundFrame(c, steps, t, task, n, j);
  }

  /**
   Every datagram that left an egress socket, of a loop that failed later included, is the frame its
   NACK found, goes to the group its version byte and TxID call for, and is the only one of its NACK on
   that socket.
   */
  lemma FramesSentAreJustified(c: Config, steps: seq<Step>, e: nat)
    requires CanRun(c, steps) && e < |Run(c, steps).out.egress|
    ensures var s := Run(c, steps);
            var sent := s.out.egress[e];
            && sent.task < |s.tasks|
            && s.tasks[sent.task].look.raw == Some(sent.sending.raw)
            && Justified(c, steps, sent.task, s.tasks[sent.task])
            && Routed(c, sent.sending.raw, sent.sending.dest)
            && sent.sending.iface in c.sockets
            && (forall f :: 0 <= f < |s.out.egress| && f != e && s.out.egress[f].task == sent.task ==>
                  s.out.egress[f].sending.iface != sent.sending.iface)
  {
    RunInv(c, steps);
    hide Run, CanRun, LimitInv, CacheInv, TimeInv, ReplyInv, MetricsInv, TaskInv, Justified, DestOf, Routed, LoopOk;
    var s := Run(c, steps);
    assert EgressOk(c, s, s.out.egress[e]);
    RoutedExactly(c, s.out.egress[e].sending.raw, s.out.egress[e].sending.dest);
    HitsAreJustified(c, steps, s.out.egress[e].task);
  }

  /** A NACK that ended as sent has written every socket, one whose send failed not every, any other none. */
  lemma SentOnEverySocket(c: Config, steps: seq<Step>, t: nat)
    requires CanRun(c, steps) && t < |Run(c, steps).tasks|
    ensures var s := Run(c, steps);
            && (s.tasks[t].stage == Sent ==> WroteAll(c, s.out.egress, t))
            && (s.tasks[t].stage == SendFailed ==> !WroteAll(c, s.out.egress, t))
            && (s.tasks[t].stage != Sent && s.tasks[t].stage != SendFailed ==>
                  forall e :: 0 <= e < |s.out.egress| ==> s.out.egress[e].task != t)
  {
    RunInv(c, steps);
    hide Run, CanRun, LimitInv, CacheInv, TimeInv, ReplyInv, MetricsInv, TaskInv, DestOf, WroteAll;
    var s := Run(c, steps);
    assert LoopOk(c, s, t);
    forall e | 0 <= e < |s.out.egress| && s.tasks[t].stage != Sent && s.tasks[t].stage != SendFailed
      ensures s.out.egress[e].task != t
    {
      assert EgressOk(c, s, s.out.egress[e]);
    }
  }

  /**
   Responses: a NACK has one exactly when it has a source and ended in an outcome that is answered
   and not suppressed. An ACK carries the number asked for and means that frame was stored under the
   pair within the time to live; so nothing is ever acknowledged under number zero.
   */
  lemma ResponsesAreJustified(c: Config, steps: seq<Step>, r: nat)
    requires CanRun(c, steps) && r < |Run(c, steps).out.replies|
    ensures var s := Run(c, steps);
            var reply := s.out.replies[r];
            && reply.task < |s.tasks| && Asks(s.tasks[reply.task])
            && (reply.bytes == N.MISS || reply.bytes == N.Ack(SeqNum(s.tasks[reply.task])))
            && (reply.bytes != N.MISS ==>
                  SeqNum(s.tasks[reply.task]) != 0 && Justified(c, steps, reply.task, s.tasks[reply.task]))
            && (reply.bytes == N.MISS <==> s.tasks[reply.task].stage == Missed)
            && (reply.bytes != N.MISS <==> s.tasks[reply.task].stage in {Throttled, Sent, Suppressed})
            && (forall q :: 0 <= q < |s.out.replies| && q != r ==> s.out.replies[q].task != reply.task)
  {
    RunInv(c, steps);
    hide Run, CanRun, LimitInv, TimeInv, EgressInv, MetricsInv, Justified, LookOk, N.Parse, N.Ack, N.Response;
    var s := Run(c, steps);
    var reply := s.out.replies[r];
    var task := s.tasks[reply.task];
    assert ReplyOk(c, s, reply) && TaskOk(c, s, reply.task, task);
    N.AckReadsBack(SeqNum(task), SeqNum(task));
    if Acked(task.stage) {
      HitsAreJustified(c, steps, reply.task);
    }
  }

  lemma AnsweredExactly(c: Config, steps: seq<Step>, t: nat)
    requires CanRun(c, steps) && t < |Run(c, steps).tasks|
    ensures var task := Run(c, steps).tasks[t];
            Answered(Run(c, steps), t) <==>
              && task.src.Some?
              && ((task.stage in {Throttled, Sent, Suppressed} && !c.suppressACK)
                  || (task.stage == Missed && !c.suppressMISS))
  {
    RunInv(c, steps);
    hide Run, CanRun, LimitInv, CacheInv, TaskInv, TimeInv, EgressInv, MetricsInv, N.Parse, N.Ack;
    var s := Run(c, steps);
    if Answered(s, t) {
      var i :| 0 <= i < |s.out.replies| && s.out.replies[i].task == t;
      assert ReplyOk(c, s, s.out.replies[i]);
    }
  }

  // ----- exactly when a lookup misses -----

  lemma StoreInTimeIsFound(c: Config, s: State, task: Task, i: nat)
    requires CacheInv(c, s) && LookOk(s, task) && c.maxKeys <= 0 && !c.shared
    requires i < task.look.ops && s.cache.ops[i].Store? && s.cache.ops[i].key == Key(task)
    requires task.look.at <= s.cache.ops[i].now + c.ttl
    requires OrderedStores(s.cache.ops)
    ensures task.look.raw.Some?
  {
    hide M.Run, M.LastStore, N.Parse, I.StampOf, I.KeyMatches;
    var ops := s.cache.ops[..task.look.ops];
    M.StoredHasLast(ops, Key(task), i);
    var l := M.LastStoreIsAnOp(ops, Key(task));
    assert ops[l] == s.cache.ops[l] && ops[i] == s.cache.ops[i];
    assert StoreOk(c, s.cache.ops[l]);
    assert ops[i].now <= ops[l].now;
    ValidPrefixOf(s.cache.ops, c.maxKeys, task.look.ops);
    M.UnboundedRefinesHistory(ops, c.maxKeys, Key(task), task.look.at);
  }

  /** A lookup finds the latest store of its key unless that has expired. */
  lemma LatestStoreIsFound(c: Config, s: State, task: Task, i: nat)
    requires CacheInv(c, s) && LookOk(s, task) && c.maxKeys <= 0
    requires i < task.look.ops && s.cache.ops[i].Store? && s.cache.ops[i].key == Key(task)
    requires task.look.at <= s.cache.ops[i].now + s.cache.ops[i].ttl
    requires forall j :: i < j < task.look.ops && s.cache.ops[j].Store? ==> s.cache.ops[j].key != Key(task)
    ensures task.look.raw.Some?
  {
    hide M.Run, M.LastStore, N.Parse, StoreOk;
    var ops := s.cache.ops[..task.look.ops];
    assert ops[i] == s.cache.ops[i];
    M.StoredHasLast(ops, Key(task), i);
    var l := M.LastStoreIsAnOp(ops, Key(task));
    assert ops[l] == s.cache.ops[l];
    assert l == i;
    ValidPrefixOf(s.cache.ops, c.maxKeys, task.look.ops);
    M.UnboundedRefinesHistory(ops, c.maxKeys, Key(task), task.look.at);
  }

  lemma ValidPrefixOf(ops: seq<M.Op>, maxKeys: int, n: nat)
    requires M.ValidRun(ops, maxKeys) && n <= |ops|
    ensures M.ValidRun(ops[..n], maxKeys)
  {
    if n < |ops| {
      M.ValidPrefix(ops, maxKeys, n);
    } else {
      assert ops[..n] == ops;
    }
  }

  /** The cache reads the clock under its lock, so its readings never decrease. */
  ghost predicate OrderedStores(ops: seq<M.Op>) {
    forall i, j :: 0 <= i < j < |ops| && ops[i].Store? && ops[j].Store? ==> ops[i].now <= ops[j].now
  }

  lemma {:induction false} RunStoresOrdered(c: Config, steps: seq<Step>)
    requires CanRun(c, steps)
    ensures OrderedStores(Run(c, steps).cache.ops)
  {
    if steps != [] {
      var before := steps[..|steps| - 1];
      RunStoresOrdered(c, before);
      RunInv(c, before);
      StepStoresOrdered(c, Run(c, before), steps[|steps| - 1]);
    }
  }

  lemma StepStoresOrdered(c: Config, s: State, step: Step)
    requires Inv(c, s) && Enabled(c, s, step) && OrderedStores(s.cache.ops)
    ensures OrderedStores(Do(c, s, step).cache.ops)
  {
    hide LimitInv, TaskInv, TimeInv, ReplyInv, EgressInv, MetricsInv, N.Parse, Acts, M.Run, M.ValidRun, M.Apply;
    hide DoIP, DoSeq, DoChain, DoLookup, DoLookupError, DoGroup, DoRetransmit, DoArrive;
    match step
    case Arrive(nack, src) => ActsArrive(c, s, nack, src);
    case AskIP(t, verdict) => ActsIP(c, s, t, verdict);
    case AskSeq(t, reading) => ActsSeq(c, s, t, reading);
    case AskChain(t, reading) => ActsChain(c, s, t, reading);
    case Lookup(t) => ActsLookup(c, s, t);
    case LookupError(t) => ActsLookupError(c, s, t);
    case AskGroup(t, verdict) => ActsGroup(c, s, t, verdict);
    case Retransmit(t, a) => ActsRetransmit(c, s, t, a);
    case _ =>
  }

  /** Step j brought the latest frame of the pair before step n. */
  ghost predicate Latest(c: Config, steps: seq<Step>, n: nat, key: B.ByteString, j: nat) {
    && j < n <= |steps| && Brings(c, steps[j], key)
    && (forall k :: j < k < n ==> !Brings(c, steps[k], key))
  }

  /** The latest frame of the pair before step n is within the time to live it was filed with. */
  ghost predicate LatestInTime(c: Config, steps: seq<Step>, n: nat, key: B.ByteString) {
    exists j: nat :: Latest(c, steps, n, key, j) && Clock(steps[..n]) <= Clock(steps[..j]) + steps[j].ttl
  }

  /** Some frame of the pair came before step n, within the endpoint's own time to live. */
  ghost predicate ReceivedInTime(c: Config, steps: seq<Step>, n: nat, key: B.ByteString) {
    exists j :: 0 <= j < n <= |steps| && Brings(c, steps[j], key) && Clock(steps[..n]) <= Clock(steps[..j]) + c.ttl
  }

  /** A lookup at step n, and whether a frame of the pair came before it in time. */
  ghost predicate MissedAt(c: Config, steps: seq<Step>, t: nat, n: nat, key: B.ByteString, stage: Stage) {
    && n < |steps| && steps[n] == Lookup(t)
    && (stage == Missed <==> !LatestInTime(c, steps, n, key))
    && (!c.shared ==> (stage == Missed <==> !ReceivedInTime(c, steps, n, key)))
  }

  lemma MissedFrameIsLate(c: Config, steps: seq<Step>, t: nat, n: nat)
    requires CanRun(c, steps) && c.maxKeys <= 0 && !c.shared && t < |Run(c, steps).tasks|
    requires Run(c, steps).tasks[t].stage == Missed
    requires LooksUp(c, steps, n, t, Run(c, steps).tasks[t].look)
    ensures Asks(Run(c, steps).tasks[t]) && !ReceivedInTime(c, steps, n, Key(Run(c, steps).tasks[t]))
  {
    RunInv(c, steps);
    RunOps(c, steps);
    RunStoresOrdered(c, steps);
    hide Run, CanRun, LimitInv, TimeInv, ReplyInv, EgressInv, MetricsInv, N.Parse, OrderedStores, Ops, Clock, Brings,
         LookOk;
    var s := Run(c, steps);
    var task := s.tasks[t];
    assert TaskOk(c, s, t, task);
    forall j | 0 <= j < n && Brings(c, steps[j], Key(task)) ensures Clock(steps[..n]) > Clock(steps[..j]) + c.ttl {
      FrameIsStore(c, steps, j, Key(task));
      OpsOfPrefixes(c, steps, j + 1, n);
      var i := |Ops(c, steps[..j])|;
      if task.look.at <= s.cache.ops[i].now + c.ttl { StoreInTimeIsFound(c, s, task, i); }
    }
  }

  /** Between the latest frame and the lookup the cache's history has no later store of the pair. */
  lemma NoLaterStore(c: Config, steps: seq<Step>, n: nat, key: B.ByteString, j: nat, m: nat)
    requires Latest(c, steps, n, key, j) && |Ops(c, steps[..j])| < m < |Ops(c, steps[..n])|
             && Ops(c, steps[..n])[m].Store?
    ensures Ops(c, steps[..n])[m].key != key
  {
    hide Ops, Clock, Brings;
    var k := StoreBeforeLookup(c, steps, m, n);
    if k <= j { OpsOfPrefixes(c, steps, k, j); }
  }

  lemma MissedLatestIsLate(c: Config, steps: seq<Step>, t: nat, n: nat, j: nat)
    requires CanRun(c, steps) && c.maxKeys <= 0 && t < |Run(c, steps).tasks|
    requires Run(c, steps).tasks[t].stage == Missed && Asks(Run(c, steps).tasks[t])
    requires LooksUp(c, steps, n, t, Run(c, steps).tasks[t].look)
    requires Latest(c, steps, n, Key(Run(c, steps).tasks[t]), j)
    ensures Clock(steps[..n]) > Clock(steps[..j]) + steps[j].ttl
  {
    RunInv(c, steps);
    RunOps(c, steps);
    hide Run, CanRun, LimitInv, TimeInv, ReplyInv, EgressInv, MetricsInv, N.Parse, Ops, Clock, Brings, LookOk;
    var s := Run(c, steps);
    var task := s.tasks[t];
    assert TaskOk(c, s, t, task);
    FrameIsStore(c, steps, j, Key(task));
    OpsOfPrefixes(c, steps, j + 1, n);
    OpsPrefix(c, steps, n);
    var i := |Ops(c, steps[..j])|;
    forall m | i < m < task.look.ops && s.cache.ops[m].Store? ensures s.cache.ops[m].key != Key(task) {
      assert s.cache.ops[m] == Ops(c, steps[..n])[m];
      NoLaterStore(c, steps, n, Key(task), j, m);
    }
    if task.look.at <= s.cache.ops[i].now + s.cache.ops[i].ttl { LatestStoreIsFound(c, s, task, i); }
  }

  lemma MissAsks(c: Config, steps: seq<Step>, t: nat)
    requires CanRun(c, steps) && t < |Run(c, steps).tasks| && Run(c, steps).tasks[t].stage == Missed
    ensures Asks(Run(c, steps).tasks[t])
  {
    RunInv(c, steps);
    hide Run, CanRun, LimitInv, CacheInv, TimeInv, ReplyInv, EgressInv, MetricsInv, N.Parse, M.Run, M.Lookup;
    assert TaskOk(c, Run(c, steps), t, Run(c, steps).tasks[t]);
  }

  /**
   Without a key limit a NACK is answered with a MISS exactly when the latest frame of its pair, if
   one was filed at any step before its lookup, has outlived the time it was filed for. For a cache
   of the endpoint's own that is: when no frame of the pair came within the time to live.
   */
  lemma MissExactly(c: Config, steps: seq<Step>, t: nat)
    requires CanRun(c, steps) && c.maxKeys <= 0 && t < |Run(c, steps).tasks|
    requires Answerable(Run(c, steps).tasks[t].stage)
    ensures Asks(Run(c, steps).tasks[t])
    ensures exists n: nat :: MissedAt(c, steps, t, n, Key(Run(c, steps).tasks[t]), Run(c, steps).tasks[t].stage)
  {
    LookedUpAtStep(c, steps, t);
    hide Run, CanRun, Ops, Clock, Brings, N.Parse, ReceivedInTime, Latest;
    var task := Run(c, steps).tasks[t];
    if task.stage == Missed {
      var n: nat :| LooksUp(c, steps, n, t, task.look);
      MissAsks(c, steps, t);
      if !c.shared { MissedFrameIsLate(c, steps, t, n); }
      forall j: nat | Latest(c, steps, n, Key(task), j) ensures Clock(steps[..n]) > Clock(steps[..j]) + steps[j].ttl {
        MissedLatestIsLate(c, steps, t, n, j);
      }
      assert MissedAt(c, steps, t, n, Key(task), task.stage);
    } else {
      HitsAreJustified(c, steps, t);
      var n: nat, j: nat :| FoundFrame(c, steps, t, task, n, j);
      InTime(c, steps, n, j, Key(task));
      assert MissedAt(c, steps, t, n, Key(task), task.stage);
    }
  }

  // ----- every kind of frame is found -----

  /** A NACK's lookup in a state: what it takes from the cache, and that the lookup is right about its past. */
  lemma LookupNow(c: Config, s: State, t: nat)
    requires Inv(c, s) && Enabled(c, s, Lookup(t))
    ensures var s' := Do(c, s, Lookup(t));
            && t < |s'.tasks| && CacheInv(c, s') && LookOk(s', s'.tasks[t]) && s'.cache == s.cache
            && Asks(s'.tasks[t]) && Key(s'.tasks[t]) == Key(s.tasks[t])
            && s'.tasks[t].look.at == s.clock && s'.tasks[t].look.ops == |s.cache.ops|
            && s'.tasks[t].stage == if s'.tasks[t].look.raw.Some? then Found else Missed
  {
    hide LimitInv, TimeInv, ReplyInv, EgressInv, MetricsInv, N.Parse, N.Response, M.Run, M.ValidRun;
    KeepsInv(c, s, Lookup(t));
    ActsLookup(c, s, t);
    hide ReplyOk, Sends, Grows;
    var s' := Do(c, s, Lookup(t));
    assert TaskOk(c, s', t, s'.tasks[t]);
  }

  /**
   In every run without a key limit: a frame of any of the four kinds, whose decoder gives it a pair
   with a number, is what a NACK for that pair finds for as long as the frame's time to live, unless
   a later frame of the pair has come.
   */
  lemma StampedFrameIsFound(c: Config, steps: seq<Step>, j: nat, t: nat)
    requires CanRun(c, steps) && c.maxKeys <= 0 && Enabled(c, Run(c, steps), Lookup(t))
    requires var task := Run(c, steps).tasks[t];
             && j < |steps| && steps[j].Frame? && I.Files(c.codec, steps[j].raw, HashKey(task), SeqNum(task))
             && Clock(steps) <= Clock(steps[..j]) + steps[j].ttl
             && forall k :: j < k < |steps| && steps[k].Frame? ==>
                  !I.Files(c.codec, steps[k].raw, HashKey(task), SeqNum(task))
    ensures var task := Do(c, Run(c, steps), Lookup(t)).tasks[t];
            task.stage == Found && task.look.raw == Some(steps[j].raw)
  {
    hide Run, CanRun, Inv, Do, Enabled, N.Parse, Ops, Clock, LookOk, I.Files, CacheInv, Latest;
    RunInv(c, steps);
    RunOps(c, steps);
    var s := Run(c, steps);
    assert t < |s.tasks| && Asks(s.tasks[t]) by { LookupAsks(c, s, t); }
    LatestOfPair(c, steps, s.tasks[t], j);
    LookupNow(c, s, t);
    var s' := Do(c, s, Lookup(t));
    LatestIsFound(c, steps, s', s'.tasks[t], j);
  }

  lemma LookupAsks(c: Config, s: State, t: nat)
    requires Enabled(c, s, Lookup(t))
    ensures t < |s.tasks| && Asks(s.tasks[t])
  {
    hide N.Parse;
  }

  /** A lookup after a run finds the latest frame of its pair, if that is still within its time to live. */
  lemma LatestIsFound(c: Config, steps: seq<Step>, s: State, task: Task, j: nat)
    requires CacheInv(c, s) && LookOk(s, task) && Asks(task) && c.maxKeys <= 0
    requires s.cache.ops == Ops(c, steps) && task.look.ops == |s.cache.ops| && task.look.at == Clock(steps)
    requires Latest(c, steps, |steps|, Key(task), j) && Clock(steps) <= Clock(steps[..j]) + steps[j].ttl
    ensures task.look.raw == Some(steps[j].raw)
  {
    hide N.Parse, Ops, Clock, LookOk, Brings, CacheInv, StoredFor;
    assert steps[..|steps|] == steps;
    var i := |Ops(c, steps[..j])|;
    FrameIsStore(c, steps, j, Key(task));
    forall m | i < m < |s.cache.ops| && s.cache.ops[m].Store? ensures s.cache.ops[m].key != Key(task) {
      NoLaterStore(c, steps, |steps|, Key(task), j, m);
    }
    LatestStoreIsFound(c, s, task, i);
    var l := HitIsStored(c, s, task);
    StoredOnce(c, s, task, i, l);
  }

  lemma StoredOnce(c: Config, s: State, task: Task, i: nat, l: nat)
    requires StoredFor(c, s, task, l) && i < |s.cache.ops| == task.look.ops
    requires s.cache.ops[i].Store? && s.cache.ops[i].key == Key(task)
    requires forall m :: i < m < |s.cache.ops| && s.cache.ops[m].Store? ==> s.cache.ops[m].key != Key(task)
    ensures l == i && task.look.raw == Some(s.cache.ops[i].value)
  {
    hide N.Parse, I.Carries, B.CacheKey;
  }

  lemma LatestOfPair(c: Config, steps: seq<Step>, task: Task, j: nat)
    requires Asks(task) && j < |steps| && steps[j].Frame? && I.Files(c.codec, steps[j].raw, HashKey(task), SeqNum(task))
    requires forall k :: j < k < |steps| && steps[k].Frame? ==>
               !I.Files(c.codec, steps[k].raw, HashKey(task), SeqNum(task))
    ensures Latest(c, steps, |steps|, Key(task), j)
  {
    hide N.Parse, I.Files, B.CacheKey;
    forall k | j < k < |steps| ensures !Brings(c, steps[k], Key(task)) {
      forall h, n | steps[k].Frame? && I.Files(c.codec, steps[k].raw, h, n) ensures Key(task) != B.CacheKey(h, n) {
        B.CacheKeyInjective(h, n, HashKey(task), SeqNum(task));
      }
    }
  }

  /** A datagram that its decoder rejects, or that has no number yet, changes nothing. */
  lemma IgnoredFrameChangesNothing(c: Config, s: State, step: Step)
    requires step.Frame? && Enabled(c, s, step) && I.Ignored(c.codec, step.raw)
    ensures Do(c, s, step) == s
  {
    hide I.Classify, I.Ignored;
    I.IgnoredExactly(c.codec, step.raw);
  }

  lemma InTime(c: Config, steps: seq<Step>, n: nat, j: nat, key: B.ByteString)
    requires j < n <= |steps| && Brings(c, steps[j], key) && (forall k :: j < k < n ==> !Brings(c, steps[k], key))
    requires Clock(steps[..n]) <= Clock(steps[..j]) + steps[j].ttl
    ensures LatestInTime(c, steps, n, key)
    ensures steps[j].ttl == c.ttl ==> ReceivedInTime(c, steps, n, key)
  {
    assert Latest(c, steps, n, key, j);
  }
}
