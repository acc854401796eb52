/** What holds of every run of the fleet. */
module FleetTheorems {
  import opened Bytes
  import opened Options
  import M = MemoryCache
  import I = Ingress
  import N = Nack
  import D = Dedup
  import E = Endpoint
  import V = EndpointInvariants
  import J = Justification
  import ET = EndpointTheorems
  import opened Fleet

  // ----- one clock and one cache -----

  ghost predicate OneClock(c: Config, s: State)
    requires Sound(c, s)
  {
    forall e :: 0 <= e < |c.eps| ==> Ep(c, s, e).clock == Claim(c, s).now
  }

  /** Endpoints that share a cache see one and the same. */
  ghost predicate OneCache(c: Config, s: State)
    requires Sound(c, s)
  {
    forall e, f :: 0 <= e < |c.eps| && 0 <= f < |c.eps| && Shares(c, e, f) ==> Ep(c, s, e).cache == Ep(c, s, f).cache
  }

  lemma NowStays(c: D.Config, ds: D.State, step: D.Step)
    requires D.Enabled(c, ds, step) && !step.Tick?
    ensures D.Do(c, ds, step).now == ds.now
  {
    hide D.EgressDest, D.DedupKey;
  }

  /** No step of an endpoint's own, and no retransmit, touches the clock or a shared cache. */
  lemma OwnKeepsCache(c: E.Config, es: E.State, step: E.Step)
    requires E.Enabled(c, es, step) && !step.Tick? && !Files(c, step)
    ensures E.Do(c, es, step).clock == es.clock
    ensures c.shared ==> E.Do(c, es, step).cache == es.cache
  {
    J.OpsStep(c, es, step);
    hide E.DoSeq, E.DoChain, E.DoLookup, E.DoLookupError, E.DoGroup, E.DoRetransmit, E.DoArrive, E.DoIP, N.Parse;
  }

  ghost predicate Common(c: Config, s: State) {
    Sound(c, s) && OneClock(c, s) && OneCache(c, s)
  }

  lemma CommonAt(c: Config, s: State, e: nat, step: E.Step)
    requires Common(c, s) && e < |c.eps| && E.Enabled(c.eps[e], Ep(c, s, e), step) && !step.Tick?
             && !Files(c.eps[e], step)
    ensures Common(c, Append(s, e, step))
  {
    hide Sound, Ep, Claim, E.Do, E.Enabled, Files;
    EndpointSteps(c, s, e, step);
    OwnKeepsCache(c.eps[e], Ep(c, s, e), step);
  }

  lemma CommonShared(c: Config, s: State, s': State, step: D.Step)
    requires Common(c, s) && D.Enabled(c.claims, Claim(c, s), step) && !step.Tick?
    requires s'.runs == s.runs && s'.calls == s.calls + [step]
    ensures Common(c, s')
  {
    hide Sound, Ep, Claim, D.Do, D.Enabled;
    ClaimsStep(c, s, s', step);
    NowStays(c.claims, Claim(c, s), step);
  }

  lemma CommonReceive(c: Config, s: State, e: nat, raw: ByteString)
    requires ConfigOk(c) && Common(c, s) && Enabled(c, s, Receive(e, raw))
    ensures Common(c, Do(c, s, Receive(e, raw)))
  {
    ReceiveEffect(c, s, e, raw);
    hide Sound, Ep, Claim, ConfigOk, Do, Enabled, StoreBy, M.Apply;
  }

  lemma CommonTime(c: Config, s: State, dt: nat)
    requires Common(c, s)
    ensures Common(c, Do(c, s, Time(dt)))
  {
    TimePasses(c, s, dt);
    hide Sound, Ep, Claim, Do;
  }

  lemma CommonStep(c: Config, s: State, step: Step)
    requires ConfigOk(c) && Inv(c, s) && D.Inv(c.claims, Claim(c, s)) && Common(c, s) && Enabled(c, s, step)
    ensures Common(c, Do(c, s, step))
  {
    hide Common, D.Inv, E.Do, E.Enabled, D.Do, D.Enabled, Ep, Claim;
    match step
    case Time(dt) => CommonTime(c, s, dt);
    case At(e, st) => CommonAt(c, s, e, st);
    case Receive(e, raw) => CommonReceive(c, s, e, raw);
    case Call(e, t) =>
      var raw := Ep(c, s, e).tasks[t].look.raw.value;
      BeginStep(c.claims, Claim(c, s), e, raw, E.TxID(raw));
      CommonShared(c, s, Do(c, s, step), D.Begin(e, raw, E.TxID(raw)));
    case Shared(move) => CommonShared(c, s, Do(c, s, step), move);
    case Return(k) =>
      ReturnEnabled(c, s, k);
      CommonAt(c, s, s.owners[k].ep, E.Retransmit(s.owners[k].task, Seen(Claim(c, s), k)));
  }

  /** In every run all clocks agree, and endpoints that share a cache find the same in it. */
  lemma {:induction false} SharedCacheIsOne(c: Config, steps: seq<Step>)
    requires ConfigOk(c) && CanRun(c, steps)
    ensures Common(c, Run(c, steps))
  {
    if steps == [] {
      StartCommon(c);
    } else {
      hide Run, CanRun, ConfigOk, Inv, D.Inv, Common, Do, Enabled;
      var before, step := LastStep(c, steps);
      SharedCacheIsOne(c, before);
      CommonStep(c, Run(c, before), step);
    }
  }

  lemma StartSound(c: Config)
    ensures CanRun(c, []) && Run(c, []) == Start(c) && Sound(c, Start(c)) && Claim(c, Start(c)) == D.START
    ensures forall e :: 0 <= e < |c.eps| ==> Ep(c, Start(c), e) == E.START
  {
    forall e | 0 <= e < |c.eps| ensures Start(c).runs[e] == [] { }
  }

  lemma StartCommon(c: Config)
    ensures Common(c, Start(c))
  {
    StartSound(c);
  }

  // ----- where a frame in a cache came from -----

  /** The time after a run of the fleet. */
  function Clock(steps: seq<Step>): (now: int)
  {
    if steps == [] then 0
    else
      var before, last := Clock(steps[..|steps| - 1]), steps[|steps| - 1];
      if last.Time? then before + last.dt else before
  }

  /** Whether a step of the fleet is an endpoint receiving a frame that goes into another's cache, or its own. */
  predicate Feeds(c: Config, step: Step, f: nat, raw: ByteString, ttl: int) {
    || (step.Receive? && Shares(c, step.e, f) && step.raw == raw && c.eps[step.e].ttl == ttl)
    || (step.At? && step.e == f && f < |c.eps| && !c.eps[f].shared && step.step.Frame? && step.step.raw == raw
        && step.step.ttl == ttl == c.eps[f].ttl)
  }

  /** Step m of the fleet brought the frame that step j of an endpoint's run files. */
  ghost predicate Origin(c: Config, steps: seq<Step>, runs: seq<seq<E.Step>>, f: nat, j: nat, m: nat) {
    && f < |runs| && j < |runs[f]| && runs[f][j].Frame? && m < |steps|
    && Feeds(c, steps[m], f, runs[f][j].raw, runs[f][j].ttl) && Clock(steps[..m]) == J.Clock(runs[f][..j])
  }

  ghost predicate HasOrigin(c: Config, steps: seq<Step>, runs: seq<seq<E.Step>>, f: nat, j: nat) {
    exists m: nat :: Origin(c, steps, runs, f, j, m)
  }

  lemma OriginKept(c: Config, before: seq<Step>, step: Step, runs: seq<seq<E.Step>>, runs': seq<seq<E.Step>>, f: nat,
                   j: nat)
    requires HasOrigin(c, before, runs, f, j) && f < |runs'| && j < |runs'[f]| && j < |runs[f]|
    requires runs'[f][j] == runs[f][j] && runs'[f][..j] == runs[f][..j]
    ensures HasOrigin(c, before + [step], runs', f, j)
  {
    hide Feeds, J.Clock, Clock;
    var m: nat :| Origin(c, before, runs, f, j, m);
    assert (before + [step])[..m] == before[..m];
    assert Origin(c, before + [step], runs', f, j, m);
  }

  /** A step of the fleet gives an endpoint's run at most one step more, and which. */
  lemma OneMore(c: Config, s: State, step: Step, f: nat)
    requires Sound(c, s) && Enabled(c, s, step) && f < |c.eps|
    ensures |Do(c, s, step).runs| == |s.runs|
    ensures var r, r' := s.runs[f], Do(c, s, step).runs[f];
            || r' == r
            || (r' == r + [r'[|r|]]
                && (r'[|r|].Tick? <==> step.Time?) && (step.Time? ==> r'[|r|] == E.Tick(step.dt))
                && (r'[|r|].Frame? && r'[|r|].raw != [] && I.Classify(c.eps[f].codec, r'[|r|].raw).Cacheable? ==>
                      (step.Receive? && Shares(c, step.e, f) && r'[|r|] == E.Frame(step.raw, c.eps[step.e].ttl, {}))
                      || (step == At(f, r'[|r|]) && !c.eps[f].shared && r'[|r|].ttl == c.eps[f].ttl)))
    ensures step.Time? ==> Do(c, s, step).runs[f] == s.runs[f] + [E.Tick(step.dt)]
  {
    hide E.Run, E.CanRun, D.Run, D.CanRun, Ep, Claim, I.Classify, Seen, M.VictimsOk;
  }

  lemma ClockStep(r: seq<E.Step>, r': seq<E.Step>, step: E.Step)
    requires r' == r + [step]
    ensures J.Clock(r') == J.Clock(r) + if step.Tick? then step.dt else 0
  {
    assert r'[..|r|] == r;
  }

  lemma RunClockStep(c: Config, s: State, step: Step, f: nat)
    requires Sound(c, s) && Enabled(c, s, step) && f < |c.eps|
    ensures f < |s.runs| && f < |Do(c, s, step).runs|
    ensures J.Clock(Do(c, s, step).runs[f]) == J.Clock(s.runs[f]) + if step.Time? then step.dt else 0
  {
    OneMore(c, s, step, f);
    assert f < |s.runs|;
    hide Do, Enabled, Sound, J.Clock, Shares, I.Classify;
    var r, r' := s.runs[f], Do(c, s, step).runs[f];
    if r' != r { ClockStep(r, r', r'[|r|]); }
  }

  lemma {:induction false} RunClock(c: Config, steps: seq<Step>, f: nat)
    requires ConfigOk(c) && CanRun(c, steps) && f < |c.eps|
    ensures f < |Run(c, steps).runs| && J.Clock(Run(c, steps).runs[f]) == Clock(steps)
  {
    if steps != [] {
      hide Run, CanRun, Do, Enabled, ConfigOk, Sound, CallsInv, OwnersInv, EndedInv, D.Inv;
      var before, step := LastStep(c, steps);
      RunClock(c, before, f);
      RunClockStep(c, Run(c, before), step, f);
    }
  }

  lemma NewOrigin(c: Config, before: seq<Step>, step: Step, runs: seq<seq<E.Step>>, f: nat)
    requires f < |runs| && runs[f] != []
    requires var j := |runs[f]| - 1;
             runs[f][j].Frame? && Feeds(c, step, f, runs[f][j].raw, runs[f][j].ttl)
               && J.Clock(runs[f][..j]) == Clock(before)
    ensures HasOrigin(c, before + [step], runs, f, |runs[f]| - 1)
  {
    hide Feeds, J.Clock, Clock;
    assert (before + [step])[..|before|] == before;
    assert Origin(c, before + [step], runs, f, |runs[f]| - 1, |before|);
  }

  /**
   Every frame filed in an endpoint's cache was received, at that time, by that endpoint or one that
   shares the cache.
   */
  lemma {:induction false} FramesHaveOrigins(c: Config, steps: seq<Step>, f: nat, j: nat, key: ByteString)
    requires ConfigOk(c) && CanRun(c, steps) && f < |c.eps| && f < |Run(c, steps).runs|
    requires j < |Run(c, steps).runs[f]| && J.Brings(c.eps[f], Run(c, steps).runs[f][j], key)
    ensures HasOrigin(c, steps, Run(c, steps).runs, f, j)
  {
    if steps == [] {
      StartSound(c);
    } else {
      hide Run, CanRun, Inv, Sound, D.Inv, Do, Enabled, ConfigOk, HasOrigin, J.Clock, Clock, J.Brings;
      var before, step := LastStep(c, steps);
      RunClock(c, before, f);
      var s := Run(c, before);
      assert Sound(c, s) by { InvSound(c, s); }
      FrameFed(c, s, step, f, j, key);
      if j < |s.runs[f]| { FramesHaveOrigins(c, before, f, j, key); }
      OriginStep(c, before, step, s, Do(c, s, step), f, j);
    }
  }

  lemma OriginStep(c: Config, before: seq<Step>, step: Step, s: State, s': State, f: nat, j: nat)
    requires f < |s.runs| && f < |s'.runs| && j < |s'.runs[f]| && J.Clock(s.runs[f]) == Clock(before)
    requires FedBy(c, step, s.runs[f], s'.runs[f], f, j) && (j < |s.runs[f]| ==> HasOrigin(c, before, s.runs, f, j))
    ensures HasOrigin(c, before + [step], s'.runs, f, j)
  {
    hide HasOrigin, J.Clock, Clock, Feeds;
    if j < |s.runs[f]| {
      OriginKept(c, before, step, s.runs, s'.runs, f, j);
    } else {
      NewOrigin(c, before, step, s'.runs, f);
    }
  }

  /** Step j of an endpoint's run was there before a step of the fleet, or is a frame which that step feeds it. */
  ghost predicate FedBy(c: Config, step: Step, r: seq<E.Step>, r': seq<E.Step>, f: nat, j: nat) {
    && j < |r'| && (j < |r| ==> r'[j] == r[j] && r'[..j] == r[..j])
    && (j >= |r| ==> j == |r| == |r'| - 1 && r'[..j] == r && r'[j].Frame? && Feeds(c, step, f, r'[j].raw, r'[j].ttl))
  }

  lemma InvSound(c: Config, s: State)
    requires Inv(c, s)
    ensures Sound(c, s)
  {
  }

  /** A frame in an endpoint's run after a step was there before, or that step feeds it. */
  lemma FrameFed(c: Config, s: State, step: Step, f: nat, j: nat, key: ByteString)
    requires Sound(c, s) && Enabled(c, s, step) && f < |c.eps| && f < |s.runs| && f < |Do(c, s, step).runs|
    requires j < |Do(c, s, step).runs[f]| && J.Brings(c.eps[f], Do(c, s, step).runs[f][j], key)
    ensures FedBy(c, step, s.runs[f], Do(c, s, step).runs[f], f, j)
  {
    OneMore(c, s, step, f);
    J.BringsExactly(c.eps[f], Do(c, s, step).runs[f][j], key);
    hide Sound, Do, Enabled, I.Classify, Shares, J.Brings;
    var r, r' := s.runs[f], Do(c, s, step).runs[f];
    if r' != r { assert r'[..|r|] == r; }
    if j < |r| { assert r'[..j] == r[..j]; }
  }

  // ----- a hit is sent exactly when its claim succeeded -----

  /** Some claim took effect, and the call it was made in, for this NACK, was told so. */
  ghost predicate HoldsClaim(ds: D.State, owners: seq<Owner>, e: nat, t: nat) {
    exists i :: 0 <= i < |ds.claims| && ds.claims[i].known && ds.claims[i].call < |owners|
                && owners[ds.claims[i].call] == Owner(e, t)
  }

  ghost predicate WroteFor(ds: D.State, owners: seq<Owner>, e: nat, t: nat) {
    exists i :: 0 <= i < |ds.writes| && ds.writes[i].call < |owners| && owners[ds.writes[i].call] == Owner(e, t)
  }

  lemma ClaimOfCall(c: D.Config, ds: D.State, owners: seq<Owner>, k: nat)
    requires D.Inv(c, ds) && OwnersDistinct(owners) && k < |owners| == |ds.calls| && D.Claims(c, ds.calls[k])
    ensures D.PastClaim(ds.calls[k].phase) <==> HoldsClaim(ds, owners, owners[k].ep, owners[k].task)
  {
    hide D.SpacingInv, D.BackedInv, D.WriteInv, D.LoopInv, D.FailInv, D.LockInv, D.DedupKey;
    assert D.CallOk(c, ds, ds.calls[k]);
    if D.PastClaim(ds.calls[k].phase) {
      var i := ds.calls[k].ticket.value;
      assert ds.claims[i].call == k;
    }
    if HoldsClaim(ds, owners, owners[k].ep, owners[k].task) {
      var i :| 0 <= i < |ds.claims| && ds.claims[i].known && ds.claims[i].call < |owners|
               && owners[ds.claims[i].call] == Owner(owners[k].ep, owners[k].task);
      assert ds.claims[i].call == k;
    }
  }

  ghost predicate OwnersDistinct(owners: seq<Owner>) {
    forall i, j :: 0 <= i < |owners| && 0 <= j < |owners| && owners[i] == owners[j] ==> i == j
  }

  lemma SuppressedWroteNothing(c: D.Config, ds: D.State, owners: seq<Owner>, k: nat)
    requires D.Inv(c, ds) && OwnersDistinct(owners) && k < |owners| == |ds.calls| && ds.calls[k].phase.Suppressed?
    ensures !WroteFor(ds, owners, owners[k].ep, owners[k].task)
  {
    hide D.TicketInv, D.SpacingInv, D.BackedInv, D.LoopInv, D.FailInv, D.LockInv, D.PhaseInv, D.EgressDest;
    forall i | 0 <= i < |ds.writes| && ds.writes[i].call < |owners|
      ensures owners[ds.writes[i].call] != Owner(owners[k].ep, owners[k].task)
    {
      assert D.WriteOk(c, ds, ds.writes[i]);
    }
  }

  /**
   Over any number of endpoints sharing one claim store: a NACK whose frame must be claimed enters the
   write loop, and so ends as sent or failed, exactly when its own claim took effect and it was told
   so. Otherwise it ends suppressed, and no socket of any endpoint ever wrote for it.
   */
  lemma HitEntersExactly(c: Config, steps: seq<Step>, e: nat, t: nat)
    requires ConfigOk(c) && CanRun(c, steps) && Sound(c, Run(c, steps)) && e < |c.eps|
    requires t < |Ep(c, Run(c, steps), e).tasks| && Ended(Ep(c, Run(c, steps), e).tasks[t].stage)
    ensures var s := Run(c, steps);
            var task := Ep(c, s, e).tasks[t];
            && task.look.raw.Some?
            && (task.stage == E.Suppressed ==> !WroteFor(Claim(c, s), s.owners, e, t))
            && (c.eps[e].redis && |task.look.raw.value| >= 56 ==>
                  (task.stage != E.Suppressed <==> HoldsClaim(Claim(c, s), s.owners, e, t)))
            && (!(c.eps[e].redis && |task.look.raw.value| >= 56) ==> task.stage != E.Suppressed)
  {
    RunInv(c, steps);
    hide Run, CanRun, Ep, Claim, Sound, D.Inv, CallsInv, HoldsClaim, WroteFor, ConfigOk;
    var s := Run(c, steps);
    var k :| 0 <= k < |s.owners| && s.owners[k] == Owner(e, t);
    EndedAsCalled(c, s, k);
  }

  lemma EndedAsCalled(c: Config, s: State, k: nat)
    requires ConfigOk(c) && Inv(c, s) && D.Inv(c.claims, Claim(c, s)) && k < |s.owners|
    requires var o := s.owners[k];
             o.ep < |c.eps| && o.task < |Ep(c, s, o.ep).tasks| && Ended(Ep(c, s, o.ep).tasks[o.task].stage)
    ensures var o := s.owners[k];
            var task := Ep(c, s, o.ep).tasks[o.task];
            var must := c.eps[o.ep].redis && task.look.raw.Some? && |task.look.raw.value| >= 56;
            && task.look.raw.Some?
            && (task.stage == E.Suppressed ==> !WroteFor(Claim(c, s), s.owners, o.ep, o.task))
            && (must ==> (task.stage != E.Suppressed <==> HoldsClaim(Claim(c, s), s.owners, o.ep, o.task)))
            && (!must ==> task.stage != E.Suppressed)
  {
    hide Sound, Ep, Claim, D.Inv, E.TxID, E.Asks, HoldsClaim, WroteFor;
    var o, ds := s.owners[k], Claim(c, s);
    assert CallOk(Ep(c, s, o.ep), o.task, o.ep, ds.calls[k]) && SameEndpoint(c, o.ep);
    if D.Claims(c.claims, ds.calls[k]) { ClaimOfCall(c.claims, ds, s.owners, k); }
    if ds.calls[k].phase.Suppressed? {
      SuppressedWroteNothing(c.claims, ds, s.owners, k);
      SuppressedCall(c.claims, ds, k);
    }
  }

  // ----- which calls enter the loop is decided at their claim -----

  /** No claim of a key that took effect, known to its caller or not, is within its window. */
  ghost predicate Free(ds: D.State, key: ByteString) {
    forall i :: 0 <= i < |ds.claims| && ds.claims[i].key == key ==> ds.claims[i].at + ds.claims[i].window <= ds.now
  }

  /** Step m of the fleet is the claim of call k, and lets the call go on to write or not. */
  ghost predicate Decides(c: Config, steps: seq<Step>, m: nat, k: nat, goesOn: bool) {
    && m < |steps| && CanRun(c, steps[..m]) && Sound(c, Run(c, steps[..m]))
    && steps[m].Shared? && steps[m].move.TryClaim? && steps[m].move.call == k
    && var ds := Claim(c, Run(c, steps[..m]));
       && k < |ds.calls| && D.Claims(c.claims, ds.calls[k])
       && (goesOn <==> steps[m].move.reply.Answered? && Free(ds, D.StoreKey(c.claims, ds.calls[k])))
  }

  ghost predicate Decided(c: Config, steps: seq<Step>, k: nat, goesOn: bool) {
    exists m: nat :: Decides(c, steps, m, k, goesOn)
  }

  lemma DecidedKept(c: Config, before: seq<Step>, step: Step, k: nat, goesOn: bool)
    requires Decided(c, before, k, goesOn)
    ensures Decided(c, before + [step], k, goesOn)
  {
    hide CanRun, Run, Sound, Claim, Free, D.StoreKey;
    var m: nat :| Decides(c, before, m, k, goesOn);
    assert (before + [step])[..m] == before[..m];
    assert Decides(c, before + [step], m, k, goesOn);
  }

  /** A claim's own step: the call goes on exactly when it is answered and the key is free. */
  lemma ClaimPhase(c: D.Config, dsteps: seq<D.Step>, k: nat, reply: D.Reply)
    requires D.ConfigOk(c) && D.CanRun(c, dsteps) && D.Enabled(c, D.Run(c, dsteps), D.TryClaim(k, reply))
    ensures k < |D.Do(c, D.Run(c, dsteps), D.TryClaim(k, reply)).calls|
    ensures var ds := D.Run(c, dsteps);
            var phase := D.Do(c, ds, D.TryClaim(k, reply)).calls[k].phase;
            && (phase.Ready? || phase.Suppressed?)
            && (phase.Ready? <==> reply.Answered? && Free(ds, D.StoreKey(c, ds.calls[k])))
  {
    var ds := D.Run(c, dsteps);
    if reply.Answered? {
      D.ClaimSucceedsExactly(c, dsteps, k);
    }
    hide D.Run, D.CanRun, D.DedupKey, D.Live, D.EgressDest;
  }

  /** Past its claim a call stays past it, and a suppressed call stays suppressed. */
  lemma PhaseClassStays(c: D.Config, ds: D.State, step: D.Step, k: nat)
    requires D.Enabled(c, ds, step) && k < |ds.calls| && !ds.calls[k].phase.Started?
    ensures k < |D.Do(c, ds, step).calls|
    ensures !D.Do(c, ds, step).calls[k].phase.Started?
    ensures D.PastClaim(D.Do(c, ds, step).calls[k].phase) == D.PastClaim(ds.calls[k].phase)
    ensures D.Do(c, ds, step).calls[k] == ds.calls[k].(phase := D.Do(c, ds, step).calls[k].phase)
  {
    hide D.EgressDest, D.DedupKey;
  }

  /** A call that has just left its start without claiming did not need to. */
  lemma LeavesStart(c: D.Config, ds: D.State, step: D.Step, k: nat)
    requires D.Enabled(c, ds, step) && k < |D.Do(c, ds, step).calls| && !D.Do(c, ds, step).calls[k].phase.Started?
    requires k >= |ds.calls| || ds.calls[k].phase.Started?
    ensures k < |ds.calls| && ((step.TryClaim? && step.call == k) || !D.Claims(c, ds.calls[k]))
    ensures D.Claims(c, D.Do(c, ds, step).calls[k]) == D.Claims(c, ds.calls[k])
  {
    hide D.EgressDest, D.DedupKey;
  }

  /** A move of the claim protocol that a step of the fleet made; claims are steps of their own. */
  ghost predicate Moves(c: Config, ds: D.State, ds': D.State, step: Step, move: D.Step) {
    D.Enabled(c.claims, ds, move) && ds' == D.Do(c.claims, ds, move) && (move.TryClaim? ==> step == Shared(move))
  }

  /** What a step of the fleet is to the claim protocol: nothing, or one step of it. */
  lemma ClaimMove(c: Config, s: State, step: Step)
    requires ConfigOk(c) && Inv(c, s) && D.Inv(c.claims, Claim(c, s)) && Enabled(c, s, step) && Sound(c, Do(c, s, step))
    ensures var ds, ds' := Claim(c, s), Claim(c, Do(c, s, step));
            ds' == ds || exists move :: Moves(c, ds, ds', step, move)
  {
    hide E.Run, E.CanRun, D.Run, D.CanRun, E.Do, E.Enabled, D.Do, D.Enabled, Ep, Claim, D.Inv, Inv, I.Classify, Seen;
    var ds, ds' := Claim(c, s), Claim(c, Do(c, s, step));
    match step
    case Time(dt) =>
      TimePasses(c, s, dt);
      TickStep(c.claims, ds, dt);
      assert Moves(c, ds, ds', step, D.Tick(dt));
    case At(e, st) => EndpointSteps(c, s, e, st);
    case Receive(e, raw) =>
      ReceiveMove(c, s, e, raw);
      assert Moves(c, ds, ds', step, D.FrameStore(e, I.Classify(c.eps[e].codec, raw).key, c.eps[e].ttl));
    case Call(e, t) =>
      var raw := Ep(c, s, e).tasks[t].look.raw.value;
      BeginStep(c.claims, ds, e, raw, E.TxID(raw));
      ClaimsStep(c, s, Do(c, s, step), D.Begin(e, raw, E.TxID(raw)));
      assert Moves(c, ds, ds', step, D.Begin(e, raw, E.TxID(raw)));
    case Shared(move) =>
      ClaimsStep(c, s, Do(c, s, step), move);
      assert Moves(c, ds, ds', step, move);
    case Return(k) => ReturnEffect(c, s, k);
  }

  lemma TickStep(c: D.Config, ds: D.State, dt: nat)
    ensures D.Enabled(c, ds, D.Tick(dt)) && D.Do(c, ds, D.Tick(dt)) == ds.(now := ds.now + dt)
  {
  }

  lemma ReceiveMove(c: Config, s: State, e: nat, raw: ByteString)
    requires ConfigOk(c) && Enabled(c, s, Receive(e, raw)) && Sound(c, Do(c, s, Receive(e, raw)))
    ensures var move := D.FrameStore(e, I.Classify(c.eps[e].codec, raw).key, c.eps[e].ttl);
            && D.Enabled(c.claims, Claim(c, s), move)
            && Claim(c, Do(c, s, Receive(e, raw))) == D.Do(c.claims, Claim(c, s), move)
  {
    hide E.Run, E.CanRun, D.Run, D.CanRun, D.Do, D.Enabled, I.Classify;
    var key := I.Classify(c.eps[e].codec, raw).key;
    KeyLength(c.eps[e].codec, raw);
    assert SameEndpoint(c, e);
    FrameStoreStep(c.claims, Claim(c, s), e, key, c.eps[e].ttl);
    D.Extend(c.claims, s.calls, D.FrameStore(e, key, c.eps[e].ttl));
  }

  /** Every call that must claim and has left its start was decided by a step of the run, its claim. */
  lemma {:induction false} CallsAreDecided(c: Config, steps: seq<Step>, k: nat)
    requires ConfigOk(c) && CanRun(c, steps) && Sound(c, Run(c, steps)) && k < |Claim(c, Run(c, steps)).calls|
    requires D.Claims(c.claims, Claim(c, Run(c, steps)).calls[k]) && !Claim(c, Run(c, steps)).calls[k].phase.Started?
    ensures Decided(c, steps, k, D.PastClaim(Claim(c, Run(c, steps)).calls[k].phase))
  {
    if steps == [] {
      StartSound(c);
    } else {
      hide Run, CanRun, Inv, Sound, D.Inv, Do, Enabled, Decided, D.Claims, D.PastClaim, Claim, Moves, ConfigOk;
      var before, step := LastStep(c, steps);
      var s := Run(c, before);
      assert Sound(c, s) by { InvSound(c, s); }
      ClaimMove(c, s, step);
      var ds, ds' := Claim(c, s), Claim(c, Run(c, steps));
      if k < |ds.calls| && !ds.calls[k].phase.Started? {
        DecisionStays(c, ds, ds', step, k);
        CallsAreDecided(c, before, k);
        DecidedKept(c, before, step, k, D.PastClaim(ds.calls[k].phase));
      } else {
        var move :| Moves(c, ds, ds', step, move);
        DecidedHere(c, before, step, ds', move, k);
      }
    }
  }

  lemma DecisionStays(c: Config, ds: D.State, ds': D.State, step: Step, k: nat)
    requires k < |ds.calls| && !ds.calls[k].phase.Started?
    requires ds' == ds || exists move :: Moves(c, ds, ds', step, move)
    ensures k < |ds'.calls| && !ds'.calls[k].phase.Started?
    ensures D.PastClaim(ds'.calls[k].phase) == D.PastClaim(ds.calls[k].phase)
    ensures D.Claims(c.claims, ds'.calls[k]) == D.Claims(c.claims, ds.calls[k])
  {
    if ds' != ds {
      hide D.Do, D.Enabled, D.PastClaim;
      var move :| Moves(c, ds, ds', step, move);
      PhaseClassStays(c.claims, ds, move, k);
    }
  }

  lemma DecidedHere(c: Config, before: seq<Step>, step: Step, ds': D.State, move: D.Step, k: nat)
    requires ConfigOk(c) && CanRun(c, before) && Sound(c, Run(c, before))
    requires Moves(c, Claim(c, Run(c, before)), ds', step, move)
    requires k < |ds'.calls| && !ds'.calls[k].phase.Started? && D.Claims(c.claims, ds'.calls[k])
    requires var ds := Claim(c, Run(c, before)); k >= |ds.calls| || ds.calls[k].phase.Started?
    ensures Decided(c, before + [step], k, D.PastClaim(ds'.calls[k].phase))
  {
    LeavesStart(c.claims, Claim(c, Run(c, before)), move, k);
    hide Run, CanRun, D.Run, D.CanRun, E.Run, E.CanRun, D.Do, D.Enabled, Free, D.StoreKey, D.Claims;
    assert (before + [step])[..|before|] == before;
    ClaimPhase(c.claims, Run(c, before).calls, k, move.reply);
    var goesOn := D.PastClaim(D.Do(c.claims, Claim(c, Run(c, before)), move).calls[k].phase);
    assert Decides(c, before + [step], |before|, k, goesOn);
  }

  /**
   A NACK that must claim ends as sent or failed, not suppressed, exactly when at its own claim's step
   of the run the store answered and no claim of the key that had taken effect was within its window.
   */
  lemma HitDecidedAtClaim(c: Config, steps: seq<Step>, e: nat, t: nat) returns (k: nat)
    requires ConfigOk(c) && CanRun(c, steps) && Sound(c, Run(c, steps)) && e < |c.eps|
    requires t < |Ep(c, Run(c, steps), e).tasks| && Ended(Ep(c, Run(c, steps), e).tasks[t].stage)
    requires Ep(c, Run(c, steps), e).tasks[t].look.raw.Some?
    requires c.eps[e].redis && |Ep(c, Run(c, steps), e).tasks[t].look.raw.value| >= 56
    ensures k < |Run(c, steps).owners| && Run(c, steps).owners[k] == Owner(e, t)
    ensures Decided(c, steps, k, Ep(c, Run(c, steps), e).tasks[t].stage != E.Suppressed)
  {
    RunInv(c, steps);
    hide Run, CanRun, Ep, Claim, Sound, Inv, D.Inv, D.Claims, D.PastClaim, Decided, ConfigOk;
    k := EndedCall(c, Run(c, steps), e, t);
    CallsAreDecided(c, steps, k);
  }

  /** The call of a NACK that has ended: it left its start, and ended as the NACK did. */
  lemma EndedCall(c: Config, s: State, e: nat, t: nat) returns (k: nat)
    requires ConfigOk(c) && Inv(c, s) && e < |c.eps|
    requires t < |Ep(c, s, e).tasks| && Ended(Ep(c, s, e).tasks[t].stage) && Ep(c, s, e).tasks[t].look.raw.Some?
    requires c.eps[e].redis && |Ep(c, s, e).tasks[t].look.raw.value| >= 56
    ensures k < |s.owners| == |Claim(c, s).calls| && s.owners[k] == Owner(e, t)
    ensures var call := Claim(c, s).calls[k];
            && D.Claims(c.claims, call) && !call.phase.Started?
            && D.PastClaim(call.phase) == (Ep(c, s, e).tasks[t].stage != E.Suppressed)
  {
    hide Ep, Claim, Sound, E.TxID, E.Asks, OwnersInv;
    k :| 0 <= k < |s.owners| && s.owners[k] == Owner(e, t);
    assert CallOk(Ep(c, s, e), t, e, Claim(c, s).calls[k]) && SameEndpoint(c, e);
  }

  // ----- every datagram of the fleet is justified -----

  /** Step m brought a frame into an endpoint's cache no more than its time to live before a time. */
  ghost predicate Source(c: Config, steps: seq<Step>, f: nat, raw: ByteString, at: int, m: nat, ttl: int) {
    m < |steps| && Feeds(c, steps[m], f, raw, ttl) && Clock(steps[..m]) <= at <= Clock(steps[..m]) + ttl
  }

  ghost predicate HasSource(c: Config, steps: seq<Step>, f: nat, raw: ByteString, at: int) {
    exists m: nat, ttl: int :: Source(c, steps, f, raw, at, m, ttl)
  }

  lemma JustifiedHasSource(c: Config, steps: seq<Step>, f: nat, t: nat, task: E.Task, raw: ByteString)
    requires ConfigOk(c) && CanRun(c, steps) && f < |c.eps| && f < |Run(c, steps).runs| && task.look.raw == Some(raw)
    requires J.Justified(c.eps[f], Run(c, steps).runs[f], t, task)
    ensures HasSource(c, steps, f, raw, task.look.at)
  {
    hide Run, CanRun, J.Clock, Clock, J.Brings, Feeds, E.Asks, E.Key, I.StampOf;
    var run := Run(c, steps).runs[f];
    var n: nat, j: nat :| J.FoundFrame(c.eps[f], run, t, task, n, j);
    FramesHaveOrigins(c, steps, f, j, E.Key(task));
    var m: nat :| Origin(c, steps, Run(c, steps).runs, f, j, m);
    assert Source(c, steps, f, raw, task.look.at, m, run[j].ttl);
  }

  /**
   Every datagram that left any socket of any endpoint, of calls in progress or failed included, is
   the frame that its own NACK found, the latest filed under its pair; it was received, by that
   endpoint or by one that shares its cache, no more than the receiver's time to live before the
   lookup; it was cleared by the bucket of its source and shard, and sent to the group its version byte
   and TxID call for.
   */
  lemma WritesAreHits(c: Config, steps: seq<Step>, i: nat)
    requires ConfigOk(c) && CanRun(c, steps) && Sound(c, Run(c, steps)) && i < |Claim(c, Run(c, steps)).writes|
    ensures var s := Run(c, steps);
            var w := Claim(c, s).writes[i];
            && w.call < |s.owners|
            && var o := s.owners[w.call];
               && o.ep < |c.eps| && o.task < |Ep(c, s, o.ep).tasks|
               && var task := Ep(c, s, o.ep).tasks[o.task];
                  && task.look.raw == Some(w.raw) && V.PastGroup(task.stage)
                  && J.Justified(c.eps[o.ep], s.runs[o.ep], o.task, task)
                  && HasSource(c, steps, o.ep, w.raw, task.look.at)
                  && E.Routed(c.eps[o.ep], w.raw, w.dest)
                  && V.GrantOk(c.eps[o.ep], Ep(c, s, o.ep), o.task, task)
  {
    RunInv(c, steps);
    WriteOwner(c, Run(c, steps), i);
    var s := Run(c, steps);
    var o := s.owners[Claim(c, s).writes[i].call];
    assert Ep(c, s, o.ep) == E.Run(c.eps[o.ep], s.runs[o.ep]);
    hide Run, CanRun, Ep, Claim, D.Inv, E.TxID, E.Asks, E.Run, E.CanRun, J.Justified, D.Run, D.CanRun, D.EgressDest,
         CallsInv, HasSource;
    J.HitsAreJustified(c.eps[o.ep], s.runs[o.ep], o.task);
    JustifiedHasSource(c, steps, o.ep, o.task, Ep(c, s, o.ep).tasks[o.task], Claim(c, s).writes[i].raw);
    Granted(c.eps[o.ep], s.runs[o.ep], o.task);
  }

  lemma WriteOwner(c: Config, s: State, i: nat)
    requires ConfigOk(c) && Inv(c, s) && D.Inv(c.claims, Claim(c, s)) && i < |Claim(c, s).writes|
    ensures var w := Claim(c, s).writes[i];
            && w.call < |s.owners|
            && var o := s.owners[w.call];
               && o.ep < |c.eps| && o.task < |Ep(c, s, o.ep).tasks|
               && var task := Ep(c, s, o.ep).tasks[o.task];
                  && task.look.raw == Some(w.raw) && V.PastGroup(task.stage)
                  && E.Routed(c.eps[o.ep], w.raw, w.dest)
  {
    hide Sound, Ep, Claim, E.TxID, E.Asks, D.EgressDest, E.Routed;
    hide D.TicketInv, D.SpacingInv, D.BackedInv, D.LoopInv, D.FailInv, D.LockInv, D.PhaseInv;
    var ds := Claim(c, s);
    assert D.WriteOk(c.claims, ds, ds.writes[i]);
    var o := s.owners[ds.writes[i].call];
    assert CallOk(Ep(c, s, o.ep), o.task, o.ep, ds.calls[ds.writes[i].call]) && SameEndpoint(c, o.ep);
    E.RoutedExactly(c.eps[o.ep], ds.writes[i].raw, ds.writes[i].dest);
  }

  lemma Granted(c: E.Config, run: seq<E.Step>, t: nat)
    requires E.CanRun(c, run) && t < |E.Run(c, run).tasks| && V.PastGroup(E.Run(c, run).tasks[t].stage)
    ensures V.GrantOk(c, E.Run(c, run), t, E.Run(c, run).tasks[t])
  {
    V.RunInv(c, run);
    hide E.Run, E.CanRun, V.LimitInv, V.CacheInv, V.TimeInv, V.ReplyInv, V.EgressInv, V.MetricsInv, V.GrantOk;
    assert V.TaskOk(c, E.Run(c, run), t, E.Run(c, run).tasks[t]);
  }

  /** The NACKs of an endpoint's source for which some socket has written to a group, calls in progress included. */
  ghost function WritersAt(c: Config, s: State, e: nat, src: string, dest: D.Dest): (ts: set<nat>)
    requires Sound(c, s) && e < |c.eps|
  {
    set t: nat | t < |Ep(c, s, e).tasks| && E.Source(Ep(c, s, e).tasks[t]) == src && WroteTo(c, s, e, t, dest)
  }

  ghost predicate WroteTo(c: Config, s: State, e: nat, t: nat, dest: D.Dest)
    requires Sound(c, s)
  {
    exists i :: 0 <= i < |Claim(c, s).writes| && Claim(c, s).writes[i].call < |s.owners|
                && s.owners[Claim(c, s).writes[i].call] == Owner(e, t) && Claim(c, s).writes[i].dest == dest
  }

  lemma WriterWrote(c: Config, s: State, e: nat, src: string, dest: D.Dest, t: nat) returns (i: nat)
    requires Sound(c, s) && e < |c.eps| && t in WritersAt(c, s, e, src, dest)
    ensures t < |Ep(c, s, e).tasks| && E.Source(Ep(c, s, e).tasks[t]) == src
    ensures i < |Claim(c, s).writes| && Claim(c, s).writes[i].call < |s.owners|
    ensures s.owners[Claim(c, s).writes[i].call] == Owner(e, t) && Claim(c, s).writes[i].dest == dest
  {
    hide Sound, Ep, Claim, E.Source;
    i :| 0 <= i < |Claim(c, s).writes| && Claim(c, s).writes[i].call < |s.owners|
         && s.owners[Claim(c, s).writes[i].call] == Owner(e, t) && Claim(c, s).writes[i].dest == dest;
  }

  lemma WriterIsRouted(c: Config, s: State, e: nat, src: string, g: nat, t: nat)
    requires ConfigOk(c) && Inv(c, s) && D.Inv(c.claims, Claim(c, s)) && e < |c.eps|
    requires t in WritersAt(c, s, e, src, D.Shard(g))
    ensures t in ET.RoutedToShard(c.eps[e], Ep(c, s, e), src, g)
  {
    hide Inv, Sound, Ep, Claim, D.Inv, E.DestOf, ConfigOk, V.PastGroup, E.Source, WritersAt, E.Routed;
    assert Sound(c, s) by { InvSound(c, s); }
    var i := WriterWrote(c, s, e, src, D.Shard(g), t);
    WriteOwner(c, s, i);
  }

  /**
   At every endpoint, at every moment, the NACKs of a source for which any socket has written a frame
   to a shard group number at most the grants of that source and group's bucket.
   */
  lemma ShardWritesAreGranted(c: Config, steps: seq<Step>, e: nat, src: string, g: nat)
    requires ConfigOk(c) && CanRun(c, steps) && Sound(c, Run(c, steps)) && e < |c.eps| && c.eps[e].hasEngine
    ensures |WritersAt(c, Run(c, steps), e, src, D.Shard(g))| <= |ET.GrantsOf(Ep(c, Run(c, steps), e), src, g)|
  {
    RunInv(c, steps);
    var s := Run(c, steps);
    assert Ep(c, s, e) == E.Run(c.eps[e], s.runs[e]) && E.CanRun(c.eps[e], s.runs[e]);
    hide Run, CanRun, Inv, Sound, Ep, Claim, D.Inv, E.Run, E.CanRun, ET.RoutedToShard, ET.GrantsOf, WritersAt;
    ET.ShardRetransmitsAreGranted(c.eps[e], s.runs[e], src, g);
    var a, b := WritersAt(c, s, e, src, D.Shard(g)), ET.RoutedToShard(c.eps[e], Ep(c, s, e), src, g);
    forall t | t in a ensures t in b { WriterIsRouted(c, s, e, src, g, t); }
    M.SubsetSize(a, b);
  }
}
