/**
 Progress of the fleet: from every reachable state, exactly which NACKs that the group tier has cleared
 can still be sent.
 */
module FleetProgress {
  import opened Bytes
  import opened Options
  import N = Nack
  import D = Dedup
  import E = Endpoint
  import V = EndpointInvariants
  import opened Fleet
  import opened FleetTheorems
  import opened FleetRuns

  // ----- which cleared NACKs can still be sent -----

  ghost predicate StandsAt(c: Config, s: State, e: nat, t: nat, stage: E.Stage) {
    Sound(c, s) && e < |c.eps| && t < |Ep(c, s, e).tasks| && Ep(c, s, e).tasks[t].stage == stage
  }

  /** A call that is over without having written every socket. */
  predicate Over(phase: D.Phase) { phase.Suppressed? || phase.Failed? }

  /** A cleared NACK has a call, at a phase. */
  ghost predicate Calls(c: Config, s: State, e: nat, t: nat, k: nat) {
    && StandsAt(c, s, e, t, E.Cleared) && k < |s.owners| == |Claim(c, s).calls| && s.owners[k] == Owner(e, t)
    && Claim(c, s).calls[k].ep == e
  }

  /** The call of a NACK was suppressed or failed. */
  ghost predicate Lost(c: Config, s: State, e: nat, t: nat) {
    && Sound(c, s)
    && exists k :: 0 <= k < |s.owners| && k < |Claim(c, s).calls| && s.owners[k] == Owner(e, t)
                   && Over(Claim(c, s).calls[k].phase)
  }

  lemma ClearedFacts(c: E.Config, run: seq<E.Step>, t: nat)
    requires E.CanRun(c, run) && t < |E.Run(c, run).tasks| && E.Run(c, run).tasks[t].stage == E.Cleared
    ensures E.At(E.Run(c, run), t, E.Cleared) && E.Run(c, run).tasks[t].look.raw.Some?
  {
    V.RunInv(c, run);
    hide E.Run, E.CanRun, V.LimitInv, V.CacheInv, V.TimeInv, V.ReplyInv, V.EgressInv, V.MetricsInv, N.Parse;
    hide V.SeqOk, V.ChainOk, V.LookOk, V.GrantOk;
    assert V.TaskOk(c, E.Run(c, run), t, E.Run(c, run).tasks[t]);
  }

  /** A cleared NACK has its call, or can make it. */
  lemma MakeCall(c: Config, steps: seq<Step>, e: nat, t: nat) returns (steps': seq<Step>, k: nat)
    requires ConfigOk(c) && CanRun(c, steps) && StandsAt(c, Run(c, steps), e, t, E.Cleared)
    requires !Lost(c, Run(c, steps), e, t)
    ensures steps <= steps' && CanRun(c, steps') && Calls(c, Run(c, steps'), e, t, k)
    ensures !Over(Claim(c, Run(c, steps')).calls[k].phase)
  {
    hide Run, CanRun, Inv, D.Inv, Do, Enabled, Sound, Ep, Claim, Calls, StandsAt, Lost, ConfigOk;
    RunInv(c, steps);
    var s := Run(c, steps);
    if Owner(e, t) in s.owners {
      k :| 0 <= k < |s.owners| && s.owners[k] == Owner(e, t);
      OwnCall(c, s, e, t, k);
      steps' := steps;
    } else {
      CallBegins(c, s, e, t);
      Extend(c, steps, Call(e, t));
      steps' := steps + [Call(e, t)];
      k := |s.owners|;
    }
    CallsFacts(c, Run(c, steps'), e, t, k);
  }

  lemma OwnCall(c: Config, s: State, e: nat, t: nat, k: nat)
    requires Inv(c, s) && StandsAt(c, s, e, t, E.Cleared) && k < |s.owners| && s.owners[k] == Owner(e, t)
    ensures Calls(c, s, e, t, k) && (Over(Claim(c, s).calls[k].phase) ==> Lost(c, s, e, t))
  {
    hide Sound, Ep, Claim, E.TxID, E.Asks, OwnersInv, EndedInv;
    assert CallOk(Ep(c, s, e), t, e, Claim(c, s).calls[k]);
  }

  lemma CallBegins(c: Config, s: State, e: nat, t: nat)
    requires ConfigOk(c) && Inv(c, s) && StandsAt(c, s, e, t, E.Cleared) && Owner(e, t) !in s.owners
    ensures Enabled(c, s, Call(e, t))
    ensures var s' := Do(c, s, Call(e, t));
            Calls(c, s', e, t, |s.owners|) && Claim(c, s').calls[|s.owners|].phase == D.Started
  {
    assert E.At(Ep(c, s, e), t, E.Cleared) && Ep(c, s, e).tasks[t].look.raw.Some? by {
      hide E.Run, E.CanRun, CallsInv, OwnersInv, EndedInv, D.Run, D.CanRun;
      ClearedFacts(c.eps[e], s.runs[e], t);
    }
    hide Sound, Ep, Claim, E.TxID, E.Asks, OwnersInv, EndedInv, CallOk, D.Do, D.Enabled;
    ClaimsConfig(c);
    var raw := Ep(c, s, e).tasks[t].look.raw.value;
    BeginStep(c.claims, Claim(c, s), e, raw, E.TxID(raw));
    ClaimsStep(c, s, Do(c, s, Call(e, t)), D.Begin(e, raw, E.TxID(raw)));
  }

  /** How long a store key still counts as taken. */
  function WaitFor(ds: D.State, key: ByteString): (dt: nat)
    ensures !D.Live(ds.(now := ds.now + dt), key)
  {
    if D.Live(ds, key) then ds.store[key] - ds.now else 0
  }

  lemma FreeClaim(c: D.Config, ds: D.State, k: nat)
    requires k < |ds.calls| && ds.calls[k].phase.Started? && D.Claims(c, ds.calls[k])
    requires !D.Live(ds, D.StoreKey(c, ds.calls[k]))
    ensures D.Enabled(c, ds, D.TryClaim(k, D.Answered))
    ensures var ds' := D.Do(c, ds, D.TryClaim(k, D.Answered));
            |ds'.calls| == |ds.calls| && ds'.calls[k].phase == D.Ready && ds'.calls[k].ep == ds.calls[k].ep
  {
    hide D.EgressDest, D.DedupKey, D.Live;
  }

  lemma PassClaim(c: D.Config, ds: D.State, k: nat)
    requires k < |ds.calls| && ds.calls[k].phase.Started? && !D.Claims(c, ds.calls[k])
    ensures D.Enabled(c, ds, D.NoClaim(k))
    ensures var ds' := D.Do(c, ds, D.NoClaim(k));
            |ds'.calls| == |ds.calls| && ds'.calls[k].phase == D.Ready && ds'.calls[k].ep == ds.calls[k].ep
  {
    hide D.EgressDest, D.DedupKey, D.Live, D.DoClaim;
  }

  lemma SameCall(c: Config, s: State, s': State, e: nat, t: nat, k: nat)
    requires Calls(c, s, e, t, k) && Sound(c, s') && s'.owners == s.owners
    requires Ep(c, s', e).tasks == Ep(c, s, e).tasks && |Claim(c, s').calls| == |Claim(c, s).calls|
    requires Claim(c, s').calls[k].ep == e
    ensures Calls(c, s', e, t, k)
  {
    hide Sound, Ep, Claim;
  }

  /** Once any claim of its key has run out, a call that has not claimed can do so and is ready. */
  lemma MakeReady(c: Config, steps: seq<Step>, e: nat, t: nat, k: nat) returns (steps': seq<Step>)
    requires ConfigOk(c) && CanRun(c, steps) && Calls(c, Run(c, steps), e, t, k)
    requires Claim(c, Run(c, steps)).calls[k].phase.Started?
    ensures steps <= steps' && CanRun(c, steps') && Calls(c, Run(c, steps'), e, t, k)
    ensures Claim(c, Run(c, steps')).calls[k].phase == D.Ready
  {
    hide Run, CanRun, Sound, Ep, Claim, D.Do, D.Enabled, D.Claims, D.StoreKey, D.Live, Do;
    var s := Run(c, steps);
    var ds := Claim(c, s);
    if D.Claims(c.claims, ds.calls[k]) {
      var dt := WaitFor(ds, D.StoreKey(c.claims, ds.calls[k]));
      Extend(c, steps, Time(dt));
      TimePasses(c, s, dt);
      var mid := steps + [Time(dt)];
      SameCall(c, s, Run(c, mid), e, t, k);
      FreeClaim(c.claims, Claim(c, Run(c, mid)), k);
      steps' := SharedStep(c, mid, D.TryClaim(k, D.Answered));
      SameRuns(c, Run(c, mid), Run(c, steps'));
      SameCall(c, Run(c, mid), Run(c, steps'), e, t, k);
    } else {
      PassClaim(c.claims, ds, k);
      steps' := SharedStep(c, steps, D.NoClaim(k));
      SameRuns(c, s, Run(c, steps'));
      SameCall(c, s, Run(c, steps'), e, t, k);
    }
  }

  /** A call past its claim that is not over goes through its write loop to the end. */
  lemma FinishCall(c: Config, steps: seq<Step>, e: nat, t: nat, k: nat) returns (steps': seq<Step>)
    requires ConfigOk(c) && CanRun(c, steps) && Calls(c, Run(c, steps), e, t, k)
    requires !Claim(c, Run(c, steps)).calls[k].phase.Started? && !Over(Claim(c, Run(c, steps)).calls[k].phase)
    ensures steps <= steps' && CanRun(c, steps') && Calls(c, Run(c, steps'), e, t, k)
    ensures Claim(c, Run(c, steps')).calls[k].phase == D.Sent
  {
    hide Run, CanRun, D.Run, D.CanRun, E.CanRun, E.Run, D.Moved, ConfigOk;
    var s := Run(c, steps);
    assert D.ConfigOk(c.claims) by { ClaimsConfig(c); }
    var more: seq<D.Step> := [];
    assert s.calls + more == s.calls;
    var phase := Claim(c, s).calls[k].phase;
    if phase.Ready? {
      more := D.ReadyCanBeSent(c.claims, s.calls, k);
    } else if phase.Writing? {
      more := D.FinishLoop(c.claims, s.calls, k, phase.left);
      MovedCall(Claim(c, s), D.Run(c.claims, s.calls + more), k);
    }
    steps' := InCalls(c, steps, more);
    SameCall(c, s, Run(c, steps'), e, t, k);
  }

  lemma MovedCall(ds: D.State, ds': D.State, k: nat)
    requires D.Moved(ds, ds', k, D.Sent)
    ensures k < |ds.calls| == |ds'.calls| && ds'.calls[k].phase == D.Sent && ds'.calls[k].ep == ds.calls[k].ep
  {
  }

  lemma ReturnSent(c: Config, steps: seq<Step>, e: nat, t: nat, k: nat)
    requires ConfigOk(c) && CanRun(c, steps) && Calls(c, Run(c, steps), e, t, k)
    requires Claim(c, Run(c, steps)).calls[k].phase == D.Sent
    ensures CanRun(c, steps + [Return(k)]) && StandsAt(c, Run(c, steps + [Return(k)]), e, t, E.Sent)
  {
    hide Run, CanRun, Inv, D.Inv, ConfigOk, Enabled, Do, Sound, Ep, Claim, Calls, StandsAt, Ended1;
    RunInv(c, steps);
    var s := Run(c, steps);
    CallsFacts(c, s, e, t, k);
    ReturnPossible(c, s, e, t, k);
    ReturnEffect(c, s, k);
    Extend(c, steps, Return(k));
    EndsSent(c, s, Run(c, steps + [Return(k)]), e, t, k);
  }

  lemma ReturnPossible(c: Config, s: State, e: nat, t: nat, k: nat)
    requires Calls(c, s, e, t, k) && Claim(c, s).calls[k].phase == D.Sent
    ensures Enabled(c, s, Return(k)) && s.owners[k] == Owner(e, t)
  {
    hide E.Run, E.CanRun, D.Run, D.CanRun;
    ClearedFacts(c.eps[e], s.runs[e], t);
  }

  lemma EndsSent(c: Config, s: State, s': State, e: nat, t: nat, k: nat)
    requires Calls(c, s, e, t, k) && Claim(c, s).calls[k].phase == D.Sent && Sound(c, s')
    requires Ended1(Ep(c, s, e), Ep(c, s', e), t, D.Sent)
    ensures StandsAt(c, s', e, t, E.Sent)
  {
    hide Sound, Ep, Claim;
  }

  /**
   From every reachable state of the fleet a cleared NACK whose call, if it has made one, was neither
   suppressed nor failed can be sent: some continuation of the run ends it as sent.
   */
  lemma ClearedCanBeSent(c: Config, steps: seq<Step>, e: nat, t: nat) returns (steps': seq<Step>)
    requires ConfigOk(c) && CanRun(c, steps) && StandsAt(c, Run(c, steps), e, t, E.Cleared)
    requires !Lost(c, Run(c, steps), e, t)
    ensures steps <= steps' && CanRun(c, steps') && StandsAt(c, Run(c, steps'), e, t, E.Sent)
  {
    hide Run, CanRun, Sound, Ep, Claim, ConfigOk, Lost, Calls, StandsAt;
    var s1, k := MakeCall(c, steps, e, t);
    CallsFacts(c, Run(c, s1), e, t, k);
    var s2 := s1;
    if Claim(c, Run(c, s1)).calls[k].phase.Started? {
      s2 := MakeReady(c, s1, e, t, k);
      CallsFacts(c, Run(c, s2), e, t, k);
    }
    var s3 := FinishCall(c, s2, e, t, k);
    ReturnSent(c, s3, e, t, k);
    steps' := s3 + [Return(k)];
  }

  lemma CallsFacts(c: Config, s: State, e: nat, t: nat, k: nat)
    requires Calls(c, s, e, t, k)
    ensures Sound(c, s) && e < |c.eps| && k < |s.owners| == |Claim(c, s).calls| && s.owners[k] == Owner(e, t)
  {
  }

  // ----- and no other -----

  lemma ReturnedStays(c: D.Config, ds: D.State, move: D.Step, k: nat)
    requires D.Enabled(c, ds, move) && k < |ds.calls| && Over(ds.calls[k].phase)
    ensures k < |D.Do(c, ds, move).calls| && Over(D.Do(c, ds, move).calls[k].phase)
  {
    hide D.EgressDest, D.DedupKey;
  }

  lemma OwnersGrow(c: Config, s: State, step: Step)
    requires Enabled(c, s, step)
    ensures s.owners <= Do(c, s, step).owners
  {
    hide Sound, Ep, Claim, Seen, E.TxID;
  }

  lemma LostStep(c: Config, s: State, step: Step, e: nat, t: nat)
    requires ConfigOk(c) && Inv(c, s) && D.Inv(c.claims, Claim(c, s)) && Enabled(c, s, step) && Lost(c, s, e, t)
    ensures Lost(c, Do(c, s, step), e, t)
  {
    KeepsInv(c, s, step);
    assert Sound(c, Do(c, s, step)) by { InvSound(c, Do(c, s, step)); }
    ClaimMove(c, s, step);
    OwnersGrow(c, s, step);
    hide Inv, D.Inv, Do, Enabled, Sound, Ep, Claim, ConfigOk, D.Do, D.Enabled;
    var s' := Do(c, s, step);
    var ds, ds' := Claim(c, s), Claim(c, s');
    var k :| 0 <= k < |s.owners| && k < |ds.calls| && s.owners[k] == Owner(e, t) && Over(ds.calls[k].phase);
    if ds' != ds {
      var move :| Moves(c, ds, ds', step, move);
      ReturnedStays(c.claims, ds, move, k);
    }
    assert s'.owners[k] == Owner(e, t) && Over(ds'.calls[k].phase);
  }

  lemma LostNotSent(c: Config, s: State, e: nat, t: nat)
    requires Inv(c, s) && Lost(c, s, e, t)
    ensures !StandsAt(c, s, e, t, E.Sent)
  {
    hide Sound, Ep, Claim, E.TxID, E.Asks, OwnersInv, EndedInv;
    var k :| 0 <= k < |s.owners| && k < |Claim(c, s).calls| && s.owners[k] == Owner(e, t)
             && Over(Claim(c, s).calls[k].phase);
    assert CallOk(Ep(c, s, s.owners[k].ep), t, e, Claim(c, s).calls[k]);
  }

  lemma {:induction false} LostIsFinal(c: Config, steps: seq<Step>, more: seq<Step>, e: nat, t: nat)
    requires ConfigOk(c) && CanRun(c, steps + more) && CanRun(c, steps) && Lost(c, Run(c, steps), e, t)
    ensures Lost(c, Run(c, steps + more), e, t) && !StandsAt(c, Run(c, steps + more), e, t, E.Sent)
  {
    hide Run, CanRun, Do, Enabled, Inv, D.Inv, Sound, Lost, StandsAt, ConfigOk;
    RunInv(c, steps + more);
    if more == [] {
      assert steps + more == steps;
    } else {
      var rest := more[..|more| - 1];
      var before, step := LastStep(c, steps + more);
      assert before == steps + rest;
      LostIsFinal(c, steps, rest, e, t);
      LostStep(c, Run(c, before), step, e, t);
    }
    LostNotSent(c, Run(c, steps + more), e, t);
  }

  /** A continuation of a run in which a NACK has ended as sent. */
  ghost predicate SendsIt(c: Config, steps: seq<Step>, steps': seq<Step>, e: nat, t: nat) {
    steps <= steps' && CanRun(c, steps') && StandsAt(c, Run(c, steps'), e, t, E.Sent)
  }

  /**
   Exactly which cleared NACKs can still be sent: in every reachable state those, and only those, whose
   call was neither suppressed nor failed. No lock, no other call and no claim that will run out is in
   the way for good.
   */
  lemma ClearedSendsExactly(c: Config, steps: seq<Step>, e: nat, t: nat)
    requires ConfigOk(c) && CanRun(c, steps) && StandsAt(c, Run(c, steps), e, t, E.Cleared)
    ensures (exists steps' :: SendsIt(c, steps, steps', e, t)) <==> !Lost(c, Run(c, steps), e, t)
  {
    hide Run, CanRun, Lost, StandsAt, ConfigOk;
    if Lost(c, Run(c, steps), e, t) {
      forall steps' ensures !SendsIt(c, steps, steps', e, t) {
        if steps <= steps' && CanRun(c, steps') {
          assert steps + steps'[|steps|..] == steps';
          LostIsFinal(c, steps, steps'[|steps|..], e, t);
        }
      }
    } else {
      var steps' := ClearedCanBeSent(c, steps, e, t);
      assert SendsIt(c, steps, steps', e, t);
    }
  }
}
