/**
 The NACK worker pool: one reader that reuses a single read buffer, a channel of 100 requests, any
 number of workers, cancellation and close. Buffers live on an explicit heap so that what a worker
 reads is whatever its buffer holds when it reads it.
 */
module WorkerPool {
  import opened Bytes
  import opened Nack

  const CAPACITY := 100

  /** A request in the channel: the buffer its bytes are in and the number of its datagram. */
  datatype Request = Request(data: nat, id: nat)

  datatype Reader = Top | Reading | Sending(req: Request) | Waiting | Returned

  datatype Worker = Idle | Busy(req: Request) | Exited

  /** A processed request with the bytes the worker saw. */
  datatype Done = Done(req: Request, seen: ByteString)

  datatype State = State(
    cancelled: bool,
    closed: bool,
    panicked: bool,               // a send on, or a second close of, the closed channel
    queue: seq<Request>,
    reader: Reader,
    workers: seq<Worker>,
    heap: seq<ByteString>,        // heap[0] is the read buffer
    accepted: seq<ByteString>,    // the datagrams taken off the socket at full size, as sent
    taken: seq<Request>,          // everything ever received from the channel
    processed: seq<Done>,
    abandoned: seq<Request>)

  datatype Step =
    | Cancel
    | Poll
    | ReadTimeout
    | ReadError
    | Read(wire: ByteString)
    | Send
    | GiveUp
    | Take(w: nat)
    | Leave(w: nat)
    | Finish(w: nat)
    | Return

  function Init(workers: nat): (s: State)
    ensures Inv(s) && |s.workers| == workers && s.reader == Top && !s.cancelled && s.accepted == []
  {
    NobodyBusy(seq(workers, _ => Idle));
    State(false, false, false, [], Top, seq(workers, _ => Idle), [seq(NACK_SIZE, _ => 0)], [], [], [], [])
  }

  predicate AllExited(s: State) {
    forall w :: 0 <= w < |s.workers| ==> s.workers[w] == Exited
  }

  /** Which steps the goroutines may take. A select with several ready cases may take any of them. */
  predicate Enabled(s: State, step: Step) {
    match step
    case Cancel => !s.cancelled
    case Poll => s.reader.Top?
    case ReadTimeout => s.reader.Reading?
    case ReadError => s.reader.Reading?
    case Read(_) => s.reader.Reading?
    case Send => s.reader.Sending? && |s.queue| < CAPACITY
    case GiveUp => s.reader.Sending? && s.cancelled
    case Take(w) => w < |s.workers| && s.workers[w].Idle? && s.queue != []
    case Leave(w) => w < |s.workers| && s.workers[w].Idle? && (s.cancelled || (s.closed && s.queue == []))
    case Finish(w) => w < |s.workers| && s.workers[w].Busy?
    case Return => s.reader.Waiting? && AllExited(s)
  }

  /** close(requests), then wait for the workers. */
  function CloseAndWait(s: State): (s': State)
  {
    s.(closed := true, panicked := s.panicked || s.closed, reader := Waiting)
  }

  /** What ReadFrom leaves in a buffer: at most its length, the rest of the datagram is lost. */
  function Received(wire: ByteString): (bs: ByteString)
    ensures |bs| <= NACK_SIZE
  {
    if |wire| <= NACK_SIZE then wire else wire[..NACK_SIZE]
  }

  /** The read buffer takes the datagram; a full-size one is copied to a buffer of its own. */
  function Accept(s: State, wire: ByteString): (s': State)
    requires |s.heap| > 0 && |s.heap[0]| == NACK_SIZE
  {
    var got := Received(wire);
    var heap := s.heap[0 := got + s.heap[0][|got|..]];
    if |got| != NACK_SIZE then s.(heap := heap, reader := Top)
    else s.(heap := heap + [heap[0][..|got|]], accepted := s.accepted + [wire],
            reader := Sending(Request(|heap|, |s.accepted|)))
  }

  function Do(s: State, step: Step): (s': State)
    requires Enabled(s, step) && Inv(s)
  {
    match step
    case Cancel => s.(cancelled := true)
    case Poll => if s.cancelled then CloseAndWait(s) else s.(reader := Reading)
    case ReadTimeout => s.(reader := Top)
    case ReadError => if s.cancelled then CloseAndWait(s) else s.(reader := Top)
    case Read(wire) => Accept(s, wire)
    case Send => s.(queue := s.queue + [s.reader.req], panicked := s.panicked || s.closed, reader := Top)
    case GiveUp => CloseAndWait(s.(abandoned := s.abandoned + [s.reader.req]))
    case Take(w) => s.(workers := s.workers[w := Busy(s.queue[0])], queue := s.queue[1..],
                       taken := s.taken + [s.queue[0]])
    case Leave(w) => s.(workers := s.workers[w := Exited])
    case Finish(w) =>
      var req := s.workers[w].req;
      s.(workers := s.workers[w := Idle], processed := s.processed + [Done(req, s.heap[req.data])])
    case Return => s.(reader := Returned)
  }

  // ----- what every step keeps -----

  function Held(s: State): (held: seq<Request>)
  {
    if s.reader.Sending? then [s.reader.req] else []
  }

  /** Every request in the order its datagram arrived: received, waiting, held by the reader, given up. */
  function Everything(s: State): (all: seq<Request>)
  {
    s.taken + s.queue + Held(s) + s.abandoned
  }

  function Load(w: Worker): (reqs: multiset<Request>)
  {
    if w.Busy? then multiset{w.req} else multiset{}
  }

  /** The requests workers are processing now. */
  function InProgress(workers: seq<Worker>): (reqs: multiset<Request>)
  {
    if workers == [] then multiset{} else InProgress(workers[..|workers| - 1]) + Load(workers[|workers| - 1])
  }

  function Requests(done: seq<Done>): (reqs: multiset<Request>)
  {
    if done == [] then multiset{} else Requests(done[..|done| - 1]) + multiset{done[|done| - 1].req}
  }

  ghost predicate ChannelInv(s: State) {
    && !s.panicked
    && |s.queue| <= CAPACITY
    && (s.closed <==> s.reader.Waiting? || s.reader.Returned?)
    && (s.closed ==> s.cancelled)
    && (s.abandoned != [] ==> s.closed && |s.abandoned| == 1)
    && (s.reader.Returned? ==> AllExited(s))
    && (forall w :: 0 <= w < |s.workers| && s.workers[w].Exited? ==> s.cancelled)
  }

  /** Requests are numbered in arrival order and each has its own buffer, never the read buffer. */
  ghost predicate OrderInv(s: State) {
    && |Everything(s)| == |s.accepted|
    && forall i :: 0 <= i < |Everything(s)| ==> Everything(s)[i] == Request(i + 1, i)
  }

  /** A request's buffer holds its datagram's first 64 bytes for good. */
  ghost predicate HeapInv(s: State) {
    && |s.heap| == |s.accepted| + 1
    && |s.heap[0]| == NACK_SIZE
    && forall i :: 0 <= i < |s.accepted| ==> |s.accepted[i]| >= NACK_SIZE && s.heap[i + 1] == s.accepted[i][..NACK_SIZE]
  }

  ghost predicate BusyInv(s: State) {
    forall w :: 0 <= w < |s.workers| && s.workers[w].Busy? ==>
      s.workers[w].req.data == s.workers[w].req.id + 1 && s.workers[w].req.id < |s.accepted|
  }

  /** Every processed request was read with the bytes its datagram began with. */
  ghost predicate SeenInv(s: State) {
    forall i :: 0 <= i < |s.processed| ==>
      var d := s.processed[i];
      d.req.id < |s.accepted| && |s.accepted[d.req.id]| >= NACK_SIZE
      && d.seen == s.accepted[d.req.id][..NACK_SIZE]
  }

  ghost predicate CountInv(s: State) {
    InProgress(s.workers) + Requests(s.processed) == multiset(s.taken)
  }

  ghost predicate WorkInv(s: State) {
    CountInv(s) && BusyInv(s) && SeenInv(s)
  }

  ghost predicate Inv(s: State) {
    ChannelInv(s) && OrderInv(s) && HeapInv(s) && WorkInv(s)
  }

  lemma {:induction false} InProgressUpdate(workers: seq<Worker>, w: nat, x: Worker)
    requires w < |workers|
    ensures InProgress(workers[w := x]) + Load(workers[w]) == InProgress(workers) + Load(x)
  {
    hide Load;
    var n := |workers| - 1;
    var updated := workers[w := x];
    assert InProgress(updated) == InProgress(updated[..n]) + Load(updated[n]);
    if w == n {
      assert updated[..n] == workers[..n];
    } else {
      assert updated[..n] == workers[..n][w := x];
      InProgressUpdate(workers[..n], w, x);
      SumsShift(InProgress(updated[..n]), Load(workers[w]), InProgress(workers[..n]), Load(x), Load(workers[n]));
    }
  }

  lemma SumsShift(a: multiset<Request>, b: multiset<Request>, c: multiset<Request>, d: multiset<Request>,
                  e: multiset<Request>)
    requires a + b == c + d
    ensures (a + e) + b == (c + e) + d
  {
    forall r: Request ensures ((a + e) + b)[r] == ((c + e) + d)[r] {
      assert (a + b)[r] == (c + d)[r];
    }
  }

  lemma {:induction false} NobodyBusy(workers: seq<Worker>)
    requires forall w :: 0 <= w < |workers| ==> !workers[w].Busy?
    ensures InProgress(workers) == multiset{}
  {
    if workers != [] { NobodyBusy(workers[..|workers| - 1]); }
  }

  lemma KeepsChannel(s: State, step: Step)
    requires Inv(s) && Enabled(s, step)
    ensures ChannelInv(Do(s, step))
  {
    hide OrderInv, CountInv, SeenInv;
  }

  lemma KeepsHeap(s: State, step: Step)
    requires Inv(s) && Enabled(s, step)
    ensures HeapInv(Do(s, step))
  {
    hide OrderInv, CountInv, SeenInv, ChannelInv;
    if step.Read? {
      var got := Received(step.wire);
      assert |got| == NACK_SIZE ==> (got + s.heap[0][|got|..])[..|got|] == step.wire[..NACK_SIZE];
    }
  }

  lemma OrderOfRead(s: State, wire: ByteString)
    requires Inv(s) && s.reader.Reading?
    ensures OrderInv(Accept(s, wire))
  {
    var s' := Accept(s, wire);
    if |Received(wire)| == NACK_SIZE {
      assert Everything(s) == s.taken + s.queue;
      assert Everything(s') == s.taken + s.queue + [Request(|s.heap|, |s.accepted|)];
    } else {
      assert Everything(s') == Everything(s);
    }
  }

  /** Apart from a read, a step only moves requests along the line. */
  lemma StepKeepsEverything(s: State, step: Step)
    requires Inv(s) && Enabled(s, step) && !step.Read?
    ensures Everything(Do(s, step)) == Everything(s)
  {
    hide OrderInv, HeapInv, CountInv, SeenInv, BusyInv;
    match step
    case Take(w) => assert (s.taken + [s.queue[0]]) + s.queue[1..] == s.taken + s.queue;
    case GiveUp => assert s.abandoned == [];
    case _ =>
  }

  lemma KeepsOrder(s: State, step: Step)
    requires Inv(s) && Enabled(s, step)
    ensures OrderInv(Do(s, step))
  {
    if step.Read? {
      hide OrderInv;
      OrderOfRead(s, step.wire);
    } else {
      StepKeepsEverything(s, step);
      hide Everything;
    }
  }

  lemma BusyOfTake(s: State, w: nat)
    requires Inv(s) && Enabled(s, Take(w))
    ensures BusyInv(Do(s, Take(w)))
  {
    hide CountInv, SeenInv, HeapInv, ChannelInv;
    assert Everything(s)[|s.taken|] == s.queue[0];
  }

  lemma WorkOfTake(s: State, w: nat)
    requires Inv(s) && Enabled(s, Take(w))
    ensures WorkInv(Do(s, Take(w)))
  {
    hide InProgress, Requests, HeapInv, ChannelInv, OrderInv, BusyInv;
    var req := s.queue[0];
    InProgressUpdate(s.workers, w, Busy(req));
    assert InProgress(s.workers[w := Busy(req)]) == InProgress(s.workers) + multiset{req};
    assert multiset(s.taken + [req]) == multiset(s.taken) + multiset{req};
    BusyOfTake(s, w);
  }

  lemma RequestsAppend(done: seq<Done>, d: Done)
    ensures Requests(done + [d]) == Requests(done) + multiset{d.req}
  {
    assert (done + [d])[..|done|] == done;
  }

  lemma CountOfFinish(s: State, w: nat, seen: ByteString)
    requires CountInv(s) && w < |s.workers| && s.workers[w].Busy?
    ensures InProgress(s.workers[w := Idle]) + Requests(s.processed + [Done(s.workers[w].req, seen)])
            == multiset(s.taken)
  {
    hide InProgress, Requests;
    var req := s.workers[w].req;
    InProgressUpdate(s.workers, w, Idle);
    RequestsAppend(s.processed, Done(req, seen));
    assert InProgress(s.workers) == InProgress(s.workers[w := Idle]) + multiset{req};
  }

  lemma WorkOfFinish(s: State, w: nat)
    requires Inv(s) && Enabled(s, Finish(w))
    ensures WorkInv(Do(s, Finish(w)))
  {
    hide InProgress, Requests, OrderInv, ChannelInv, SeenInv;
    CountOfFinish(s, w, s.heap[s.workers[w].req.data]);
    BusyAndSeenOfFinish(s, w);
  }

  lemma BusyAndSeenOfFinish(s: State, w: nat)
    requires Inv(s) && Enabled(s, Finish(w))
    ensures BusyInv(Do(s, Finish(w))) && SeenInv(Do(s, Finish(w)))
  {
    hide CountInv, OrderInv, ChannelInv;
    var req := s.workers[w].req;
    assert s.heap[req.data] == s.accepted[req.id][..NACK_SIZE];
  }

  lemma KeepsWork(s: State, step: Step)
    requires Inv(s) && Enabled(s, step)
    ensures WorkInv(Do(s, step))
  {
    hide InProgress, Requests, OrderInv, HeapInv, ChannelInv;
    match step
    case Take(w) => WorkOfTake(s, w);
    case Finish(w) => WorkOfFinish(s, w);
    case Leave(w) => LeaveKeepsLoad(s.workers, w);
    case _ =>
  }

  lemma LeaveKeepsLoad(workers: seq<Worker>, w: nat)
    requires w < |workers| && workers[w].Idle?
    ensures InProgress(workers[w := Exited]) == InProgress(workers)
  {
    hide InProgress;
    InProgressUpdate(workers, w, Exited);
    assert InProgress(workers[w := Exited]) + multiset{} == InProgress(workers[w := Exited]);
    assert InProgress(workers) + multiset{} == InProgress(workers);
  }

  lemma KeepsInv(s: State, step: Step)
    requires Inv(s) && Enabled(s, step)
    ensures Inv(Do(s, step))
  {
    hide ChannelInv, OrderInv, HeapInv, WorkInv;
    KeepsChannel(s, step);
    KeepsOrder(s, step);
    KeepsHeap(s, step);
    KeepsWork(s, step);
  }

  // ----- runs -----

  ghost predicate CanRun(s: State, steps: seq<Step>)
    requires Inv(s)
    decreases |steps|
  {
    steps == [] || (Enabled(s, steps[0]) && (KeepsInv(s, steps[0]); CanRun(Do(s, steps[0]), steps[1..])))
  }

  ghost function After(s: State, steps: seq<Step>): (s': State)
    requires Inv(s) && CanRun(s, steps)
    ensures Inv(s')
    decreases |steps|
  {
    if steps == [] then s else KeepsInv(s, steps[0]); After(Do(s, steps[0]), steps[1..])
  }

  lemma RunNothing(s: State)
    requires Inv(s)
    ensures CanRun(s, []) && After(s, []) == s
  {
    hide Inv;
  }

  lemma RunHead(s: State, steps: seq<Step>)
    requires Inv(s) && CanRun(s, steps) && steps != []
    ensures Enabled(s, steps[0]) && Inv(Do(s, steps[0])) && CanRun(Do(s, steps[0]), steps[1..])
    ensures After(s, steps) == After(Do(s, steps[0]), steps[1..])
  {
    hide Inv, Do, Enabled;
    KeepsInv(s, steps[0]);
  }

  lemma RunCons(s: State, step: Step, rest: seq<Step>)
    requires Inv(s) && Enabled(s, step) && Inv(Do(s, step)) && CanRun(Do(s, step), rest)
    ensures CanRun(s, [step] + rest) && After(s, [step] + rest) == After(Do(s, step), rest)
  {
    hide Inv, Do, Enabled;
    assert ([step] + rest)[1..] == rest;
  }

  lemma {:induction false} CountsOfSequences(done: seq<Done>)
    ensures |Requests(done)| == |done|
  {
    if done != [] { CountsOfSequences(done[..|done| - 1]); }
  }

  lemma OnePerIndex(all: seq<Request>, n: nat)
    requires n <= |all|
    requires forall i :: 0 <= i < |all| ==> all[i] == Request(i + 1, i)
    ensures forall r :: multiset(all[..n])[r] <= 1
  {
    if n > 0 {
      OnePerIndex(all, n - 1);
      assert all[..n] == all[..n - 1] + [all[n - 1]];
      assert all[n - 1] !in all[..n - 1];
    }
  }

  /** No datagram is being or has been processed more than once. */
  lemma AtMostOnce(s: State)
    requires Inv(s)
    ensures forall r :: Requests(s.processed)[r] + InProgress(s.workers)[r] <= 1
  {
    hide InProgress, Requests, ChannelInv, HeapInv;
    OnePerIndex(Everything(s), |s.taken|);
    assert Everything(s)[..|s.taken|] == s.taken;
    forall r ensures Requests(s.processed)[r] + InProgress(s.workers)[r] <= 1 {
      assert multiset(s.taken)[r] <= 1;
      assert (InProgress(s.workers) + Requests(s.processed))[r] <= 1;
    }
  }

  /** Everything accepted is waiting, held, in progress, processed or given up. */
  lemma Conservation(s: State)
    requires Inv(s)
    ensures |s.accepted| == |s.queue| + |Held(s)| + |InProgress(s.workers)| + |s.processed| + |s.abandoned|
  {
    hide InProgress, Requests, ChannelInv, HeapInv;
    CountsOfSequences(s.processed);
    assert |InProgress(s.workers) + Requests(s.processed)| == |s.taken|;
  }

  /**
   In every run from the start: the channel is closed at most once and never sent to afterwards, it
   never holds more than 100 requests, no datagram is processed twice, each is processed with
   exactly the first 64 bytes that were sent, requests leave the channel in arrival order, nothing
   accepted is lost track of, and a request is given up only after cancellation. What was accepted is
   every datagram read of 64 bytes or more, in order.
   */
  lemma PoolSafety(workers: nat, steps: seq<Step>)
    requires CanRun(Init(workers), steps)
    ensures var s := After(Init(workers), steps);
            && !s.panicked
            && |s.queue| <= 100
            && (forall r :: Requests(s.processed)[r] + InProgress(s.workers)[r] <= 1)
            && SeenInv(s)
            && (forall i :: 0 <= i < |s.taken| ==> s.taken[i].id == i)
            && |s.accepted| == |s.queue| + |Held(s)| + |InProgress(s.workers)| + |s.processed| + |s.abandoned|
            && (s.abandoned != [] ==> s.cancelled)
            && s.accepted == FullReads(steps)
  {
    hide InProgress, Requests, Init, After, CanRun, FullReads;
    var s := After(Init(workers), steps);
    AcceptedExactly(Init(workers), steps);
    AtMostOnce(s);
    Conservation(s);
    assert forall i :: 0 <= i < |s.taken| ==> Everything(s)[i] == s.taken[i];
  }

  // ----- what is accepted -----

  /** The datagrams of a run's reads that fill the buffer, in order; the reader drops the others. */
  function FullReads(steps: seq<Step>): (wires: seq<ByteString>)
  {
    if steps == [] then []
    else
      var rest := FullReads(steps[1..]);
      if steps[0].Read? && |steps[0].wire| >= 64 then [steps[0].wire] + rest else rest
  }

  /**
   A read of 64 bytes or more leaves the reader holding the next request, whose own buffer has the
   datagram's first 64 bytes. A shorter one changes nothing but the read buffer.
   */
  lemma ReadIsHeld(s: State, wire: ByteString)
    requires Inv(s) && s.reader.Reading?
    ensures var s' := Do(s, Read(wire));
            if |wire| >= 64 then
              && s'.reader.Sending? && s'.reader.req.id == |s.accepted| && s'.accepted == s.accepted + [wire]
              && 0 < s'.reader.req.data < |s'.heap| && s'.heap[s'.reader.req.data] == wire[..64]
              && s'.queue == s.queue && s'.taken == s.taken && s'.workers == s.workers && s'.processed == s.processed
            else s' == s.(heap := s.heap[0 := s'.heap[0]], reader := Top)
  {
    hide OrderInv, WorkInv;
    var got := Received(wire);
    assert |got| == NACK_SIZE ==> (got + s.heap[0][|got|..])[..|got|] == got;
  }

  lemma NoReads()
    ensures FullReads([]) == []
  {
  }

  lemma FullReadsHead(steps: seq<Step>)
    requires steps != []
    ensures FullReads(steps) == FullReads([steps[0]]) + FullReads(steps[1..])
  {
    assert [steps[0]][1..] == [];
  }

  lemma AcceptedStep(s: State, step: Step)
    requires Inv(s) && Enabled(s, step)
    ensures Do(s, step).accepted == s.accepted + FullReads([step])
  {
    hide OrderInv, WorkInv;
    assert [step][1..] == [];
    if step.Read? { ReadIsHeld(s, step.wire); }
  }

  /** In every run what was accepted is exactly the full-size datagrams read, in order. */
  lemma {:induction false} AcceptedExactly(s: State, steps: seq<Step>)
    requires Inv(s) && CanRun(s, steps)
    ensures After(s, steps).accepted == s.accepted + FullReads(steps)
    decreases |steps|
  {
    hide Inv, Do, Enabled, CanRun, After, FullReads;
    if steps == [] {
      RunNothing(s);
      assert FullReads([]) == [] by { NoReads(); }
    } else {
      RunHead(s, steps);
      FullReadsHead(steps);
      AcceptedStep(s, steps[0]);
      AcceptedExactly(Do(s, steps[0]), steps[1..]);
    }
  }

  // ----- before cancellation everything accepted can be processed -----

  function BusyCount(workers: seq<Worker>): (n: nat)
  {
    if workers == [] then 0
    else BusyCount(workers[..|workers| - 1]) + if workers[|workers| - 1].Busy? then 1 else 0
  }

  lemma {:induction false} BusyCountUpdate(workers: seq<Worker>, w: nat, x: Worker)
    requires w < |workers|
    ensures BusyCount(workers[w := x]) + (if workers[w].Busy? then 1 else 0)
            == BusyCount(workers) + if x.Busy? then 1 else 0
  {
    var n := |workers| - 1;
    if w == n {
      assert workers[w := x][..n] == workers[..n];
    } else {
      assert workers[w := x][..n] == workers[..n][w := x];
      BusyCountUpdate(workers[..n], w, x);
    }
  }

  /** How many steps are needed to process what is held, queued and in progress. */
  function Backlog(s: State): (n: nat)
  {
    3 * |Held(s)| + 2 * |s.queue| + BusyCount(s.workers)
  }

  /** Nothing is held, queued or in progress. */
  predicate Drained(s: State) {
    s.queue == [] && !s.reader.Sending? && forall w :: 0 <= w < |s.workers| ==> !s.workers[w].Busy?
  }

  /** Before cancellation no worker has gone, so while there is work some goroutine can do a part of it. */
  lemma WorkStep(s: State) returns (step: Step)
    requires Inv(s) && !s.cancelled && |s.workers| >= 1 && !Drained(s)
    ensures step.Finish? || step.Take? || step.Send?
    ensures Enabled(s, step) && Backlog(Do(s, step)) < Backlog(s)
    ensures !Do(s, step).cancelled && |Do(s, step).workers| == |s.workers| && Do(s, step).accepted == s.accepted
  {
    hide OrderInv, HeapInv, WorkInv, BusyCount;
    if w :| 0 <= w < |s.workers| && s.workers[w].Busy? {
      step := Finish(w);
      BusyCountUpdate(s.workers, w, Idle);
    } else if s.queue != [] {
      step := Take(0);
      BusyCountUpdate(s.workers, 0, Busy(s.queue[0]));
    } else {
      step := Send;
    }
  }

  ghost predicate Working(steps: seq<Step>) {
    forall i :: 0 <= i < |steps| ==> steps[i].Finish? || steps[i].Take? || steps[i].Send?
  }

  lemma {:induction false} Drain(s: State) returns (more: seq<Step>)
    requires Inv(s) && !s.cancelled && |s.workers| >= 1
    ensures Working(more) && CanRun(s, more) && Drained(After(s, more))
    ensures !After(s, more).cancelled && After(s, more).accepted == s.accepted
    ensures |After(s, more).workers| == |s.workers|
    decreases Backlog(s)
  {
    hide Inv, Do, Enabled, Drained, Backlog, CanRun, After;
    if Drained(s) {
      RunNothing(s);
      more := [];
    } else {
      var step := WorkStep(s);
      KeepsInv(s, step);
      var rest := Drain(Do(s, step));
      RunCons(s, step, rest);
      more := [step] + rest;
    }
  }

  /** Datagram i has been processed, with its first 64 bytes. */
  ghost predicate Served(s: State, i: nat) {
    && i < |s.accepted| && |s.accepted[i]| >= 64
    && exists j :: 0 <= j < |s.processed| && s.processed[j] == Done(Request(i + 1, i), s.accepted[i][..64])
  }

  lemma {:induction false} RequestIsDone(done: seq<Done>, r: Request)
    requires r in Requests(done)
    ensures exists j :: 0 <= j < |done| && done[j].req == r
  {
    var n := |done| - 1;
    if done[n].req != r {
      RequestIsDone(done[..n], r);
      var j :| 0 <= j < n && done[..n][j].req == r;
      assert done[j].req == r;
    }
  }

  lemma DrainedServes(s: State, i: nat)
    requires Inv(s) && !s.cancelled && Drained(s) && i < |s.accepted|
    ensures Served(s, i)
  {
    hide InProgress, Requests;
    NobodyBusy(s.workers);
    assert Everything(s) == s.taken;
    assert s.taken[i] == Request(i + 1, i) && s.taken[i] in multiset(s.taken);
    RequestIsDone(s.processed, s.taken[i]);
    var j :| 0 <= j < |s.processed| && s.processed[j].req == Request(i + 1, i);
    assert s.processed[j] == Done(Request(i + 1, i), s.accepted[i][..64]);
  }

  /**
   Before cancellation, in every reachable state of a pool with a worker, the run can go on, by sends,
   takes and finishes alone, until everything accepted has been processed.
   */
  lemma AcceptedCanBeServed(workers: nat, steps: seq<Step>) returns (more: seq<Step>)
    requires CanRun(Init(workers), steps) && workers >= 1 && !After(Init(workers), steps).cancelled
    ensures var s := After(Init(workers), steps);
            && Working(more) && CanRun(s, more) && After(s, more).accepted == s.accepted
            && forall i: nat :: i < |s.accepted| ==> Served(After(s, more), i)
  {
    hide Inv, Init, Drained;
    var s := After(Init(workers), steps);
    WorkersStay(Init(workers), steps);
    more := Drain(s);
    forall i: nat | i < |s.accepted| ensures Served(After(s, more), i) { DrainedServes(After(s, more), i); }
  }

  /** A worker is needed: without one nothing is ever processed. */
  lemma {:induction false} NoWorkersServeNothing(s: State, steps: seq<Step>)
    requires Inv(s) && |s.workers| == 0 && CanRun(s, steps)
    ensures After(s, steps).processed == s.processed
    decreases |steps|
  {
    hide Inv, Do, Enabled, CanRun, After;
    if steps == [] {
      RunNothing(s);
    } else {
      RunHead(s, steps);
      StepKeepsWorkers(s, steps[0]);
      NoWorkersServeNothing(Do(s, steps[0]), steps[1..]);
    }
  }

  lemma {:induction false} WorkersStay(s: State, steps: seq<Step>)
    requires Inv(s) && CanRun(s, steps)
    ensures |After(s, steps).workers| == |s.workers|
    decreases |steps|
  {
    hide Inv, Do, Enabled, CanRun, After;
    if steps == [] {
      RunNothing(s);
    } else {
      RunHead(s, steps);
      StepKeepsWorkers(s, steps[0]);
      WorkersStay(Do(s, steps[0]), steps[1..]);
    }
  }

  lemma StepKeepsWorkers(s: State, step: Step)
    requires Inv(s) && Enabled(s, step)
    ensures |Do(s, step).workers| == |s.workers|
    ensures |s.workers| == 0 ==> Do(s, step).processed == s.processed
  {
    hide Inv;
  }

  lemma {:induction false} AfterBoth(s: State, a: seq<Step>, b: seq<Step>)
    requires Inv(s) && CanRun(s, a) && CanRun(After(s, a), b)
    ensures CanRun(s, a + b) && After(s, a + b) == After(After(s, a), b)
    decreases |a|
  {
    hide Inv, Do, Enabled, CanRun, After;
    if a == [] {
      RunNothing(s);
      assert a + b == b;
    } else {
      RunHead(s, a);
      AfterBoth(Do(s, a[0]), a[1..], b);
      assert a + b == [a[0]] + (a[1..] + b);
      RunCons(s, a[0], a[1..] + b);
    }
  }

  lemma ReadNext(s: State, wire: ByteString) returns (more: seq<Step>)
    requires Inv(s) && !s.cancelled && Drained(s) && |wire| >= 64
    ensures CanRun(s, more) && After(s, more).accepted == s.accepted + [wire]
    ensures !After(s, more).cancelled && |After(s, more).workers| == |s.workers|
  {
    hide Inv, CanRun, After, Drained;
    var s1 := ReadyToRead(s);
    KeepsInv(s1, Read(wire));
    ReadIsHeld(s1, wire);
    RunNothing(Do(s1, Read(wire)));
    RunCons(s1, Read(wire), []);
    more := [Read(wire)] + [];
    if s.reader.Top? {
      RunCons(s, Poll, more);
      more := [Poll] + more;
    }
    WorkersStay(s, more);
  }

  /** A drained pool that is not cancelled is reading, or does so after one poll. */
  lemma ReadyToRead(s: State) returns (s1: State)
    requires Inv(s) && !s.cancelled && Drained(s)
    ensures Inv(s1) && s1 == s.(reader := Reading)
    ensures s.reader.Reading? || (s.reader.Top? && Enabled(s, Poll) && Do(s, Poll) == s1)
  {
    hide OrderInv, HeapInv, WorkInv;
    if s.reader.Top? { KeepsInv(s, Poll); }
    s1 := s.(reader := Reading);
  }

  /** And before cancellation such a pool can always take one datagram more of 64 bytes, and process it. */
  lemma NextCanBeServed(workers: nat, steps: seq<Step>, wire: ByteString) returns (more: seq<Step>)
    requires CanRun(Init(workers), steps) && workers >= 1 && !After(Init(workers), steps).cancelled && |wire| >= 64
    ensures var s := After(Init(workers), steps);
            && CanRun(s, more) && After(s, more).accepted == s.accepted + [wire]
            && Served(After(s, more), |s.accepted|)
  {
    hide Inv, Init, Drained, Do, Enabled;
    var s := After(Init(workers), steps);
    WorkersStay(Init(workers), steps);
    var a := Drain(s);
    var b := ReadNext(After(s, a), wire);
    AfterBoth(s, a, b);
    var d := Drain(After(s, a + b));
    AfterBoth(s, a + b, d);
    more := a + b + d;
    DrainedServes(After(s, more), |s.accepted|);
  }

  /** And the channel does hold that many: a run can queue any number up to 100. */
  lemma {:induction false} QueueCanFill(workers: nat, n: nat) returns (steps: seq<Step>)
    requires n <= 100
    ensures CanRun(Init(workers), steps)
    ensures var s := After(Init(workers), steps);
            |s.queue| == n && s.reader.Top? && !s.cancelled
  {
    hide Inv, Do, Enabled, CanRun, After;
    if n == 0 {
      RunNothing(Init(workers));
      steps := [];
    } else {
      var before := QueueCanFill(workers, n - 1);
      var more := QueueOne(After(Init(workers), before));
      AfterBoth(Init(workers), before, more);
      steps := before + more;
    }
  }

  lemma QueueOne(s: State) returns (more: seq<Step>)
    requires Inv(s) && s.reader.Top? && !s.cancelled && |s.queue| < 100
    ensures CanRun(s, more)
    ensures |After(s, more).queue| == |s.queue| + 1 && After(s, more).reader.Top? && !After(s, more).cancelled
  {
    hide Inv, CanRun, After;
    var wire: ByteString := seq(64, _ => 0);
    KeepsInv(s, Poll);
    var s1 := Do(s, Poll);
    KeepsInv(s1, Read(wire));
    ReadIsHeld(s1, wire);
    var s2 := Do(s1, Read(wire));
    assert !s2.cancelled;
    KeepsInv(s2, Send);
    var s3 := Do(s2, Send);
    RunNothing(s3);
    RunCons(s2, Send, []);
    RunCons(s1, Read(wire), [Send] + []);
    RunCons(s, Poll, [Read(wire)] + ([Send] + []));
    more := [Poll] + ([Read(wire)] + ([Send] + []));
  }

  // ----- shutdown -----

  function ReaderRank(r: Reader): (n: nat)
  {
    match r
    case Reading => 4
    case Sending(_) => 3
    case Top => 2
    case Waiting => 1
    case Returned => 0
  }

  function WorkLeft(workers: seq<Worker>): (n: nat)
    ensures n <= 2 * |workers|
  {
    if workers == [] then 0
    else
      var n := |workers| - 1;
      WorkLeft(workers[..n]) + match workers[n] { case Idle => 1 case Busy(_) => 2 case Exited => 0 }
  }

  /** How many steps are left at most once the context is cancelled. */
  function Measure(s: State): (n: nat)
  {
    3 * ReaderRank(s.reader) + 2 * |s.queue| + WorkLeft(s.workers)
  }

  lemma {:induction false} WorkLeftUpdate(workers: seq<Worker>, w: nat, x: Worker)
    requires w < |workers|
    ensures WorkLeft(workers[w := x]) + WorkLeft([workers[w]]) == WorkLeft(workers) + WorkLeft([x])
  {
    var n := |workers| - 1;
    assert [workers[w]][..0] == [] && [x][..0] == [];
    if w == n {
      assert workers[w := x][..n] == workers[..n];
    } else {
      assert workers[w := x][..n] == workers[..n][w := x];
      WorkLeftUpdate(workers[..n], w, x);
    }
  }

  lemma WorkOfOne(x: Worker)
    ensures WorkLeft([x]) == match x { case Idle => 1 case Busy(_) => 2 case Exited => 0 }
  {
    assert [x][..0] == [];
  }

  /** After cancellation every step brings the end nearer, and at most one more datagram is accepted. */
  lemma StepDecreases(s: State, step: Step)
    requires Inv(s) && s.cancelled && Enabled(s, step)
    ensures Do(s, step).cancelled
    ensures Measure(Do(s, step)) < Measure(s)
    ensures |Do(s, step).accepted| + (if Do(s, step).reader.Reading? then 1 else 0)
            <= |s.accepted| + (if s.reader.Reading? then 1 else 0)
  {
    hide WorkLeft, Everything, InProgress, Requests;
    match step
    case Take(w) =>
      WorkLeftUpdate(s.workers, w, Busy(s.queue[0]));
      WorkOfOne(Idle);
      WorkOfOne(Busy(s.queue[0]));
    case Leave(w) =>
      WorkLeftUpdate(s.workers, w, Exited);
      WorkOfOne(Idle);
      WorkOfOne(Exited);
    case Finish(w) =>
      WorkLeftUpdate(s.workers, w, Idle);
      WorkOfOne(s.workers[w]);
      WorkOfOne(Idle);
    case _ =>
  }

  /** After cancellation some goroutine can always move until Run has returned. */
  lemma CancelledMakesProgress(s: State)
    requires Inv(s) && s.cancelled && !s.reader.Returned?
    ensures exists step :: Enabled(s, step)
  {
    match s.reader
    case Top => assert Enabled(s, Poll);
    case Reading => assert Enabled(s, ReadTimeout);
    case Sending(_) => assert Enabled(s, GiveUp);
    case Waiting =>
      if AllExited(s) {
        assert Enabled(s, Return);
      } else {
        var w :| 0 <= w < |s.workers| && s.workers[w] != Exited;
        assert Enabled(s, if s.workers[w].Idle? then Leave(w) else Finish(w));
      }
  }

  /**
   Shutdown: from a cancelled state every run, however scheduled, is at most Measure steps long,
   accepts at most one more datagram, and can stop only with Run returned, every worker gone, and
   every accepted datagram processed, still in the closed channel, or given up.
   */
  lemma {:induction false} ShutdownTerminates(s: State, steps: seq<Step>)
    requires Inv(s) && s.cancelled && CanRun(s, steps)
    ensures |steps| <= Measure(s) <= 12 + 2 * CAPACITY + 2 * |s.workers|
    ensures |After(s, steps).accepted| <= |s.accepted| + 1
    ensures |After(s, steps).accepted| + (if After(s, steps).reader.Reading? then 1 else 0)
            <= |s.accepted| + (if s.reader.Reading? then 1 else 0)
    ensures After(s, steps).cancelled
    ensures (forall step :: !Enabled(After(s, steps), step)) ==>
              var end := After(s, steps);
              && end.reader.Returned? && AllExited(end)
              && |end.accepted| == |end.processed| + |end.queue| + |end.abandoned|
    decreases |steps|
  {
    if steps != [] {
      hide Measure;
      KeepsInv(s, steps[0]);
      StepDecreases(s, steps[0]);
      ShutdownTerminates(Do(s, steps[0]), steps[1..]);
    } else if !s.reader.Returned? {
      CancelledMakesProgress(s);
    } else {
      NobodyBusy(s.workers);
      CountsOfSequences(s.processed);
      assert |multiset(s.taken)| == |s.taken|;
    }
  }
}
