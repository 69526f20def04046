/**
 The last check does miss what is queued: a multiple of 2^32 tasks that are added while the consumer is between
 its last Dequeue and its IsEmpty checks are left behind, with nobody on the way to wake it. The run is built move
 by move.
 */
module WakeUpWrap {
  import opened LockFreeQueue
  import opened QueueLinearizability
  import opened QueueLength
  import opened WakeUp
  import opened WakeUpTheorems
  import Q = LockFreeQueue

  // ---------------------------------------------------------------- the consumer alone

  /** k moves of the consumer. */
  function Consumed(s: Poller, k: nat): Poller {
    if k == 0 then s else StepConsumer(Consumed(s, k - 1), Fine)
  }

  function Consumes(k: nat): seq<Move> {
    if k == 0 then [] else Consumes(k - 1) + [Consume(Fine)]
  }

  lemma NoMore(run: seq<Move>, more: seq<Move>)
    requires more == []
    ensures run + more == run
  {
  }

  lemma Regroup(run: seq<Move>, more: seq<Move>, m: Move)
    ensures run + (more + [m]) == run + more + [m]
  {
  }

  lemma {:induction false} DoConsumes(s: Poller, run: seq<Move>, k: nat)
    ensures DoAll(s, run + Consumes(k)) == Consumed(DoAll(s, run), k)
  {
    if k == 0 {
      NoMore(run, Consumes(k));
    } else {
      DoConsumes(s, run, k - 1);
      Regroup(run, Consumes(k - 1), Consume(Fine));
      DoAllSnoc(s, run + Consumes(k - 1), Consume(Fine));
    }
  }

  function DequeueStep(q: State): State {
    if PcOf(q, CONSUMER) == Idle then Goto(q, CONSUMER, DeqLoadHead) else Step(q, CONSUMER)
  }

  /** Everything but the consumer and one queue stays. */
  predicate Else(s: Poller, s': Poller, w: Which) {
    && s'.sub == s.sub && s'.toTrigger == s.toTrigger && s'.wake == s.wake && s'.producers == s.producers
    && (if w == Prior then s'.normal == s.normal else s'.prior == s.prior)
  }

  function WhenEmpty(w: Which): Consumer {
    if w == Prior then TakeNormal(0) else Joining
  }

  function WhenTaken(c: Consumer): Consumer
    requires c.TakePrior? || c.TakeNormal?
  {
    if c.TakePrior? then TakePrior else TakeNormal(c.n + 1)
  }

  lemma TakingStep(s: Poller, w: Which, q: State, q': State)
    requires Taking(s.consumer, w) && q == QueueOf(s, w).s && q' == DequeueStep(q)
    ensures var s' := StepConsumer(s, Fine);
      && Else(s, s', w) && QueueOf(s', w).s == q'
      && s'.consumer == AfterAnswer(s.consumer, PcOf(q, CONSUMER), PcOf(q', CONSUMER), WhenEmpty(w),
          WhenTaken(s.consumer))
  {
  }

  /** The queue as the consumer sees it. */
  predicate Looks(q: State, nodes: seq<Node>, head: Ptr, tail: Ptr, length: int, pc: Pc) {
    q.nodes == nodes && q.head == head && q.tail == tail && q.length == length && PcOf(q, CONSUMER) == pc
  }

  function EmptyPc(h: Ptr, k: nat): Pc {
    if k == 0 then Idle else if k == 1 then DeqLoadHead else if k == 2 then DeqLoadTail(h)
    else if k == 3 then DeqLoadNext(h, h) else if k == 4 then DeqCheckHead(h, h, Nil) else Idle
  }

  lemma EmptyStep(q: State, nodes: seq<Node>, h: Ptr, length: int, k: nat)
    requires k < 5 && h < |nodes| && nodes[h].next == Nil && Looks(q, nodes, h, h, length, EmptyPc(h, k))
    ensures Looks(DequeueStep(q), nodes, h, h, length, EmptyPc(h, k + 1))
  {
  }

  predicate InTakeNothing(s: Poller, s': Poller, w: Which, nodes: seq<Node>, h: Ptr, length: int, k: nat) {
    && Else(s, s', w) && Looks(QueueOf(s', w).s, nodes, h, h, length, EmptyPc(h, k))
    && s'.consumer == if k == 5 then WhenEmpty(w) else s.consumer
  }

  lemma TakesNothingNext(s: Poller, p: Poller, w: Which, nodes: seq<Node>, h: Ptr, length: int, k: nat)
    requires k < 5 && Taking(s.consumer, w) && h < |nodes| && nodes[h].next == Nil
    requires InTakeNothing(s, p, w, nodes, h, length, k)
    ensures InTakeNothing(s, StepConsumer(p, Fine), w, nodes, h, length, k + 1)
  {
    var q := QueueOf(p, w).s;
    EmptyStep(q, nodes, h, length, k);
    TakingStep(p, w, q, DequeueStep(q));
  }

  /** A Dequeue that finds nothing takes five moves. */
  lemma {:induction false} TakesNothing(s: Poller, w: Which, nodes: seq<Node>, h: Ptr, length: int, k: nat)
    requires k <= 5 && Taking(s.consumer, w) && h < |nodes| && nodes[h].next == Nil
    requires Looks(QueueOf(s, w).s, nodes, h, h, length, Idle)
    ensures InTakeNothing(s, Consumed(s, k), w, nodes, h, length, k)
  {
    if k > 0 {
      TakesNothing(s, w, nodes, h, length, k - 1);
      TakesNothingNext(s, Consumed(s, k - 1), w, nodes, h, length, k - 1);
    }
  }

  function OnePc(task: Task, k: nat): Pc {
    if k == 0 then Idle else if k == 1 then DeqLoadHead else if k == 2 then DeqLoadTail(0)
    else if k == 3 then DeqLoadNext(0, 1) else if k == 4 then DeqCheckHead(0, 1, To(1))
    else if k == 5 then DeqReadValue(0, To(1)) else if k == 6 then DeqTake(0, 1, task)
    else if k == 7 then DeqCount(task) else Idle
  }

  function OneNodes(task: Task): seq<Node> {
    [Node(NIL_TASK, To(1)), Node(task, Nil)]
  }

  lemma OneStep(q: State, task: Task, k: nat)
    requires k < 8 && Looks(q, OneNodes(task), if k < 7 then 0 else 1, 1, 1, OnePc(task, k))
    ensures Looks(DequeueStep(q), OneNodes(task), if k + 1 < 7 then 0 else 1, 1,
                  if k + 1 < 8 then 1 else 0, OnePc(task, k + 1))
  {
  }

  predicate InTakeOne(s: Poller, s': Poller, task: Task, k: nat)
    requires s.consumer.TakeNormal?
  {
    && Else(s, s', Normal)
    && Looks(s'.normal.s, OneNodes(task), if k < 7 then 0 else 1, 1, if k < 8 then 1 else 0, OnePc(task, k))
    && s'.consumer == if k == 8 then TakeNormal(s.consumer.n + 1) else s.consumer
  }

  lemma TakesOneNext(s: Poller, p: Poller, task: Task, k: nat)
    requires k < 8 && Taking(s.consumer, Normal) && task != NIL_TASK && InTakeOne(s, p, task, k)
    ensures InTakeOne(s, StepConsumer(p, Fine), task, k + 1)
  {
    OneStep(p.normal.s, task, k);
    TakingStep(p, Normal, p.normal.s, DequeueStep(p.normal.s));
  }

  /** A Dequeue that takes the only task takes eight. */
  lemma {:induction false} TakesOne(s: Poller, task: Task, k: nat)
    requires k <= 8 && Taking(s.consumer, Normal) && task != NIL_TASK
    requires Looks(s.normal.s, OneNodes(task), 0, 1, 1, Idle)
    ensures InTakeOne(s, Consumed(s, k), task, k)
  {
    if k > 0 {
      TakesOne(s, task, k - 1);
      TakesOneNext(s, Consumed(s, k - 1), task, k - 1);
    }
  }

  predicate Quiet(s: Poller, toTrigger: bool) {
    !s.wake && s.toTrigger == toTrigger && s.producers == map[1 := Resting]
  }

  lemma TakesAtEnd(s: Poller, w: Which, nodes: seq<Node>, h: Ptr, length: int, s': Poller, k: nat)
    requires Taking(s.consumer, w) && h < |nodes| && nodes[h].next == Nil && k == 5 && s' == Consumed(s, k)
    requires Looks(QueueOf(s, w).s, nodes, h, h, length, Idle)
    ensures Else(s, s', w) && Looks(QueueOf(s', w).s, nodes, h, h, length, Idle) && s'.consumer == WhenEmpty(w)
  {
    TakesNothing(s, w, nodes, h, length, k);
  }

  lemma TakesTheOne(s: Poller, task: Task, s': Poller, k: nat)
    requires s.consumer == TakeNormal(0) && task != NIL_TASK && k == 8 && s' == Consumed(s, k)
    requires Looks(s.normal.s, OneNodes(task), 0, 1, 1, Idle)
    ensures Else(s, s', Normal) && Looks(s'.normal.s, OneNodes(task), 1, 1, 0, Idle) && s'.consumer == TakeNormal(1)
  {
    TakesOne(s, task, k);
  }

  /** A whole round's worth of Dequeues: nothing prior, the one task, and nothing more. */
  lemma Drains(s: Poller, task: Task, j: nat, k: nat, s1: Poller, s2: Poller, s3: Poller)
    requires s.consumer == TakePrior && task != NIL_TASK && Quiet(s, true)
    requires Looks(s.prior.s, [Node(NIL_TASK, Nil)], 0, 0, 0, Idle) && Looks(s.normal.s, OneNodes(task), 0, 1, 1, Idle)
    requires j == 5 && k == 8 && s1 == Consumed(s, j) && s2 == Consumed(s1, k) && s3 == Consumed(s2, j)
    ensures s3.consumer == Joining && Quiet(s3, true) && s3.prior.s.length == 0
    ensures Looks(s3.normal.s, OneNodes(task), 1, 1, 0, Idle)
  {
    TakesAtEnd(s, Prior, [Node(NIL_TASK, Nil)], 0, 0, s1, j);
    TakesTheOne(s1, task, s2, k);
    TakesAtEnd(s2, Normal, OneNodes(task), 1, 0, s3, j);
  }

  // ---------------------------------------------------------------- a producer alone

  function Produced(s: Poller, k: nat): Poller {
    if k == 0 then s else StepProducer(Produced(s, k - 1), 1)
  }

  function Produces(k: nat): seq<Move> {
    if k == 0 then [] else Produces(k - 1) + [Produce(1)]
  }

  lemma {:induction false} DoProduces(s: Poller, run: seq<Move>, k: nat)
    ensures DoAll(s, run + Produces(k)) == Produced(DoAll(s, run), k)
  {
    if k == 0 {
      NoMore(run, Produces(k));
    } else {
      DoProduces(s, run, k - 1);
      Regroup(run, Produces(k - 1), Produce(1));
      DoAllSnoc(s, run + Produces(k - 1), Produce(1));
    }
  }

  /** The queue in the k-th step of an Enqueue that nobody disturbs: `q` is the queue with the new node n. */
  predicate Enqueuing(q: State, q': State, n: Ptr, t: Ptr, k: nat)
    requires t < |q.nodes|
  {
    && q'.head == q.head
    && q'.nodes == (if k < 4 then q.nodes else q.nodes[t := Node(q.nodes[t].value, To(n))])
    && q'.tail == (if k < 5 then t else n)
    && q'.length == (if k < 6 then q.length else Wrap32(q.length + 1))
    && PcOf(q', 1) == EnqueuePc(n, t, k)
  }

  function EnqueuePc(n: Ptr, t: Ptr, k: nat): Pc {
    if k == 0 then EnqLoadTail(n) else if k == 1 then EnqLoadNext(n, t) else if k == 2 then EnqCheckTail(n, t, Nil)
    else if k == 3 then EnqLink(n, t) else if k == 4 then EnqSwing(n, t) else if k == 5 then EnqCount(n) else Idle
  }

  lemma EnqueueStep(q: State, q': State, n: Ptr, t: Ptr, k: nat)
    requires k < 6 && t < |q.nodes| && q.nodes[t].next == Nil && q.tail == t && Enqueuing(q, q', n, t, k)
    ensures Enqueuing(q, Step(q', 1), n, t, k + 1)
  {
  }

  lemma PuttingStep(s: Poller, q': State)
    requires ProducerOf(s, 1) == Putting(Normal) && q' == Step(s.normal.s, 1)
    ensures var s' := StepProducer(s, 1);
      && s'.normal.s == q' && s'.prior == s.prior && s'.consumer == s.consumer && s'.wake == s.wake
      && s'.toTrigger == s.toTrigger && s'.sub == s.sub
      && s'.producers == s.producers[1 := if PcOf(q', 1) == Idle then AtCas(Normal) else Putting(Normal)]
  {
  }

  predicate SameElse(s: Poller, s': Poller) {
    && s'.prior == s.prior && s'.consumer == s.consumer && s'.wake == s.wake && s'.toTrigger == s.toTrigger
        && s'.sub == s.sub
  }

  predicate InEnqueue(s: Poller, s': Poller, n: Ptr, t: Ptr, k: nat)
    requires t < |s.normal.s.nodes|
  {
    && SameElse(s, s') && Enqueuing(s.normal.s, s'.normal.s, n, t, k)
    && s'.producers == map[1 := if k == 6 then AtCas(Normal) else Putting(Normal)]
  }

  lemma EnqueuesNext(s: Poller, p: Poller, n: Ptr, t: Ptr, k: nat)
    requires k < 6 && t < |s.normal.s.nodes| && s.normal.s.nodes[t].next == Nil && s.normal.s.tail == t
    requires InEnqueue(s, p, n, t, k)
    ensures InEnqueue(s, StepProducer(p, 1), n, t, k + 1)
  {
    EnqueueStep(s.normal.s, p.normal.s, n, t, k);
    PuttingStep(p, Step(p.normal.s, 1));
    assert p.producers[1 := AtCas(Normal)] == map[1 := AtCas(Normal)];
    assert p.producers[1 := Putting(Normal)] == map[1 := Putting(Normal)];
  }

  lemma {:induction false} Enqueues(s: Poller, n: Ptr, t: Ptr, k: nat)
    requires k <= 6 && t < |s.normal.s.nodes| && s.normal.s.nodes[t].next == Nil && s.normal.s.tail == t
    requires PcOf(s.normal.s, 1) == EnqLoadTail(n) && s.producers == map[1 := Putting(Normal)]
    ensures InEnqueue(s, Produced(s, k), n, t, k)
  {
    if k > 0 {
      Enqueues(s, n, t, k - 1);
      EnqueuesNext(s, Produced(s, k - 1), n, t, k - 1);
    }
  }

  /** A queue with nobody inside, whose tail is the last node. */
  predicate AtRest(q: State) {
    q.head < |q.nodes| && q.tail < |q.nodes| && q.nodes[q.tail].next == Nil && PcOf(q, 1) == Idle
    && (q.head == q.tail || HasTask(q))
  }

  lemma Submits(s: Poller, task: Task)
    requires Quiet(s, true) && AtRest(s.normal.s)
    ensures var s', q := Do(s, Submit(1, Normal, task)), s.normal.s;
      && SameElse(s, s') && s'.producers == map[1 := Putting(Normal)]
      && s'.normal.s.nodes == q.nodes + [Node(task, Nil)] && s'.normal.s.head == q.head && s'.normal.s.tail == q.tail
      && s'.normal.s.length == q.length && PcOf(s'.normal.s, 1) == EnqLoadTail(|q.nodes|)
  {
    assert s.producers[1 := Putting(Normal)] == map[1 := Putting(Normal)];
  }

  lemma FindsItSet(s: Poller)
    requires s.toTrigger && !s.wake && s.producers == map[1 := AtCas(Normal)]
    ensures StepProducer(s, 1) == s.(producers := map[1 := Resting])
  {
    assert s.producers[1 := Resting] == map[1 := Resting];
  }

  lemma EnqueuedRests(q: State, q1: State, task: Task, q': State)
    requires AtRest(q) && q1.nodes == q.nodes + [Node(task, Nil)] && q1.head == q.head && q1.tail == q.tail
    requires q1.length == q.length
    requires Enqueuing(q1, q', |q.nodes|, q.tail, 6)
    ensures AtRest(q') && HasTask(q') && q'.length == Wrap32(q.length + 1)
  {
  }

  lemma AddsOneFrom(s: Poller, task: Task, s1: Poller, s2: Poller, s': Poller)
    requires Quiet(s, true) && AtRest(s.normal.s) && s1 == Do(s, Submit(1, Normal, task)) && s' == StepProducer(s2, 1)
    requires s.normal.s.tail < |s1.normal.s.nodes| && InEnqueue(s1, s2, |s.normal.s.nodes|, s.normal.s.tail, 6)
    ensures SameElse(s, s') && Quiet(s', true) && AtRest(s'.normal.s) && HasTask(s'.normal.s)
    ensures s'.normal.s.length == Wrap32(s.normal.s.length + 1)
  {
    Submits(s, task);
    FindsItSet(s2);
    EnqueuedRests(s.normal.s, s1.normal.s, task, s2.normal.s);
  }

  /** One AddTask while `toTrigger` is set. */
  lemma AddsOne(s: Poller, task: Task, k: nat, s': Poller)
    requires Quiet(s, true) && AtRest(s.normal.s) && k == 6 && s' == Produced(Do(s, Submit(1, Normal, task)), k + 1)
    ensures SameElse(s, s') && Quiet(s', true) && AtRest(s'.normal.s) && HasTask(s'.normal.s)
    ensures s'.normal.s.length == Wrap32(s.normal.s.length + 1)
  {
    Submits(s, task);
    var s1 := Do(s, Submit(1, Normal, task));
    Enqueues(s1, |s.normal.s.nodes|, s.normal.s.tail, k);
    AddsOneFrom(s, task, s1, Produced(s1, k), s');
  }

  /** k times AddTask, each of j + 2 moves. */
  function Adds(task: Task, j: nat, k: nat): seq<Move> {
    if k == 0 then [] else Adds(task, j, k - 1) + [Submit(1, Normal, task)] + Produces(j + 1)
  }

  lemma RegroupAdd(run: seq<Move>, adds: seq<Move>, m: Move, more: seq<Move>)
    ensures run + (adds + [m] + more) == run + adds + [m] + more
  {
  }

  lemma DoAdd(s: Poller, run: seq<Move>, adds: seq<Move>, task: Task, j: nat)
    ensures DoAll(s, run + (adds + [Submit(1, Normal, task)] + Produces(j))) ==
              Produced(Do(DoAll(s, run + adds), Submit(1, Normal, task)), j)
  {
    RegroupAdd(run, adds, Submit(1, Normal, task), Produces(j));
    DoProduces(s, run + adds + [Submit(1, Normal, task)], j);
    DoAllSnoc(s, run + adds, Submit(1, Normal, task));
  }

  ghost predicate Added(s: Poller, s': Poller, k: nat) {
    && SameElse(s, s') && Quiet(s', true) && AtRest(s'.normal.s) && (k > 0 ==> HasTask(s'.normal.s))
    && s'.normal.s.length == Wrap32(k)
  }

  lemma AddedMore(s: Poller, s1: Poller, s': Poller, k: nat)
    requires Added(s, s1, k) && SameElse(s1, s') && Quiet(s', true) && AtRest(s'.normal.s) && HasTask(s'.normal.s)
    requires s'.normal.s.length == Wrap32(s1.normal.s.length + 1)
    ensures Added(s, s', k + 1)
  {
    WrapAdds(k, 1);
  }

  ghost predicate AddedAll(s: Poller, run: seq<Move>, task: Task, j: nat, k: nat) {
    Added(DoAll(s, run), DoAll(s, run + Adds(task, j, k)), k)
  }

  lemma AddsNone(s: Poller, run: seq<Move>, more: seq<Move>, s0: Poller)
    requires s0 == DoAll(s, run) && Quiet(s0, true) && AtRest(s0.normal.s) && s0.normal.s.length == 0 && more == []
    ensures Added(s0, DoAll(s, run + more), 0)
  {
    NoMore(run, more);
  }

  lemma AddsNext(s: Poller, run: seq<Move>, task: Task, j: nat, k: nat, more: seq<Move>)
    requires AddedAll(s, run, task, j, k) && j == 6
    requires more == Adds(task, j, k) + [Submit(1, Normal, task)] + Produces(j + 1)
    ensures Added(DoAll(s, run), DoAll(s, run + more), k + 1)
  {
    var s1 := DoAll(s, run + Adds(task, j, k));
    DoAdd(s, run, Adds(task, j, k), task, j + 1);
    AddsOne(s1, task, j, DoAll(s, run + more));
    AddedMore(DoAll(s, run), s1, DoAll(s, run + more), k);
  }

  ghost predicate CanAdd(s: Poller, run: seq<Move>) {
    Quiet(DoAll(s, run), true) && AtRest(DoAll(s, run).normal.s) && DoAll(s, run).normal.s.length == 0
  }

  lemma AddsZero(s: Poller, run: seq<Move>, task: Task, j: nat)
    requires CanAdd(s, run)
    ensures AddedAll(s, run, task, j, 0)
  {
    AddsNone(s, run, Adds(task, j, 0), DoAll(s, run));
  }

  lemma AddsMore(s: Poller, run: seq<Move>, task: Task, j: nat, k: nat, k': nat)
    requires AddedAll(s, run, task, j, k) && j == 6 && k' == k + 1
    ensures AddedAll(s, run, task, j, k')
  {
    AddsNext(s, run, task, j, k, Adds(task, j, k'));
  }

  lemma AddsMany(s: Poller, run: seq<Move>, task: Task, j: nat, many: nat)
    requires CanAdd(s, run) && j == 6
    ensures AddedAll(s, run, task, j, many)
  {
    var k := 0;
    AddsZero(s, run, task, j);
    while k < many
      invariant k <= many && AddedAll(s, run, task, j, k)
    {
      AddsMore(s, run, task, j, k, k + 1);
      k := k + 1;
    }
  }

  // ---------------------------------------------------------------- the run

  /** Outside a round, with something queued, the wake-up neither on its way nor lost: nobody is left to care. */
  ghost predicate Asleep(s: Poller) {
    OutsideRound(s.consumer) && Queued(s) && !Rescued(s) && !Lost(s)
  }

  lemma IntoCallback(s: Poller)
    requires s.sub && s.wake && s.consumer == Waiting(false)
    ensures var s1 := StepConsumer(StepConsumer(Do(s, Poll([Wake])), Fine), Fine);
      s1 == s.(wake := false, consumer := TakePrior)
  {
    assert Wake in [Wake];
    var s1 := Do(s, Poll([Wake]));
    assert s1 == s.(consumer := InBatch([Wake], 0, false));
    var s2 := StepConsumer(s1, Fine);
    assert s2 == s.(wake := false, consumer := InCallback([Wake], 0, true));
  }

  lemma OutOfRound(s: Poller, s': Poller)
    requires s.consumer == Joining && Quiet(s, true) && s.prior.s.length == 0 && s.normal.s.length == 0
    requires HasTask(s.normal.s)
    requires s' == s.(toTrigger := false, consumer := Waiting(false))
    ensures Asleep(s')
  {
    assert forall p :: ProducerOf(s', p) == Resting;
  }

  lemma RoundEnds(s: Poller)
    requires s.consumer == Joining && s.prior.s.length == 0 && s.normal.s.length == 0
    ensures var s2 := StepConsumer(StepConsumer(s, Fine), Fine);
      StepConsumer(StepConsumer(StepConsumer(s2, Fine), Fine), Fine) == s.(toTrigger := false,
          consumer := Waiting(false))
  {
    var s1 := StepConsumer(s, Fine);
    assert s1 == s.(consumer := Clearing);
    var s2 := StepConsumer(s1, Fine);
    assert s2 == s.(toTrigger := false, consumer := CheckNormal);
    var s3 := StepConsumer(s2, Fine);
    assert s3 == s.(toTrigger := false, consumer := CheckPrior);
    var s4 := StepConsumer(s3, Fine);
    assert s4 == s.(toTrigger := false, consumer := Finishing(false));
  }

  lemma TwoMoves(s: Poller, run: seq<Move>, m: Move, m': Move)
    ensures DoAll(s, run + [m] + [m']) == Do(Do(DoAll(s, run), m), m')
  {
    DoAllSnoc(s, run, m);
    DoAllSnoc(s, run + [m], m');
  }

  /** A wake-up for one task, up to the round it triggers. */
  lemma Awakes(task: Task) returns (awake: seq<Move>)
    ensures var s := DoAll(Start(true), awake);
      s.consumer == TakePrior && Quiet(s, true) && s.prior.s == Init && s.normal.s == LoneState(task, 6)
  {
    var added := LoneAddTask(task);
    IntoCallback(DoAll(Start(true), added));
    DoAllSnoc(Start(true), added, Poll([Wake]));
    TwoMoves(Start(true), added + [Poll([Wake])], Consume(Fine), Consume(Fine));
    awake := added + [Poll([Wake])] + [Consume(Fine)] + [Consume(Fine)];
  }

  /** And on to where the consumer has drained it and joins. */
  lemma Joins(task: Task, j: nat, k: nat) returns (run: seq<Move>)
    requires task != NIL_TASK && j == 5 && k == 8
    ensures var s := DoAll(Start(true), run);
      && s.consumer == Joining && Quiet(s, true) && s.prior.s.length == 0
      && Looks(s.normal.s, OneNodes(task), 1, 1, 0, Idle) && PcOf(s.normal.s, 1) == Idle
  {
    var awake := Awakes(task);
    var first, second := awake + Consumes(j), awake + Consumes(j) + Consumes(k);
    run := second + Consumes(j);
    DoConsumes(Start(true), awake, j);
    DoConsumes(Start(true), first, k);
    DoConsumes(Start(true), second, j);
    var s1, s2, s3 := DoAll(Start(true), awake), DoAll(Start(true), first), DoAll(Start(true), second);
    Drains(s1, task, j, k, s2, s3, DoAll(Start(true), run));
    OthersStay(s1, j);
    OthersStay(s2, k);
    OthersStay(s3, j);
  }

  /** The consumer's moves leave the producer where it is. */
  lemma {:induction false} OthersStay(s: Poller, k: nat)
    ensures PcOf(Consumed(s, k).normal.s, 1) == PcOf(s.normal.s, 1)
  {
    if k > 0 {
      OthersStay(s, k - 1);
      OtherStays(Consumed(s, k - 1));
    }
  }

  lemma OtherStays(s: Poller)
    ensures PcOf(StepConsumer(s, Fine).normal.s, 1) == PcOf(s.normal.s, 1)
  {
    if s.consumer.TakeNormal? && s.consumer.n < MAX_TASKS {
      StepKeepsOthers(s.normal.s, CONSUMER, 1);
    }
    ConsumerNormal(s, Fine);
  }

  /** One task is added and the consumer wakes for it; while it joins, a multiple of 2^32 more are added. Their
   enqueuers find `toTrigger` set, and IsEmpty finds Length zero: the consumer goes back to wait, and nobody
   will wake it. */
  lemma WrapIsMissed(task: Task, many: nat) returns (run: seq<Move>)
    requires task != NIL_TASK && many > 0 && many % 0x1_0000_0000 == 0
    ensures Asleep(DoAll(Start(true), run))
  {
    var joined := Joins(task, 5, 8);
    AddsMany(Start(true), joined, task, 6, many);
    var full := joined + Adds(task, 6, many);
    var s := DoAll(Start(true), full);
    ZeroModulo(many);
    RoundEnds(s);
    OutOfRound(s, s.(toTrigger := false, consumer := Waiting(false)));
    TwoMoves(Start(true), full, Consume(Fine), Consume(Fine));
    var two := full + [Consume(Fine)] + [Consume(Fine)];
    TwoMoves(Start(true), two, Consume(Fine), Consume(Fine));
    var four := two + [Consume(Fine)] + [Consume(Fine)];
    DoAllSnoc(Start(true), four, Consume(Fine));
    run := four + [Consume(Fine)];
  }
}
