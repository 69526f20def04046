/**
 The poller's wake-up protocol on top of the two lock-free queues. Any number of producers
 enqueue, then compare-and-swap `toTrigger`, then write the wake descriptor. One consumer polls,
 handles a batch of events, and in a triggered callback drains the queues, stores 0 to
 `toTrigger`, re-checks IsEmpty, and may trigger itself again. Queue operations advance by their
 own atomic steps.
 */
module WakeUp {
  import opened LockFreeQueue
  import opened QueueLinearizability
  import opened QueueLength
  import Q = LockFreeQueue

  const MAX_TASKS := 256
  const CONSUMER: Tid := 0

  datatype Which = Prior | Normal

  datatype Producer = Resting | Putting(w: Which) | AtCas(w: Which) | AtTrigger(w: Which)

  /** A ready descriptor: the wake descriptor or any other. */
  datatype Ev = Wake | Other

  /** Where the consumer stands: in the wait, in the batch loop, or in a triggered round. */
  datatype Consumer =
    | Waiting(carry: bool)
    | InBatch(evs: seq<Ev>, i: nat, trigger: bool)
    | InCallback(evs: seq<Ev>, i: nat, passed: bool)
    | TakePrior
    | TakeNormal(n: nat)
    | Joining
    | Clearing
    | CheckNormal
    | CheckPrior
    | Rearming
    | Retrigger
    | Finishing(again: bool)
    | Stopped

  /** `sub` tells a sub reactor, whose callback reads the wake descriptor a second time. */
  datatype Poller = Poller(sub: bool, prior: Config, normal: Config, toTrigger: bool, wake: bool,
                           producers: map<Tid, Producer>, consumer: Consumer, ran: seq<(Which, Task)>)

  /** How a callback ends: no error, an error that is only logged, or one that ends the loop. */
  datatype Ending = Fine | Logged | Fatal

  datatype Move =
    | Submit(p: Tid, w: Which, task: Task)
    | Produce(p: Tid)
    | Poll(evs: seq<Ev>)
    | Consume(ending: Ending)

  function Start(sub: bool): Poller {
    Poller(sub, InitConfig, InitConfig, false, false, map[], Waiting(false), [])
  }

  function QueueOf(s: Poller, w: Which): Config {
    if w == Prior then s.prior else s.normal
  }

  function WithQueue(s: Poller, w: Which, q: Config): Poller {
    if w == Prior then s.(prior := q) else s.(normal := q)
  }

  function ProducerOf(s: Poller, p: Tid): Producer {
    if p in s.producers then s.producers[p] else Resting
  }

  function Become(s: Poller, p: Tid, x: Producer): Poller {
    s.(producers := s.producers[p := x])
  }

  /** One step of AddTask or AddPriorTask. */
  function StepProducer(s: Poller, p: Tid): Poller {
    match ProducerOf(s, p)
    case Resting => s
    case Putting(w) =>
      var q := Q.Apply(QueueOf(s, w), Run(p));
      Become(WithQueue(s, w, q), p, if PcOf(q.s, p) == Idle then AtCas(w) else Putting(w))
    case AtCas(w) => if s.toTrigger then Become(s, p, Resting) else Become(s.(toTrigger := true), p, AtTrigger(w))
    case AtTrigger(w) => Become(s.(wake := true), p, Resting)
  }

  /** What Dequeue returns when its next step leaves it. */
  function Returned(pc: Pc): Task {
    if pc.DeqCount? then pc.task else NIL_TASK
  }

  /** The consumer's Dequeue on the queue by one step, or its call. */
  function NextDequeue(q: Config): Config {
    if PcOf(q.s, CONSUMER) == Idle then Q.Apply(q, CallDeq(CONSUMER)) else Q.Apply(q, Run(CONSUMER))
  }

  /** The consumer once its Dequeue, at `pc` before, stands at pc'; `none` is where a nil answer leads. */
  function AfterAnswer(c: Consumer, pc: Pc, pc': Pc, none: Consumer, next: Consumer): Consumer {
    if pc == Idle || pc' != Idle then c else if Returned(pc) == NIL_TASK then none else next
  }

  function Dispatched(w: Which, pc: Pc, pc': Pc): seq<(Which, Task)> {
    if pc == Idle || pc' != Idle || Returned(pc) == NIL_TASK then [] else [(w, Returned(pc))]
  }

  function AfterDequeue(s: Poller, w: Which, q': Config, none: Consumer, next: Consumer): Poller {
    var pc, pc' := PcOf(QueueOf(s, w).s, CONSUMER), PcOf(q'.s, CONSUMER);
    WithQueue(s, w, q').(consumer := AfterAnswer(s.consumer, pc, pc', none, next),
                         ran := s.ran + Dispatched(w, pc, pc'))
  }

  function StepConsumer(s: Poller, ending: Ending): Poller {
    match s.consumer
    case Waiting(_) => s
    case InBatch(evs, i, trigger) =>
      if |evs| <= i then s.(consumer := Waiting(trigger)) else
      var trigger' := trigger || evs[i] == Wake;
      s.(wake := s.wake && evs[i] != Wake, consumer := InCallback(evs, i, i == |evs| - 1 && trigger'))
    case InCallback(evs, i, passed) =>
      var s' := s.(wake := s.wake && !(s.sub && i < |evs| && evs[i] == Wake));
      if passed then s'.(consumer := TakePrior)
      else if ending == Fatal then s'.(consumer := Stopped)
      else if i + 1 < |evs| then s'.(consumer := InBatch(evs, i + 1, false))
      else s'.(consumer := Waiting(false))
    case TakePrior => AfterDequeue(s, Prior, NextDequeue(s.prior), TakeNormal(0), TakePrior)
    case TakeNormal(n) =>
      if n < MAX_TASKS then AfterDequeue(s, Normal, NextDequeue(s.normal), Joining, TakeNormal(n + 1))
      else s.(consumer := Joining)
    case Joining => s.(consumer := if ending == Fatal then Stopped else Clearing)
    case Clearing => s.(toTrigger := false, consumer := CheckNormal)
    case CheckNormal => s.(consumer := if IsEmpty(s.normal.s) then CheckPrior else Rearming)
    case CheckPrior => s.(consumer := if IsEmpty(s.prior.s) then Finishing(false) else Rearming)
    case Rearming =>
      if s.toTrigger then s.(consumer := Finishing(false)) else s.(toTrigger := true, consumer := Retrigger)
    case Retrigger => s.(wake := true, consumer := Finishing(true))
    case Finishing(again) => s.(consumer := if ending == Fatal then Stopped else Waiting(again && ending == Fine))
    case Stopped => s
  }

  /** A wake event is reported at most once in a batch, and only if the descriptor is readable. */
  predicate Reportable(evs: seq<Ev>, wake: bool) {
    && evs != []
    && (forall i, j :: 0 <= i < j < |evs| ==> !(evs[i] == Wake && evs[j] == Wake))
    && (Wake in evs ==> wake)
  }

  function Do(s: Poller, m: Move): Poller {
    match m
    case Submit(p, w, task) =>
      if p != CONSUMER && ProducerOf(s, p) == Resting && PcOf(QueueOf(s, w).s, p) == Idle then
        Become(WithQueue(s, w, Q.Apply(QueueOf(s, w), CallEnq(p, task))), p, Putting(w))
      else s
    case Produce(p) => StepProducer(s, p)
    case Poll(evs) =>
      if s.consumer.Waiting? && Reportable(evs, s.wake) then s.(consumer := InBatch(evs, 0, s.consumer.carry)) else s
    case Consume(ending) => StepConsumer(s, ending)
  }

  function DoAll(s: Poller, run: seq<Move>): Poller {
    if run == [] then s else Do(DoAll(s, run[..|run| - 1]), run[|run| - 1])
  }

  // ---------------------------------------------------------------- properties of a state

  /** The producer has linked its task and has not yet tried `toTrigger`. */
  ghost predicate Pending(s: Poller, p: Tid, w: Which) {
    ProducerOf(s, p) == AtCas(w) || (ProducerOf(s, p) == Putting(w) && p in Uncounted(QueueOf(s, w).s))
  }

  ghost predicate SomePending(s: Poller, w: Which) {
    exists p :: Pending(s, p, w)
  }

  ghost predicate SomeTriggering(s: Poller) {
    exists p :: ProducerOf(s, p).AtTrigger?
  }

  predicate OutsideRound(c: Consumer) {
    c.Waiting? || c.InBatch? || (c.InCallback? && !c.passed)
  }

  /** The consumer is on its way to a round, or in one before it stores 0, or about to trigger itself. */
  predicate Committed(c: Consumer) {
    (c.InCallback? && c.passed) || c.TakePrior? || c.TakeNormal? || c.Joining? || c.Clearing? || c.Retrigger?
        || c.Stopped?
  }

  ghost predicate Token(s: Poller) {
    s.wake || SomeTriggering(s) || Committed(s.consumer)
  }

  /** The wake-up is gone: `toTrigger` keeps every producer from triggering, and nobody will wake the consumer. */
  ghost predicate Lost(s: Poller) {
    && s.toTrigger && !s.wake && !SomeTriggering(s)
    && match s.consumer
       case Waiting(carry) => !carry
       case InBatch(evs, i, trigger) => !trigger && Wake !in evs[if i < |evs| then i else |evs|..]
       case InCallback(evs, i, passed) => !passed && Wake !in evs[if i < |evs| then i + 1 else |evs|..]
       case _ => false
  }

  ghost predicate QueueOk(q: Config) {
    Shape(q) && LengthOk(q)
  }

  // ---------------------------------------------------------------- queue steps, seen from the poller

  lemma KindStays(s: State, a: Aux, t: Tid)
    requires ChainOk(s, a) && PcOk(s, a, PcOf(s, t)) && PcOf(s, t) != Idle
    ensures PcOf(Step(s, t), t) != Idle ==> Dequeuing(PcOf(Step(s, t), t)) == Dequeuing(PcOf(s, t))
    ensures forall u :: u != t ==> PcOf(Step(s, t), u) == PcOf(s, u)
  {
    if PcOf(s, t).EnqLoadNext? || PcOf(s, t).EnqLink? {
      LastHasNilNext(s, a, s.pcs[t].tail);
    }
  }

  /** What a queue action of thread t leaves for the others. */
  ghost predicate OnlyMoves(q: Config, q': Config, t: Tid) {
    && (forall u :: u != t ==> PcOf(q'.s, u) == PcOf(q.s, u))
    && (forall u :: u != t ==> (u in Uncounted(q'.s) <==> u in Uncounted(q.s)))
  }

  /** A task is linked after Head. */
  predicate HasTask(q: State) {
    q.head < |q.nodes| && q.nodes[q.head].next.To?
  }

  lemma HasTaskIsNonempty(c: Config)
    requires ChainOk(c.s, c.a)
    ensures HasTask(c.s) <==> Size(c) > 0
  {
    LastHasNilNext(c.s, c.a, c.s.head);
  }

  ghost predicate ProducerStep(q: Config, q': Config, p: Tid) {
    && OnlyMoves(q, q', p) && !Dequeuing(PcOf(q'.s, p))
    && (HasTask(q'.s) && !HasTask(q.s) ==> p in Uncounted(q'.s))
    && (p in Uncounted(q.s) ==> p in Uncounted(q'.s) || PcOf(q'.s, p) == Idle)
    && (Size(q') == Size(q) || p in Uncounted(q'.s))
  }

  lemma ApplyQueueOk(q: Config, act: Action)
    requires QueueOk(q)
    ensures QueueOk(Q.Apply(q, act))
  {
    ApplyLength(q, act);
    if act.Run? {
      RunShape(q, act.t);
    } else {
      CallShape(q, act);
    }
  }

  lemma ProducerMoves(q: Config, p: Tid)
    requires QueueOk(q) && PcOf(q.s, p) != Idle && !Dequeuing(PcOf(q.s, p))
    ensures ProducerStep(q, Q.Apply(q, Run(p)), p)
  {
    assert PcOk(q.s, q.a, PcOf(q.s, p));
    KindStays(q.s, q.a, p);
    StepCounts(q.s, q.a, p);
    RunSize(q, p);
    if !EffectOf(q.s, p).Links? {
      StepFrame(q.s, p);
    }
  }

  lemma ProducerCalls(q: Config, p: Tid, task: Task)
    requires q.s.head < |q.s.nodes|
    requires PcOf(q.s, p) == Idle
    ensures ProducerStep(q, Q.Apply(q, CallEnq(p, task)), p)
    ensures PcOf(Q.Apply(q, CallEnq(p, task)).s, p) != Idle
  {
    CallCounts(q.s, q.a, CallEnq(p, task));
  }

  ghost predicate ConsumerStep(q: Config, q': Config) {
    && OnlyMoves(q, q', CONSUMER) && Uncounted(q'.s) == Uncounted(q.s)
    && (PcOf(q'.s, CONSUMER) == Idle || Dequeuing(PcOf(q'.s, CONSUMER)))
    && (HasTask(q'.s) ==> HasTask(q.s))
  }

  lemma ConsumerMoves(q: Config)
    requires QueueOk(q) && Dequeuing(PcOf(q.s, CONSUMER))
    ensures ConsumerStep(q, Q.Apply(q, Run(CONSUMER)))
  {
    assert PcOk(q.s, q.a, PcOf(q.s, CONSUMER));
    KindStays(q.s, q.a, CONSUMER);
    StepCounts(q.s, q.a, CONSUMER);
    if EffectOf(q.s, CONSUMER).Takes? {
      LastHasNilNext(q.s, q.a, q.s.head);
    }
  }

  lemma ConsumerCalls(q: Config)
    requires PcOf(q.s, CONSUMER) == Idle
    ensures ConsumerStep(q, Q.Apply(q, CallDeq(CONSUMER)))
  {
    CallCounts(q.s, q.a, CallDeq(CONSUMER));
  }

  // ---------------------------------------------------------------- invariant

  predicate Taking(c: Consumer, w: Which) {
    if w == Prior then c.TakePrior? else c.TakeNormal? && c.n < MAX_TASKS
  }

  /** Producers are inside the queue they put to, the consumer inside the queue it takes from. */
  ghost predicate RolesOk(s: Poller, w: Which) {
    var q := QueueOf(s, w).s;
    && (forall t :: t != CONSUMER ==>
          (PcOf(q, t) != Idle <==> ProducerOf(s, t) == Putting(w)) && !Dequeuing(PcOf(q, t)))
    && (PcOf(q, CONSUMER) == Idle || (Dequeuing(PcOf(q, CONSUMER)) && Taking(s.consumer, w)))
  }

  predicate OneWake(evs: seq<Ev>) {
    forall i, j :: 0 <= i < j < |evs| ==> !(evs[i] == Wake && evs[j] == Wake)
  }

  ghost predicate BatchOk(s: Poller) {
    match s.consumer
    case InBatch(evs, i, _) => i < |evs| && OneWake(evs) && (Wake in evs[i..] ==> s.wake)
    case InCallback(evs, i, passed) =>
      && i < |evs| && OneWake(evs) && (Wake in evs[i + 1..] ==> s.wake)
      && (passed ==> i == |evs| - 1) && (evs[i] == Wake && i == |evs| - 1 ==> passed)
    case _ => true
  }

  /** Who is where. */
  ghost predicate Roles(s: Poller) {
    RolesOk(s, Prior) && RolesOk(s, Normal) && ProducerOf(s, CONSUMER) == Resting
  }

  /** While `toTrigger` is set, a wake-up is on its way or was lost. */
  ghost predicate Wakes(s: Poller) {
    BatchOk(s) && (s.toTrigger ==> Token(s) || Lost(s))
  }

  ghost predicate QueuesOk(s: Poller) {
    QueueOk(s.prior) && QueueOk(s.normal)
  }

  predicate WrapsToZero(n: int) {
    n % 0x1_0000_0000 == 0
  }

  /** The check of the normal queue was answered truthfully, unless its size wraps to zero or an enqueuer
   has still to try `toTrigger`. */
  ghost predicate NormalChecked(s: Poller) {
    s.consumer.CheckPrior? && !s.toTrigger && !SomePending(s, Normal) ==> WrapsToZero(Size(s.normal))
  }

  ghost predicate Protocol(s: Poller) {
    Roles(s) && Wakes(s) && NormalChecked(s)
  }

  /** Something is queued. */
  predicate Queued(s: Poller) {
    HasTask(s.prior.s) || HasTask(s.normal.s)
  }

  /** The consumer stored 0 and has still to look at a queue, or saw something queued. */
  predicate StillChecks(c: Consumer) {
    c.CheckNormal? || c.CheckPrior? || c.Rearming?
  }

  /** What is queued while `toTrigger` is clear is on somebody's mind: the consumer has still to check, or an
   enqueuer of either queue has still to try `toTrigger`. */
  ghost predicate Watched(s: Poller) {
    !s.toTrigger && Queued(s) && !StillChecks(s.consumer) ==> SomePending(s, Prior) || SomePending(s, Normal)
  }

  /** The last check is about to miss what is queued: both sizes wrap to zero, and nobody is left to trigger. */
  ghost predicate Misses(s: Poller) {
    && s.consumer.CheckPrior? && !s.toTrigger && !SomePending(s, Prior) && !SomePending(s, Normal)
    && WrapsToZero(Size(s.prior)) && WrapsToZero(Size(s.normal)) && Size(s.prior) + Size(s.normal) > 0
  }

  /** From s on to s' the protocol is kept, and what is queued stays watched. */
  ghost predicate Keeps(s: Poller, s': Poller) {
    Protocol(s') && (Watched(s) ==> Watched(s'))
  }

  // ---------------------------------------------------------------- producers keep it

  lemma RolesAfterPut(s: Poller, w: Which, p: Tid, q': Config, x: Producer, v: Which)
    requires RolesOk(s, v) && p != CONSUMER && (ProducerOf(s, p) == Resting || ProducerOf(s, p) == Putting(w))
    requires OnlyMoves(QueueOf(s, w), q', p) && !Dequeuing(PcOf(q'.s, p))
    requires x == if PcOf(q'.s, p) == Idle then AtCas(w) else Putting(w)
    ensures RolesOk(Become(WithQueue(s, w, q'), p, x), v)
  {
    var s' := Become(WithQueue(s, w, q'), p, x);
    assert forall t :: t != p ==> ProducerOf(s', t) == ProducerOf(s, t);
    assert ProducerOf(s', p) == x;
  }

  lemma PendingAfterPut(s: Poller, w: Which, p: Tid, q': Config, x: Producer, v: Which)
    requires ProducerOf(s, p) == Resting || ProducerOf(s, p) == Putting(w)
    requires ProducerStep(QueueOf(s, w), q', p)
    requires x == if PcOf(q'.s, p) == Idle then AtCas(w) else Putting(w)
    ensures var s' := Become(WithQueue(s, w, q'), p, x);
      && (SomePending(s, v) ==> SomePending(s', v))
      && (HasTask(QueueOf(s', v).s) ==> HasTask(QueueOf(s, v).s) || SomePending(s', v))
      && (Size(QueueOf(s', v)) == Size(QueueOf(s, v)) || SomePending(s', v))
  {
    var s' := Become(WithQueue(s, w, q'), p, x);
    if SomePending(s, v) {
      var r :| Pending(s, r, v);
      assert Pending(s', r, v);
    } else if v == w && p in Uncounted(q'.s) {
      assert Pending(s', p, v);
    }
  }

  lemma TokenAfterPut(s: Poller, w: Which, p: Tid, q': Config, x: Producer)
    requires ProducerOf(s, p) == Resting || ProducerOf(s, p) == Putting(w)
    requires x == AtCas(w) || x == Putting(w)
    ensures Token(Become(WithQueue(s, w, q'), p, x)) == Token(s) && Lost(Become(WithQueue(s, w, q'), p, x)) == Lost(s)
  {
    var s' := Become(WithQueue(s, w, q'), p, x);
    forall t
      ensures ProducerOf(s', t).AtTrigger? == ProducerOf(s, t).AtTrigger?
    {
    }
  }

  lemma PutKeeps(s: Poller, w: Which, p: Tid, q': Config, x: Producer)
    requires Protocol(s) && p != CONSUMER && (ProducerOf(s, p) == Resting || ProducerOf(s, p) == Putting(w))
    requires ProducerStep(QueueOf(s, w), q', p)
    requires x == if PcOf(q'.s, p) == Idle then AtCas(w) else Putting(w)
    ensures Keeps(s, Become(WithQueue(s, w, q'), p, x))
  {
    RolesAfterPut(s, w, p, q', x, Prior);
    RolesAfterPut(s, w, p, q', x, Normal);
    PendingAfterPut(s, w, p, q', x, Prior);
    PendingAfterPut(s, w, p, q', x, Normal);
    TokenAfterPut(s, w, p, q', x);
  }

  /** A producer outside the queues moves to another point outside them. */
  lemma RolesAfterCas(s: Poller, s': Poller, p: Tid, v: Which)
    requires RolesOk(s, v) && !ProducerOf(s, p).Putting?
    requires p in s'.producers && s'.producers == s.producers[p := s'.producers[p]] && !s'.producers[p].Putting?
    requires s'.prior == s.prior && s'.normal == s.normal && s'.consumer == s.consumer
    ensures RolesOk(s', v)
  {
    forall t
      ensures ProducerOf(s', t) == Putting(v) <==> ProducerOf(s, t) == Putting(v)
    {
    }
  }

  lemma CasWakes(s: Poller, p: Tid)
    requires Wakes(s) && ProducerOf(s, p).AtCas?
    ensures Wakes(StepProducer(s, p))
  {
    var s' := StepProducer(s, p);
    if s.toTrigger {
      forall t
        ensures ProducerOf(s', t).AtTrigger? == ProducerOf(s, t).AtTrigger?
      {
      }
      assert SomeTriggering(s') == SomeTriggering(s) by {
        if SomeTriggering(s) {
          var t :| ProducerOf(s, t).AtTrigger?;
          assert ProducerOf(s', t).AtTrigger?;
        }
      }
    } else {
      assert ProducerOf(s', p).AtTrigger?;
    }
  }

  lemma CasKeeps(s: Poller, p: Tid)
    requires Protocol(s) && p != CONSUMER && ProducerOf(s, p).AtCas?
    ensures Keeps(s, StepProducer(s, p))
  {
    var s' := StepProducer(s, p);
    RolesAfterCas(s, s', p, Prior);
    RolesAfterCas(s, s', p, Normal);
    CasWakes(s, p);
  }

  lemma TriggerKeeps(s: Poller, p: Tid)
    requires Protocol(s) && p != CONSUMER && ProducerOf(s, p).AtTrigger?
    ensures Keeps(s, StepProducer(s, p))
  {
    var s' := StepProducer(s, p);
    RolesAfterCas(s, s', p, Prior);
    RolesAfterCas(s, s', p, Normal);
    forall r, w | Pending(s, r, w)
      ensures Pending(s', r, w)
    {
    }
    assert SomePending(s, Normal) ==> SomePending(s', Normal);
    assert SomePending(s, Prior) ==> SomePending(s', Prior);
  }

  // ---------------------------------------------------------------- the consumer keeps it

  lemma DequeueRoles(s: Poller, w: Which, q': Config, s': Poller, v: Which)
    requires RolesOk(s, v) && Taking(s.consumer, w) && ConsumerStep(QueueOf(s, w), q')
    requires s' == WithQueue(s, w, q').(consumer := s'.consumer, ran := s'.ran)
    requires PcOf(q'.s, CONSUMER) != Idle ==> Taking(s'.consumer, w)
    ensures RolesOk(s', v)
  {
    forall t
      ensures ProducerOf(s', t) == ProducerOf(s, t)
    {
    }
  }

  lemma DequeuePending(s: Poller, w: Which, q': Config, s': Poller, v: Which)
    requires ConsumerStep(QueueOf(s, w), q')
    requires s' == WithQueue(s, w, q').(consumer := s'.consumer, ran := s'.ran)
    ensures SomePending(s, v) ==> SomePending(s', v)
    ensures HasTask(QueueOf(s', v).s) ==> HasTask(QueueOf(s, v).s)
  {
    if SomePending(s, v) {
      var r :| Pending(s, r, v);
      assert Pending(s', r, v);
    }
  }

  lemma DequeueKeeps(s: Poller, w: Which, q': Config, s': Poller)
    requires Protocol(s) && Taking(s.consumer, w) && ConsumerStep(QueueOf(s, w), q')
    requires s' == WithQueue(s, w, q').(consumer := s'.consumer, ran := s'.ran)
    requires s'.consumer.TakePrior? || s'.consumer.TakeNormal? || s'.consumer.Joining?
    requires PcOf(q'.s, CONSUMER) != Idle ==> Taking(s'.consumer, w)
    ensures Keeps(s, s')
  {
    DequeueRoles(s, w, q', s', Prior);
    DequeueRoles(s, w, q', s', Normal);
    DequeuePending(s, w, q', s', Prior);
    DequeuePending(s, w, q', s', Normal);
  }

  /** The consumer moves on without touching the queues. */
  lemma LocalRoles(s: Poller, s': Poller, v: Which)
    requires RolesOk(s, v) && s'.producers == s.producers && s'.prior == s.prior && s'.normal == s.normal
    requires PcOf(QueueOf(s, v).s, CONSUMER) == Idle || Taking(s'.consumer, v)
    ensures RolesOk(s', v)
    ensures SomePending(s', v) <==> SomePending(s, v)
  {
    forall t
      ensures ProducerOf(s', t) == ProducerOf(s, t) && (Pending(s', t, v) <==> Pending(s, t, v))
    {
    }
  }

  lemma LocalTriggering(s: Poller, s': Poller)
    requires s'.producers == s.producers
    ensures SomeTriggering(s') == SomeTriggering(s)
  {
    assert forall t :: ProducerOf(s', t) == ProducerOf(s, t);
  }

  ghost predicate DequeueSound(q: Config) {
    PcOf(q.s, CONSUMER) == Idle || Dequeuing(PcOf(q.s, CONSUMER)) ==> ConsumerStep(q, NextDequeue(q))
  }

  lemma DequeueIsSound(q: Config)
    requires QueueOk(q)
    ensures DequeueSound(q)
  {
    if PcOf(q.s, CONSUMER) == Idle {
      ConsumerCalls(q);
    } else if Dequeuing(PcOf(q.s, CONSUMER)) {
      ConsumerMoves(q);
    }
  }

  lemma AfterDequeueKeeps(s: Poller, w: Which, q': Config, none: Consumer, next: Consumer)
    requires ConsumerStep(QueueOf(s, w), q') && Protocol(s) && Taking(s.consumer, w)
    requires (none.TakeNormal? || none.Joining?) && (next.TakePrior? || next.TakeNormal?)
    ensures Keeps(s, AfterDequeue(s, w, q', none, next))
  {
    DequeueKeeps(s, w, q', AfterDequeue(s, w, q', none, next));
  }

  /** The consumer moves outside the queues and away from the last check, and does not stop watching. */
  predicate Local(s: Poller, s': Poller) {
    && s'.producers == s.producers && s'.prior == s.prior && s'.normal == s.normal && !s'.consumer.CheckPrior?
    && (s'.toTrigger || StillChecks(s'.consumer) || (!s.toTrigger && !StillChecks(s.consumer)))
  }

  lemma LocalKeeps(s: Poller, s': Poller)
    requires Protocol(s) && Wakes(s') && !Taking(s.consumer, Prior) && !Taking(s.consumer, Normal) && Local(s, s')
    ensures Keeps(s, s')
  {
    LocalRoles(s, s', Prior);
    LocalRoles(s, s', Normal);
  }

  lemma BatchCallWakes(s: Poller, s': Poller, ending: Ending)
    requires Wakes(s) && s.consumer.InBatch? && s' == StepConsumer(s, ending)
    requires SomeTriggering(s') == SomeTriggering(s)
    ensures Wakes(s')
  {
    var evs, i := s.consumer.evs, s.consumer.i;
    assert evs[i..] == [evs[i]] + evs[i + 1..];
    assert evs[i] == Wake ==> Wake !in evs[i + 1..];
  }

  lemma BatchReturnWakes(s: Poller, s': Poller, ending: Ending)
    requires Wakes(s) && s.consumer.InCallback? && s' == StepConsumer(s, ending)
    requires SomeTriggering(s') == SomeTriggering(s)
    ensures Wakes(s')
  {
    var evs, i := s.consumer.evs, s.consumer.i;
    assert evs[i] == Wake ==> Wake !in evs[i + 1..];
  }

  lemma BatchWakes(s: Poller, s': Poller, ending: Ending)
    requires Wakes(s) && (s.consumer.InBatch? || s.consumer.InCallback?) && s' == StepConsumer(s, ending)
    ensures Wakes(s')
  {
    LocalTriggering(s, s');
    if s.consumer.InBatch? {
      BatchCallWakes(s, s', ending);
    } else {
      BatchReturnWakes(s, s', ending);
    }
  }

  lemma StillTaking(s: Poller, w: Which, q': Config, none: Consumer, next: Consumer)
    requires s.consumer.TakePrior? || s.consumer.TakeNormal?
    requires (none.TakeNormal? || none.Joining?) && (next.TakePrior? || next.TakeNormal?)
    ensures Wakes(AfterDequeue(s, w, q', none, next))
  {
    assert Committed(AfterDequeue(s, w, q', none, next).consumer);
  }

  /** A Dequeue leaves the consumer on its round, whatever the queue answers. */
  lemma TakingWakes(s: Poller, ending: Ending)
    requires s.consumer.TakePrior? || s.consumer.TakeNormal?
    ensures Wakes(StepConsumer(s, ending))
  {
    if s.consumer.TakePrior? {
      StillTaking(s, Prior, NextDequeue(s.prior), TakeNormal(0), TakePrior);
    } else {
      StillTaking(s, Normal, NextDequeue(s.normal), Joining, TakeNormal(s.consumer.n + 1));
    }
  }

  /** Past its Dequeues the consumer keeps the wake-up in hand as long as `toTrigger` is set. */
  predicate InHand(s: Poller, s': Poller) {
    && !s.consumer.Waiting? && !s'.consumer.InBatch? && !s'.consumer.InCallback?
    && (s'.toTrigger && !Committed(s'.consumer) && !s'.wake ==> s.toTrigger && !Committed(s.consumer) && !s.wake)
  }

  lemma RoundInHand(s: Poller, s': Poller, ending: Ending)
    requires !s.consumer.InBatch? && !s.consumer.InCallback? && !s.consumer.TakePrior? && !s.consumer.TakeNormal?
    requires s' == StepConsumer(s, ending)
    ensures s'.producers == s.producers && (s' == s || InHand(s, s'))
  {
  }

  lemma RoundWakes(s: Poller, s': Poller)
    requires Wakes(s) && s'.producers == s.producers && InHand(s, s')
    requires !s.consumer.InBatch? && !s.consumer.InCallback?
    ensures Wakes(s')
  {
    LocalTriggering(s, s');
  }

  lemma ConsumeWakes(s: Poller, s': Poller, ending: Ending)
    requires Wakes(s) && s' == StepConsumer(s, ending)
    ensures Wakes(s')
  {
    if s.consumer.InBatch? || s.consumer.InCallback? {
      BatchWakes(s, s', ending);
    } else if s.consumer.TakePrior? || s.consumer.TakeNormal? {
      TakingWakes(s, ending);
    } else {
      RoundInHand(s, s', ending);
      if s' != s {
        RoundWakes(s, s');
      }
    }
  }

  /** The consumer is about to ask whether this queue is empty. */
  predicate Checking(c: Consumer, w: Which) {
    if w == Normal then c.CheckNormal? else c.CheckPrior?
  }

  lemma NobodyUncounted(s: Poller, w: Which)
    requires QueueOk(QueueOf(s, w)) && RolesOk(s, w) && !Taking(s.consumer, w) && !SomePending(s, w)
    ensures QueueOf(s, w).s.length == Wrap32(Size(QueueOf(s, w)))
  {
    var q := QueueOf(s, w);
    assert forall t :: t in Overcounted(q.s) ==> Dequeuing(PcOf(q.s, t));
    assert Overcounted(q.s) == {};
    if p :| p in Uncounted(q.s) {
      assert PcOf(q.s, p) != Idle;
      assert Pending(s, p, w);
    }
    assert Uncounted(q.s) == {};
  }

  /** What IsEmpty answers while no enqueuer has still to try `toTrigger`. So an answer `empty` about a queue
   with something in it means that one has, or that the size is a multiple of 2^32. */
  lemma EmptyAnswerLeavesPending(s: Poller, w: Which)
    requires QueueOk(QueueOf(s, w)) && RolesOk(s, w) && Checking(s.consumer, w)
    ensures HasTask(QueueOf(s, w).s) <==> Size(QueueOf(s, w)) > 0
    ensures !SomePending(s, w) ==> (IsEmpty(QueueOf(s, w).s) <==> WrapsToZero(Size(QueueOf(s, w))))
  {
    HasTaskIsNonempty(QueueOf(s, w));
    if !SomePending(s, w) {
      NobodyUncounted(s, w);
      ZeroModulo(Size(QueueOf(s, w)));
    }
  }

  /** What a check does. */
  lemma CheckStep(s: Poller, ending: Ending, w: Which)
    requires Checking(s.consumer, w)
    ensures StepConsumer(s, ending) ==
              s.(consumer := if !IsEmpty(QueueOf(s, w).s) then Rearming
                             else if w == Normal then CheckPrior else Finishing(false))
  {
  }

  lemma CheckNormalKeeps(s: Poller, s': Poller, ending: Ending)
    requires QueuesOk(s) && Protocol(s) && s.consumer.CheckNormal? && s' == StepConsumer(s, ending)
    ensures Keeps(s, s')
  {
    CheckStep(s, ending, Normal);
    ConsumeWakes(s, s', ending);
    LocalRoles(s, s', Prior);
    LocalRoles(s, s', Normal);
    EmptyAnswerLeavesPending(s, Normal);
  }

  lemma SomethingQueued(s: Poller)
    requires QueuesOk(s)
    ensures Queued(s) <==> Size(s.prior) + Size(s.normal) > 0
  {
    HasTaskIsNonempty(s.prior);
    HasTaskIsNonempty(s.normal);
  }

  /** The last check, which alone can leave something unwatched. */
  lemma CheckPriorKeeps(s: Poller, s': Poller, ending: Ending)
    requires QueuesOk(s) && Protocol(s) && s.consumer.CheckPrior? && s' == StepConsumer(s, ending)
    ensures Protocol(s') && (Watched(s') <==> !Misses(s))
  {
    CheckStep(s, ending, Prior);
    ConsumeWakes(s, s', ending);
    LocalRoles(s, s', Prior);
    LocalRoles(s, s', Normal);
    EmptyAnswerLeavesPending(s, Prior);
    SomethingQueued(s);
  }

  lemma StepIsLocal(s: Poller, s': Poller, ending: Ending)
    requires !Taking(s.consumer, Prior) && !Taking(s.consumer, Normal)
    requires !s.consumer.CheckNormal? && !s.consumer.CheckPrior? && s' == StepConsumer(s, ending)
    ensures Local(s, s')
  {
  }

  /** Everything the consumer does outside the queues, but the checks. */
  lemma LocalStepKeeps(s: Poller, s': Poller, ending: Ending)
    requires Protocol(s) && !Taking(s.consumer, Prior) && !Taking(s.consumer, Normal)
    requires !s.consumer.CheckNormal? && !s.consumer.CheckPrior? && s' == StepConsumer(s, ending)
    ensures Keeps(s, s')
  {
    ConsumeWakes(s, s', ending);
    StepIsLocal(s, s', ending);
    LocalKeeps(s, s');
  }

  lemma TakePriorKeeps(s: Poller, ending: Ending)
    requires Protocol(s) && s.consumer.TakePrior? && DequeueSound(s.prior)
    ensures Keeps(s, StepConsumer(s, ending))
  {
    AfterDequeueKeeps(s, Prior, NextDequeue(s.prior), TakeNormal(0), TakePrior);
  }

  lemma TakeNormalKeeps(s: Poller, ending: Ending)
    requires Protocol(s) && Taking(s.consumer, Normal) && DequeueSound(s.normal)
    ensures Keeps(s, StepConsumer(s, ending))
  {
    AfterDequeueKeeps(s, Normal, NextDequeue(s.normal), Joining, TakeNormal(s.consumer.n + 1));
  }
}
