/**
 What the wake-up protocol guarantees over every run, and the two ways it fails, each with its exact
 condition: a wake event that is not the last of its batch is read and then dropped, and the last IsEmpty
 check meets sizes that wrap to zero.
 */
module WakeUpTheorems {
  import opened LockFreeQueue
  import opened QueueLinearizability
  import opened QueueLength
  import opened WakeUp

  lemma NextDequeueOk(q: Config)
    requires QueueOk(q)
    ensures QueueOk(NextDequeue(q))
  {
    ApplyQueueOk(q, if PcOf(q.s, CONSUMER) == Idle then CallDeq(CONSUMER) else Run(CONSUMER));
  }

  /** Which queue configurations a consumer step can leave. */
  lemma ConsumerPrior(s: Poller, ending: Ending)
    ensures StepConsumer(s, ending).prior == if s.consumer.TakePrior? then NextDequeue(s.prior) else s.prior
  {
  }

  lemma ConsumerNormal(s: Poller, ending: Ending)
    ensures StepConsumer(s, ending).normal ==
              if s.consumer.TakeNormal? && s.consumer.n < MAX_TASKS then NextDequeue(s.normal) else s.normal
  {
  }

  lemma SubmitQueues(s: Poller, p: Tid, w: Which, task: Task)
    requires QueuesOk(s)
    ensures QueuesOk(Do(s, Submit(p, w, task)))
  {
    ApplyQueueOk(QueueOf(s, w), CallEnq(p, task));
  }

  lemma ProduceQueues(s: Poller, p: Tid)
    requires QueuesOk(s)
    ensures QueuesOk(StepProducer(s, p))
  {
    if ProducerOf(s, p).Putting? {
      ApplyQueueOk(QueueOf(s, ProducerOf(s, p).w), Run(p));
    }
  }

  lemma ConsumeQueues(s: Poller, ending: Ending)
    requires QueuesOk(s)
    ensures QueuesOk(StepConsumer(s, ending))
  {
    ConsumerPrior(s, ending);
    ConsumerNormal(s, ending);
    NextDequeueOk(s.prior);
    NextDequeueOk(s.normal);
  }

  lemma DoQueues(s: Poller, m: Move)
    requires QueuesOk(s)
    ensures QueuesOk(Do(s, m))
  {
    match m {
      case Submit(p, w, task) => SubmitQueues(s, p, w, task);
      case Produce(p) => ProduceQueues(s, p);
      case Poll(_) =>
      case Consume(ending) => ConsumeQueues(s, ending);
    }
  }

  lemma SubmitKeeps(s: Poller, p: Tid, w: Which, task: Task)
    requires QueueOk(QueueOf(s, w)) && Protocol(s)
    ensures Keeps(s, Do(s, Submit(p, w, task)))
  {
    if p != CONSUMER && ProducerOf(s, p) == Resting && PcOf(QueueOf(s, w).s, p) == Idle {
      ProducerCalls(QueueOf(s, w), p, task);
      PutKeeps(s, w, p, LockFreeQueue.Apply(QueueOf(s, w), CallEnq(p, task)), Putting(w));
    }
  }

  lemma PuttingKeeps(s: Poller, p: Tid, w: Which)
    requires QueueOk(QueueOf(s, w)) && Protocol(s) && ProducerOf(s, p) == Putting(w)
    ensures Keeps(s, StepProducer(s, p))
  {
    var q := QueueOf(s, w);
    assert RolesOk(s, w);
    ProducerMoves(q, p);
    var q' := LockFreeQueue.Apply(q, Run(p));
    PutKeeps(s, w, p, q', if PcOf(q'.s, p) == Idle then AtCas(w) else Putting(w));
  }

  lemma ProduceKeeps(s: Poller, p: Tid)
    requires QueuesOk(s) && Protocol(s)
    ensures Keeps(s, StepProducer(s, p))
  {
    match ProducerOf(s, p) {
      case Resting =>
      case Putting(w) => PuttingKeeps(s, p, w);
      case AtCas(_) => CasKeeps(s, p);
      case AtTrigger(_) => TriggerKeeps(s, p);
    }
  }

  lemma PollKeeps(s: Poller, evs: seq<Ev>)
    requires Protocol(s)
    ensures Keeps(s, Do(s, Poll(evs)))
  {
    var s' := Do(s, Poll(evs));
    if s' != s {
      LocalTriggering(s, s');
      assert evs[0..] == evs;
      LocalKeeps(s, s');
    }
  }

  lemma ConsumeKeeps(s: Poller, s': Poller, ending: Ending)
    requires QueuesOk(s) && Protocol(s) && !s.consumer.CheckPrior? && s' == StepConsumer(s, ending)
    ensures Keeps(s, s')
  {
    if s.consumer.TakePrior? {
      DequeueIsSound(s.prior);
      TakePriorKeeps(s, ending);
    } else if Taking(s.consumer, Normal) {
      DequeueIsSound(s.normal);
      TakeNormalKeeps(s, ending);
    } else if s.consumer.CheckNormal? {
      CheckNormalKeeps(s, s', ending);
    } else {
      LocalStepKeeps(s, s', ending);
    }
  }

  lemma DoKeeps(s: Poller, m: Move, s': Poller)
    requires QueuesOk(s) && Protocol(s) && s' == Do(s, m)
    ensures Protocol(s')
    ensures Watched(s) && !(m.Consume? && Misses(s)) ==> Watched(s')
  {
    match m {
      case Submit(p, w, task) => SubmitKeeps(s, p, w, task);
      case Produce(p) => ProduceKeeps(s, p);
      case Poll(evs) => PollKeeps(s, evs);
      case Consume(ending) =>
        if s.consumer.CheckPrior? {
          CheckPriorKeeps(s, s', ending);
        } else {
          ConsumeKeeps(s, s', ending);
        }
    }
  }

  /** Exactly when a step leaves something queued unwatched: it is the last check, it finds both sizes a
   multiple of 2^32 and not both 0, and no enqueuer of either queue is on its way to `toTrigger`. */
  lemma MissesExactly(s: Poller, m: Move, s': Poller)
    requires QueuesOk(s) && Protocol(s) && Watched(s) && s' == Do(s, m)
    ensures !Watched(s') <==> m.Consume? && Misses(s)
  {
    DoKeeps(s, m, s');
    if m.Consume? && Misses(s) {
      CheckPriorKeeps(s, s', m.ending);
    }
  }

  // ---------------------------------------------------------------- over every run

  /** The state before move k of the run. */
  function At(sub: bool, run: seq<Move>, k: nat): Poller
    requires k <= |run|
  {
    DoAll(Start(sub), run[..k])
  }

  lemma AtNext(sub: bool, run: seq<Move>, k: nat)
    requires k < |run|
    ensures At(sub, run, k + 1) == Do(At(sub, run, k), run[k])
  {
    assert run[..k + 1][..k] == run[..k];
  }

  lemma AtEnds(sub: bool, run: seq<Move>)
    ensures At(sub, run, 0) == Start(sub) && At(sub, run, |run|) == DoAll(Start(sub), run)
  {
    assert run[..|run|] == run;
  }

  lemma StartSafe(sub: bool)
    ensures QueuesOk(Start(sub)) && Protocol(Start(sub)) && Watched(Start(sub)) && !Lost(Start(sub))
  {
    InitInv();
    LengthInvariant([]);
  }

  lemma SafeNext(sub: bool, run: seq<Move>, k: nat)
    requires k < |run| && QueuesOk(At(sub, run, k)) && Protocol(At(sub, run, k))
    ensures QueuesOk(At(sub, run, k + 1)) && Protocol(At(sub, run, k + 1))
  {
    AtNext(sub, run, k);
    DoQueues(At(sub, run, k), run[k]);
    DoKeeps(At(sub, run, k), run[k], At(sub, run, k + 1));
  }

  lemma {:induction false} SafeAt(sub: bool, run: seq<Move>, k: nat)
    requires k <= |run|
    ensures QueuesOk(At(sub, run, k)) && Protocol(At(sub, run, k))
    decreases k
  {
    if k == 0 {
      AtEnds(sub, run);
      StartSafe(sub);
    } else {
      SafeAt(sub, run, k - 1);
      SafeNext(sub, run, k - 1);
    }
  }

  /** The invariant holds after every run, with no condition. */
  lemma RunSafe(sub: bool, run: seq<Move>)
    ensures QueuesOk(DoAll(Start(sub), run)) && Protocol(DoAll(Start(sub), run))
  {
    SafeAt(sub, run, |run|);
    AtEnds(sub, run);
  }

  /** Move k of the run misses what is queued. */
  ghost predicate MissesAt(sub: bool, run: seq<Move>, k: nat)
    requires k < |run|
  {
    run[k].Consume? && Misses(At(sub, run, k))
  }

  ghost predicate MissesNothing(sub: bool, run: seq<Move>) {
    forall k :: 0 <= k < |run| ==> !MissesAt(sub, run, k)
  }

  ghost predicate AlwaysWatched(sub: bool, run: seq<Move>) {
    forall k :: 0 <= k <= |run| ==> Watched(At(sub, run, k))
  }

  lemma MissesAtExactly(sub: bool, run: seq<Move>, k: nat)
    requires k < |run| && Watched(At(sub, run, k))
    ensures !Watched(At(sub, run, k + 1)) <==> MissesAt(sub, run, k)
  {
    SafeAt(sub, run, k);
    AtNext(sub, run, k);
    MissesExactly(At(sub, run, k), run[k], At(sub, run, k + 1));
  }

  lemma {:induction false} WatchedAt(sub: bool, run: seq<Move>, k: nat)
    requires k <= |run| && MissesNothing(sub, run)
    ensures Watched(At(sub, run, k))
    decreases k
  {
    if k == 0 {
      StartSafe(sub);
    } else {
      WatchedAt(sub, run, k - 1);
      MissesAtExactly(sub, run, k - 1);
    }
  }

  /** In a run everything queued is watched at all times if and only if no last check misses it. */
  lemma WatchedExactly(sub: bool, run: seq<Move>)
    ensures AlwaysWatched(sub, run) <==> MissesNothing(sub, run)
  {
    if MissesNothing(sub, run) {
      forall k | 0 <= k <= |run|
        ensures Watched(At(sub, run, k))
      {
        WatchedAt(sub, run, k);
      }
    }
    if AlwaysWatched(sub, run) {
      forall k | 0 <= k < |run|
        ensures !MissesAt(sub, run, k)
      {
        MissesAtExactly(sub, run, k);
      }
    }
  }

  /** Fewer than 2^32 tasks in each queue. */
  ghost predicate Fits(s: Poller) {
    Size(s.prior) < 0x1_0000_0000 && Size(s.normal) < 0x1_0000_0000
  }

  lemma FitsMissesNothing(s: Poller)
    requires QueuesOk(s) && Fits(s)
    ensures !Misses(s)
  {
  }

  /** So nothing is missed in a run in which fewer than 2^32 tasks are queued at any time. */
  lemma FewAreSighted(sub: bool, run: seq<Move>)
    requires forall k :: 0 <= k <= |run| ==> Fits(At(sub, run, k))
    ensures MissesNothing(sub, run)
  {
    forall k | 0 <= k < |run|
      ensures !MissesAt(sub, run, k)
    {
      SafeAt(sub, run, k);
      FitsMissesNothing(At(sub, run, k));
    }
  }

  // ---------------------------------------------------------------- the end of the loop

  /** A callback comes back with a fatal error: its own, or one that a pooled function left. */
  predicate EndsFatally(s: Poller, m: Move) {
    && m == Consume(Fatal)
    && (s.consumer.Joining? || s.consumer.Finishing? || (s.consumer.InCallback? && !s.consumer.passed))
  }

  /** A Dequeue does not end the loop. */
  lemma TakingGoesOn(s: Poller, w: Which, q': Config, none: Consumer, next: Consumer)
    requires !s.consumer.Stopped? && !none.Stopped? && !next.Stopped?
    ensures !AfterDequeue(s, w, q', none, next).consumer.Stopped?
  {
  }

  lemma TakingNeverStops(s: Poller, ending: Ending)
    requires s.consumer.TakePrior? || s.consumer.TakeNormal?
    ensures !StepConsumer(s, ending).consumer.Stopped?
  {
    if s.consumer.TakePrior? {
      TakingGoesOn(s, Prior, NextDequeue(s.prior), TakeNormal(0), TakePrior);
    } else {
      TakingGoesOn(s, Normal, NextDequeue(s.normal), Joining, TakeNormal(s.consumer.n + 1));
    }
  }

  lemma OthersNeverStop(s: Poller, m: Move)
    requires !m.Consume?
    ensures Do(s, m).consumer.Stopped? <==> s.consumer.Stopped?
  {
  }

  lemma ConsumeStops(s: Poller, ending: Ending)
    requires !s.consumer.TakePrior? && !s.consumer.TakeNormal?
    ensures StepConsumer(s, ending).consumer.Stopped? <==> s.consumer.Stopped? || EndsFatally(s, Consume(ending))
  {
  }

  lemma StopsExactly(s: Poller, m: Move, s': Poller)
    requires s' == Do(s, m)
    ensures s'.consumer.Stopped? <==> s.consumer.Stopped? || EndsFatally(s, m)
  {
    if !m.Consume? {
      OthersNeverStop(s, m);
    } else if s.consumer.TakePrior? || s.consumer.TakeNormal? {
      TakingNeverStops(s, m.ending);
    } else {
      ConsumeStops(s, m.ending);
    }
  }

  ghost predicate EndsAt(sub: bool, run: seq<Move>, k: nat)
    requires k < |run|
  {
    EndsFatally(At(sub, run, k), run[k])
  }

  ghost predicate StoppedAt(sub: bool, run: seq<Move>, k: nat)
    requires k <= |run|
  {
    At(sub, run, k).consumer.Stopped?
  }

  lemma StopsNext(sub: bool, run: seq<Move>, k: nat)
    requires k < |run|
    ensures StoppedAt(sub, run, k + 1) <==> StoppedAt(sub, run, k) || EndsAt(sub, run, k)
  {
    AtNext(sub, run, k);
    StopsExactly(At(sub, run, k), run[k], At(sub, run, k + 1));
  }

  lemma NotStoppedAtFirst(sub: bool, run: seq<Move>)
    ensures !StoppedAt(sub, run, 0)
  {
    AtEnds(sub, run);
  }

  lemma {:induction false} EndedBefore(sub: bool, run: seq<Move>, n: nat) returns (k: nat)
    requires n <= |run| && StoppedAt(sub, run, n)
    ensures k < n && EndsAt(sub, run, k)
    decreases n
  {
    if n == 0 {
      NotStoppedAtFirst(sub, run);
      assert false;
    } else {
      StopsNext(sub, run, n - 1);
      k := n - 1;
      if StoppedAt(sub, run, n - 1) {
        k := EndedBefore(sub, run, n - 1);
      }
    }
  }

  lemma StoppedNext(sub: bool, run: seq<Move>, k: nat)
    requires k < |run| && StoppedAt(sub, run, k)
    ensures StoppedAt(sub, run, k + 1)
  {
    StopsNext(sub, run, k);
  }

  lemma {:induction false} StaysStopped(sub: bool, run: seq<Move>, k: nat, n: nat)
    requires k <= n <= |run| && StoppedAt(sub, run, k)
    ensures StoppedAt(sub, run, n)
    decreases n
  {
    if k < n {
      StaysStopped(sub, run, k, n - 1);
      StoppedNext(sub, run, n - 1);
    }
  }

  /** The loop ends in a run if and only if some callback of the run comes back with a fatal error. */
  lemma EndsExactly(sub: bool, run: seq<Move>, n: nat)
    requires n <= |run|
    ensures StoppedAt(sub, run, n) <==> exists k :: 0 <= k < n && EndsAt(sub, run, k)
  {
    if StoppedAt(sub, run, n) {
      var k := EndedBefore(sub, run, n);
      assert EndsAt(sub, run, k);
    }
    if k :| 0 <= k < n && EndsAt(sub, run, k) {
      StopsNext(sub, run, k);
      StaysStopped(sub, run, k + 1, n);
    }
  }

  // ---------------------------------------------------------------- losing a wake-up

  /** The consumer reads the wake descriptor for an event that is not the last of its batch. */
  predicate ReadsEarlyWake(s: Poller, m: Move) {
    && m.Consume?
    && match s.consumer
       case InBatch(evs, i, _) => i + 1 < |evs| && evs[i] == Wake
       case InCallback(evs, i, passed) => !passed && s.sub && i + 1 < |evs| && evs[i] == Wake && m.ending != Fatal
       case _ => false
  }

  /** And nobody is left to wake the consumer instead. */
  ghost predicate Loses(s: Poller, m: Move) {
    ReadsEarlyWake(s, m) && s.toTrigger && !SomeTriggering(s)
  }

  lemma LosesBatch(s: Poller, ending: Ending)
    requires Wakes(s) && !Lost(s)
    requires s.consumer.InBatch? || s.consumer.InCallback?
    ensures Lost(StepConsumer(s, ending)) <==> Loses(s, Consume(ending))
  {
    LocalTriggering(s, StepConsumer(s, ending));
    var evs, i := s.consumer.evs, s.consumer.i;
    assert evs[i..] == [evs[i]] + evs[i + 1..];
    assert evs[i] == Wake ==> Wake !in evs[i + 1..];
  }

  lemma LosesRound(s: Poller, ending: Ending)
    requires Wakes(s) && !Lost(s)
    requires !s.consumer.InBatch? && !s.consumer.InCallback?
    ensures !Lost(StepConsumer(s, ending))
  {
    LocalTriggering(s, StepConsumer(s, ending));
  }

  lemma LosesConsume(s: Poller, ending: Ending)
    requires Wakes(s) && !Lost(s)
    ensures Lost(StepConsumer(s, ending)) <==> Loses(s, Consume(ending))
  {
    if s.consumer.InBatch? || s.consumer.InCallback? {
      LosesBatch(s, ending);
    } else {
      LosesRound(s, ending);
    }
  }

  lemma LosesProduce(s: Poller, p: Tid)
    requires Wakes(s) && !Lost(s)
    ensures !Lost(StepProducer(s, p))
  {
    var s' := StepProducer(s, p);
    assert forall t :: t != p ==> ProducerOf(s', t) == ProducerOf(s, t);
    if SomeTriggering(s) {
      var t :| ProducerOf(s, t).AtTrigger?;
      if t != p { assert ProducerOf(s', t).AtTrigger?; }
    }
    if ProducerOf(s, p).AtCas? && !s.toTrigger {
      assert ProducerOf(s', p).AtTrigger?;
    }
  }

  lemma LosesSubmit(s: Poller, p: Tid, w: Which, task: Task)
    requires !Lost(s)
    ensures !Lost(Do(s, Submit(p, w, task)))
  {
    var s' := Do(s, Submit(p, w, task));
    if SomeTriggering(s) {
      var t :| ProducerOf(s, t).AtTrigger?;
      assert ProducerOf(s', t).AtTrigger?;
    }
  }

  /** Exactly when a step loses the wake-up: a wake event that is not the last of its batch is
   read while `toTrigger` is set and no producer is about to trigger. */
  lemma LosesExactly(s: Poller, m: Move)
    requires Wakes(s) && !Lost(s)
    ensures Lost(Do(s, m)) <==> Loses(s, m)
  {
    match m {
      case Submit(p, w, task) => LosesSubmit(s, p, w, task);
      case Produce(p) => LosesProduce(s, p);
      case Poll(evs) => LocalTriggering(s, Do(s, m));
      case Consume(ending) => LosesConsume(s, ending);
    }
  }

  ghost predicate LosesAt(sub: bool, run: seq<Move>, k: nat)
    requires k < |run|
  {
    Loses(At(sub, run, k), run[k])
  }

  lemma LosesAtExactly(sub: bool, run: seq<Move>, k: nat)
    requires k < |run| && !Lost(At(sub, run, k))
    ensures Lost(At(sub, run, k + 1)) <==> LosesAt(sub, run, k)
  {
    SafeAt(sub, run, k);
    AtNext(sub, run, k);
    LosesExactly(At(sub, run, k), run[k]);
  }

  lemma {:induction false} LostSince(sub: bool, run: seq<Move>, k: nat) returns (j: nat)
    requires k <= |run| && Lost(At(sub, run, k))
    ensures j < k && LosesAt(sub, run, j)
    decreases k
  {
    StartSafe(sub);
    j := k - 1;
    if Lost(At(sub, run, j)) {
      j := LostSince(sub, run, j);
    } else {
      LosesAtExactly(sub, run, j);
    }
  }

  /** A run loses the wake-up at some point if and only if some move of it loses it in this way. */
  lemma LossExactly(sub: bool, run: seq<Move>)
    ensures (exists k :: 0 <= k <= |run| && Lost(At(sub, run, k))) <==>
              exists k :: 0 <= k < |run| && LosesAt(sub, run, k)
  {
    if k :| 0 <= k <= |run| && Lost(At(sub, run, k)) {
      var j := LostSince(sub, run, k);
      assert LosesAt(sub, run, j);
    }
    if k :| 0 <= k < |run| && LosesAt(sub, run, k) {
      if !Lost(At(sub, run, k)) {
        LosesAtExactly(sub, run, k);
        assert Lost(At(sub, run, k + 1));
      }
    }
  }

  /** The wake-up is lost, or the loop has ended. */
  ghost predicate Dead(s: Poller) {
    Lost(s) || s.consumer.Stopped?
  }

  lemma LostStaysSubmit(s: Poller, p: Tid, w: Which, task: Task)
    requires Lost(s)
    ensures Lost(Do(s, Submit(p, w, task))) && Do(s, Submit(p, w, task)).ran == s.ran
  {
    forall t
      ensures !ProducerOf(Do(s, Submit(p, w, task)), t).AtTrigger?
    {
      assert !ProducerOf(s, t).AtTrigger?;
    }
  }

  lemma LostStaysProduce(s: Poller, p: Tid)
    requires Lost(s)
    ensures Lost(StepProducer(s, p)) && StepProducer(s, p).ran == s.ran
  {
    forall t
      ensures !ProducerOf(StepProducer(s, p), t).AtTrigger?
    {
      assert !ProducerOf(s, t).AtTrigger?;
    }
  }

  lemma LostStaysPoll(s: Poller, evs: seq<Ev>)
    requires Lost(s)
    ensures Lost(Do(s, Poll(evs))) && Do(s, Poll(evs)).ran == s.ran
  {
    LocalTriggering(s, Do(s, Poll(evs)));
    assert evs[0..] == evs;
  }

  lemma LostStaysBatch(s: Poller, s': Poller, ending: Ending)
    requires Lost(s) && s.consumer.InBatch? && s' == StepConsumer(s, ending) && SomeTriggering(s') == SomeTriggering(s)
    ensures Lost(s') && s'.ran == s.ran
  {
    var evs, i := s.consumer.evs, s.consumer.i;
    if i < |evs| {
      assert evs[i..] == [evs[i]] + evs[i + 1..];
    }
  }

  lemma LostStaysCallback(s: Poller, s': Poller, ending: Ending)
    requires Lost(s) && s.consumer.InCallback? && s' == StepConsumer(s, ending)
    requires SomeTriggering(s') == SomeTriggering(s)
    ensures Dead(s') && s'.ran == s.ran
  {
  }

  lemma LostStaysConsumer(s: Poller, ending: Ending)
    requires Lost(s)
    ensures Dead(StepConsumer(s, ending)) && StepConsumer(s, ending).ran == s.ran
  {
    LocalTriggering(s, StepConsumer(s, ending));
    match s.consumer {
      case Waiting(_) =>
      case InBatch(_, _, _) => LostStaysBatch(s, StepConsumer(s, ending), ending);
      case InCallback(_, _, _) => LostStaysCallback(s, StepConsumer(s, ending), ending);
      case _ =>
    }
  }

  lemma DeadStays(s: Poller, m: Move)
    requires Dead(s)
    ensures Dead(Do(s, m)) && Do(s, m).ran == s.ran
  {
    if Lost(s) {
      match m {
        case Poll(evs) => LostStaysPoll(s, evs);
        case Consume(ending) => LostStaysConsumer(s, ending);
        case Submit(p, w, task) => LostStaysSubmit(s, p, w, task);
        case Produce(p) => LostStaysProduce(s, p);
      }
    }
  }

  /** Once lost, always lost: whatever producers and consumer do, no task is ever dispatched again. */
  lemma {:induction false} LostForever(s: Poller, run: seq<Move>)
    requires Dead(s)
    ensures Dead(DoAll(s, run)) && DoAll(s, run).ran == s.ran
    decreases |run|
  {
    if run != [] {
      LostForever(s, run[..|run| - 1]);
      DeadStays(DoAll(s, run[..|run| - 1]), run[|run| - 1]);
    }
  }

  /** Somebody will wake the consumer. */
  ghost predicate Rescued(s: Poller) {
    s.wake || SomeTriggering(s) || SomePending(s, Prior) || SomePending(s, Normal)
  }

  lemma AwakeOrLostIn(s: Poller)
    requires Protocol(s) && OutsideRound(s.consumer) && Queued(s)
    ensures Rescued(s) || Lost(s) <==> Watched(s) || s.wake || SomeTriggering(s)
  {
  }

  /** In every run: outside a round, what is queued has its wake-up on the way, or it was lost, if and only if
   it is watched, or a wake-up meant for something else is on the way. */
  lemma AwakeOrLost(sub: bool, run: seq<Move>, s: Poller)
    requires s == DoAll(Start(sub), run) && OutsideRound(s.consumer) && Queued(s)
    ensures Rescued(s) || Lost(s) <==> Watched(s) || s.wake || SomeTriggering(s)
    ensures MissesNothing(sub, run) ==> Rescued(s) || Lost(s)
  {
    RunSafe(sub, run);
    AwakeOrLostIn(s);
    if MissesNothing(sub, run) {
      WatchedAt(sub, run, |run|);
      AtEnds(sub, run);
    }
  }

  /** Every batch of the run delivers the wake event last, if at all. */
  predicate WakeLast(evs: seq<Ev>) {
    forall i :: 0 <= i < |evs| - 1 ==> evs[i] != Wake
  }

  ghost predicate PollsWakeLast(run: seq<Move>) {
    forall k :: 0 <= k < |run| && run[k].Poll? ==> WakeLast(run[k].evs)
  }

  predicate BatchWakeLast(c: Consumer) {
    (c.InBatch? || c.InCallback?) ==> WakeLast(c.evs)
  }

  lemma WakeLastStays(s: Poller, m: Move)
    requires BatchWakeLast(s.consumer) && (m.Poll? ==> WakeLast(m.evs))
    ensures BatchWakeLast(Do(s, m).consumer)
  {
    match m {
      case Consume(ending) => if s.consumer.InBatch? || s.consumer.InCallback? { } else { }
      case _ =>
    }
  }

  lemma WakeLastReadsNoEarlyWake(s: Poller, m: Move)
    requires BatchWakeLast(s.consumer)
    ensures !ReadsEarlyWake(s, m)
  {
  }

  lemma WakeLastNext(sub: bool, run: seq<Move>, k: nat, m: Move)
    requires k < |run| && m == run[k] && (m.Poll? ==> WakeLast(m.evs)) && BatchWakeLast(At(sub, run, k).consumer)
    ensures BatchWakeLast(At(sub, run, k + 1).consumer)
  {
    AtNext(sub, run, k);
    WakeLastStays(At(sub, run, k), m);
  }

  lemma {:induction false} WakeLastAt(sub: bool, run: seq<Move>, k: nat)
    requires k <= |run| && PollsWakeLast(run)
    ensures BatchWakeLast(At(sub, run, k).consumer)
    decreases k
  {
    if k == 0 {
      AtEnds(sub, run);
    } else {
      WakeLastAt(sub, run, k - 1);
      WakeLastNext(sub, run, k - 1, run[k - 1]);
    }
  }

  lemma WakeLastNeverLost(sub: bool, run: seq<Move>)
    requires PollsWakeLast(run)
    ensures !Lost(DoAll(Start(sub), run))
  {
    AtEnds(sub, run);
    if Lost(At(sub, run, |run|)) {
      var j := LostSince(sub, run, |run|);
      WakeLastAt(sub, run, j);
      WakeLastReadsNoEarlyWake(At(sub, run, j), run[j]);
    }
  }

  /** No lost wake-up: if every batch delivers the wake event last and no last check meets sizes that wrap to
   zero, then outside a round a linked task always has a readable wake descriptor, a producer about to
   trigger, or a producer between linking its node and its `toTrigger` swap. IsEmpty may read a lagging
   Length throughout. */
  lemma NoLostWakeUp(sub: bool, run: seq<Move>, s: Poller)
    requires MissesNothing(sub, run) && PollsWakeLast(run)
    requires s == DoAll(Start(sub), run) && OutsideRound(s.consumer) && Queued(s)
    ensures Rescued(s)
  {
    AwakeOrLost(sub, run, s);
    WakeLastNeverLost(sub, run);
  }

  lemma DoAllSnoc(s: Poller, run: seq<Move>, m: Move)
    ensures DoAll(s, run + [m]) == Do(DoAll(s, run), m)
  {
    assert (run + [m])[..|run|] == run;
  }

  /** The queue of a lone enqueuer, thread 1, after k atomic steps. */
  function LoneState(task: Task, k: nat): State {
    var blank, linked := [Node(NIL_TASK, Nil), Node(task, Nil)], [Node(NIL_TASK, To(1)), Node(task, Nil)];
    if k == 0 then State(blank, 0, 0, 0, map[1 := EnqLoadTail(1)])
    else if k == 1 then State(blank, 0, 0, 0, map[1 := EnqLoadNext(1, 0)])
    else if k == 2 then State(blank, 0, 0, 0, map[1 := EnqCheckTail(1, 0, Nil)])
    else if k == 3 then State(blank, 0, 0, 0, map[1 := EnqLink(1, 0)])
    else if k == 4 then State(linked, 0, 0, 0, map[1 := EnqSwing(1, 0)])
    else if k == 5 then State(linked, 0, 1, 0, map[1 := EnqCount(1)])
    else State(linked, 0, 1, 1, map[1 := Idle])
  }

  lemma LoneStep(task: Task, k: nat)
    requires k < 6
    ensures Step(LoneState(task, k), 1).nodes == LoneState(task, k + 1).nodes
    ensures Step(LoneState(task, k), 1) == LoneState(task, k + 1)
  {
  }

  ghost predicate Lone(s: Poller, q: State, x: Producer) {
    && s.sub && s.normal.s == q && s.prior.s == Init && s.producers == map[1 := x]
    && !s.toTrigger && !s.wake && s.consumer == Waiting(false) && s.ran == []
  }

  function LoneMoves(task: Task, k: nat): seq<Move> {
    if k == 0 then [Submit(1, Normal, task)] else LoneMoves(task, k - 1) + [Produce(1)]
  }

  lemma LonePut(s: Poller, task: Task, k: nat)
    requires k < 6 && Lone(s, LoneState(task, k), Putting(Normal))
    ensures Lone(Do(s, Produce(1)), LoneState(task, k + 1), if k == 5 then AtCas(Normal) else Putting(Normal))
  {
    LoneStep(task, k);
    assert s.producers[1 := AtCas(Normal)] == map[1 := AtCas(Normal)];
  }

  lemma LoneCall(task: Task)
    ensures Lone(DoAll(Start(true), [Submit(1, Normal, task)]), LoneState(task, 0), Putting(Normal))
  {
    DoAllSnoc(Start(true), [], Submit(1, Normal, task));
    assert [] + [Submit(1, Normal, task)] == [Submit(1, Normal, task)];
  }

  lemma {:induction false} LoneAt(task: Task, k: nat)
    requires k <= 6
    ensures Lone(DoAll(Start(true), LoneMoves(task, k)), LoneState(task, k),
                 if k == 6 then AtCas(Normal) else Putting(Normal))
  {
    if k == 0 {
      LoneCall(task);
    } else {
      LoneAt(task, k - 1);
      var moves := LoneMoves(task, k - 1);
      DoAllSnoc(Start(true), moves, Produce(1));
      LonePut(DoAll(Start(true), moves), task, k - 1);
      assert LoneMoves(task, k) == moves + [Produce(1)];
    }
  }

  lemma LoneTriggers(s: Poller, task: Task)
    requires Lone(s, LoneState(task, 6), AtCas(Normal))
    ensures
      var s' := Do(Do(s, Produce(1)), Produce(1));
      && s'.normal == s.normal && s'.toTrigger && s'.wake && s'.consumer == Waiting(false)
      && s'.producers == map[1 := Resting] && s'.ran == [] && s'.sub && s'.prior == s.prior
  {
    assert s.producers[1 := AtTrigger(Normal)][1 := Resting] == map[1 := Resting];
  }

  /** AddTask by a lone producer on an untouched poller, one atomic step after the other. */
  lemma LoneAddTask(task: Task) returns (run: seq<Move>)
    ensures
      var s := DoAll(Start(true), run);
      && HasTask(s.normal.s) && s.toTrigger && s.wake && s.consumer == Waiting(false)
      && s.producers == map[1 := Resting] && s.ran == []
      && s.sub && s.normal.s == LoneState(task, 6) && s.prior.s == Init
  {
    LoneAt(task, 6);
    var moves := LoneMoves(task, 6);
    DoAllSnoc(Start(true), moves, Produce(1));
    DoAllSnoc(Start(true), moves + [Produce(1)], Produce(1));
    LoneTriggers(DoAll(Start(true), moves), task);
    run := moves + [Produce(1)] + [Produce(1)];
  }

  /** The failing case happens: one task is added, its wake event comes first of two, and the wake-up is lost. */
  lemma EarlyWakeIsLost(task: Task) returns (run: seq<Move>)
    ensures HasTask(DoAll(Start(true), run).normal.s) && Lost(DoAll(Start(true), run))
    ensures DoAll(Start(true), run).ran == []
  {
    run := LoneAddTask(task);
    var s := DoAll(Start(true), run);
    var evs := [Wake, Other];
    var s1 := Do(s, Poll(evs));
    assert s1.consumer == InBatch(evs, 0, false) by {
      assert evs[0] == Wake;
    }
    var s2 := Do(s1, Consume(Fine));
    assert s2.consumer == InCallback(evs, 0, false);
    assert evs[1..] == [Other];
    assert !SomeTriggering(s2);
    DoAllSnoc(Start(true), run, Poll(evs));
    DoAllSnoc(Start(true), run + [Poll(evs)], Consume(Fine));
    run := run + [Poll(evs)] + [Consume(Fine)];
  }
}
