/**
 What the poll loop hands out while producers interleave with it: from each queue exactly the values that were
 put, once and in their order.
 */
module WakeUpDispatch {
  import opened LockFreeQueue
  import opened QueueLinearizability
  import opened WakeUp
  import opened WakeUpTheorems
  import Q = LockFreeQueue

  // ---------------------------------------------------------------- the queues of a run

  /** The queue is left alone, or makes one atomic action. */
  ghost predicate OneAction(q: Config, q': Config) {
    q' == q || exists act :: q' == Q.Apply(q, act)
  }

  lemma ProducerActs(s: Poller, p: Tid, w: Which)
    ensures OneAction(QueueOf(s, w), QueueOf(StepProducer(s, p), w))
  {
    ProducerQueue(s, p, w);
    assert OneAction(QueueOf(s, w), Q.Apply(QueueOf(s, w), Run(p)));
  }

  lemma DequeueActs(q: Config)
    ensures OneAction(q, NextDequeue(q))
  {
    assert OneAction(q, Q.Apply(q, CallDeq(CONSUMER)));
    assert OneAction(q, Q.Apply(q, Run(CONSUMER)));
  }

  lemma ConsumerActs(s: Poller, ending: Ending, w: Which)
    ensures OneAction(QueueOf(s, w), QueueOf(StepConsumer(s, ending), w))
  {
    ConsumerPrior(s, ending);
    ConsumerNormal(s, ending);
    DequeueActs(QueueOf(s, w));
  }

  lemma MoveActs(s: Poller, m: Move, w: Which)
    ensures OneAction(QueueOf(s, w), QueueOf(Do(s, m), w))
  {
    match m {
      case Submit(p, v, task) => assert OneAction(QueueOf(s, v), Q.Apply(QueueOf(s, v), CallEnq(p, task)));
      case Produce(p) => ProducerActs(s, p, w);
      case Poll(_) =>
      case Consume(ending) => ConsumerActs(s, ending, w);
    }
  }

  /** Each queue of the poller goes through a schedule of the lock-free queue, so all that is proved about
   schedules holds of it. */
  lemma {:induction false} QueueSchedule(sub: bool, run: seq<Move>, w: Which) returns (sched: seq<Action>)
    ensures QueueOf(DoAll(Start(sub), run), w) == Exec(sched)
    decreases |run|
  {
    if run == [] {
      sched := [];
    } else {
      var before, m := run[..|run| - 1], run[|run| - 1];
      sched := QueueSchedule(sub, before, w);
      var q, q' := Exec(sched), QueueOf(DoAll(Start(sub), run), w);
      MoveActs(DoAll(Start(sub), before), m, w);
      if q' != q {
        var act :| q' == Q.Apply(q, act);
        ExecSnoc(sched, act);
        sched := sched + [act];
      }
    }
  }

  // ---------------------------------------------------------------- what is dispatched

  /** The loop cannot tell a queued nil from the empty answer. */
  function NotNil(ts: seq<Task>): seq<Task> {
    if ts == [] then [] else NotNil(ts[..|ts| - 1]) + if ts[|ts| - 1] == NIL_TASK then [] else [ts[|ts| - 1]]
  }

  /** The values handed out from this queue. */
  function Handed(ran: seq<(Which, Task)>, w: Which): seq<Task> {
    if ran == [] then []
    else Handed(ran[..|ran| - 1], w) + if ran[|ran| - 1].0 == w then [ran[|ran| - 1].1] else []
  }

  /** The value of a Dequeue that has taken it and not returned. */
  function Held(pc: Pc): seq<Task> {
    if pc.DeqCount? then [pc.task] else []
  }

  lemma HandedMore(ran: seq<(Which, Task)>, more: seq<(Which, Task)>, w: Which)
    requires |more| <= 1
    ensures Handed(ran + more, w) == Handed(ran, w) + if more != [] && more[0].0 == w then [more[0].1] else []
  {
    if more == [] {
      assert ran + more == ran;
    } else {
      assert (ran + more)[..|ran|] == ran;
    }
  }

  lemma {:induction false} NotNilAppends(a: seq<Task>, b: seq<Task>)
    ensures NotNil(a + b) == NotNil(a) + NotNil(b)
    decreases |b|
  {
    if b == [] {
      assert a + b == a;
    } else {
      NotNilAppends(a, b[..|b| - 1]);
      assert (a + b)[..|a + b| - 1] == a + b[..|b| - 1];
    }
  }

  lemma TooksSnoc(lin: seq<Event>, e: Event)
    ensures Tooks(lin + [e]) == Tooks(lin) + if e.op.Took? then [e.op.v] else []
  {
    assert (lin + [e])[..|lin|] == lin;
  }

  lemma {:induction false} TooksWithout(lin: seq<Event>, e: Event)
    requires !e.op.Took?
    ensures Tooks(Without(lin, e)) == Tooks(lin)
    decreases |lin|
  {
    if lin != [] {
      TooksWithout(lin[..|lin| - 1], e);
      if lin[|lin| - 1] != e {
        TooksSnoc(Without(lin[..|lin| - 1], e), lin[|lin| - 1]);
      }
    }
  }

  /** Only a Head swap takes. */
  lemma NoteTooks(s: State, a: Aux, t: Tid, e: Effect)
    requires e.Retracts? && t in a.mine ==> a.mine[t].op == FoundEmpty
    ensures Tooks(Note(s, a, t, e).lin) == Tooks(a.lin) + if e.Takes? then [e.v] else []
  {
    match e {
      case Links(n) =>
        if n < |s.nodes| { TooksSnoc(a.lin, Event(t, Put(s.nodes[n].value), BeganAt(a, t), a.now)); }
      case Takes(v) => TooksSnoc(a.lin, Event(t, Took(v), BeganAt(a, t), a.now));
      case SeesEmpty => TooksSnoc(a.lin, Event(t, FoundEmpty, BeganAt(a, t), a.now));
      case Retracts => if t in a.mine { TooksWithout(a.lin, a.mine[t]); }
      case _ =>
    }
  }

  lemma NotedTooks(c: Config, t: Tid, e: Effect, s': State)
    requires Inv(c) && Agrees(c.s, t, e, s') && OthersSame(c.s, s', t)
    ensures Tooks(Note(c.s, c.a, t, e).lin) == Tooks(c.a.lin) + if e.Takes? then [e.v] else []
  {
    HistoryAfter(c.s, c.a, t, e, s');
    NoteTooks(c.s, c.a, t, e);
  }

  lemma RunTooks(c: Config, t: Tid, e: Effect, c': Config)
    requires Inv(c) && e == EffectOf(c.s, t) && c' == Q.Apply(c, Run(t))
    ensures Tooks(c'.a.lin) == Tooks(c.a.lin) + if e.Takes? then [e.v] else []
  {
    var e1, s' := StepLocal(c.s, c.a, t);
    ApplyRun(c, t, e, s');
    NotedTooks(c, t, e, s');
  }

  /** A thread that is not inside Dequeue does not take. */
  lemma OthersTakeNothing(c: Config, t: Tid, c': Config)
    requires Inv(c) && !Dequeuing(PcOf(c.s, t)) && c' == Q.Apply(c, Run(t))
    ensures Tooks(c'.a.lin) == Tooks(c.a.lin)
  {
    RunTooks(c, t, EffectOf(c.s, t), c');
  }

  /** The steps of Dequeue that bring a value in hand, keep it there, and hand it out. */
  lemma TakingSteps(s: State, a: Aux, t: Tid)
    requires ChainOk(s, a) && PcOk(s, a, PcOf(s, t)) && Dequeuing(PcOf(s, t))
    ensures var pc, pc' := PcOf(s, t), PcOf(Step(s, t), t);
      if EffectOf(s, t).Takes? then !pc.DeqCount? && pc' == DeqCount(EffectOf(s, t).v)
      else !pc'.DeqCount? && (pc.DeqCount? ==> pc' == Idle)
  {
  }

  /** What was handed out from the queue and is in hand is what was taken from it. */
  ghost predicate InStep(s: Poller, w: Which) {
    var q := QueueOf(s, w);
    Handed(s.ran, w) + NotNil(Held(PcOf(q.s, CONSUMER))) == NotNil(Tooks(q.a.lin))
  }

  lemma NotNilOne(t: Task)
    ensures NotNil([t]) == if t == NIL_TASK then [] else [t]
  {
    assert [t][..0] == [];
  }

  /** The arithmetic of one step of Dequeue: a value moves from the queue into the hand, or on to `ran`. */
  lemma HandOver(handed: seq<Task>, pc: Pc, taken: seq<Task>, handed': seq<Task>, pc': Pc, taken': seq<Task>,
                 takes: seq<Task>)
    requires handed + NotNil(Held(pc)) == NotNil(taken) && taken' == taken + takes
    requires handed' == handed + if pc' == Idle then NotNil(Held(pc)) else []
    requires if takes != [] then !pc.DeqCount? && pc'.DeqCount? && takes == [pc'.task]
             else !pc'.DeqCount? && (pc.DeqCount? ==> pc' == Idle)
    ensures handed' + NotNil(Held(pc')) == NotNil(taken')
  {
    NotNilAppends(taken, takes);
  }

  lemma DispatchedHands(ran: seq<(Which, Task)>, v: Which, pc: Pc, pc': Pc, w: Which)
    requires pc.DeqCount? ==> pc' == Idle
    ensures Handed(ran + Dispatched(v, pc, pc'), w) ==
              Handed(ran, w) + if v == w && pc' == Idle then NotNil(Held(pc)) else []
  {
    HandedMore(ran, Dispatched(v, pc, pc'), w);
    if pc.DeqCount? {
      NotNilOne(pc.task);
    }
  }

  lemma CallDeqInStep(s: Poller, w: Which, s': Poller)
    requires InStep(s, w) && PcOf(QueueOf(s, w).s, CONSUMER) == Idle
    requires QueueOf(s', w) == Q.Apply(QueueOf(s, w), CallDeq(CONSUMER)) && s'.ran == s.ran
    ensures InStep(s', w)
  {
    CallKeepsLin(QueueOf(s, w), CallDeq(CONSUMER));
  }

  lemma RunDeqInStep(s: Poller, w: Which, s': Poller, pc: Pc, pc': Pc)
    requires InStep(s, w) && Inv(QueueOf(s, w)) && Dequeuing(pc) && pc == PcOf(QueueOf(s, w).s, CONSUMER)
    requires QueueOf(s', w) == Q.Apply(QueueOf(s, w), Run(CONSUMER)) && pc' == PcOf(QueueOf(s', w).s, CONSUMER)
    requires s'.ran == s.ran + Dispatched(w, pc, pc')
    ensures InStep(s', w)
  {
    var q, e := QueueOf(s, w), EffectOf(QueueOf(s, w).s, CONSUMER);
    assert PcOk(q.s, q.a, PcOf(q.s, CONSUMER));
    TakingSteps(q.s, q.a, CONSUMER);
    RunTooks(q, CONSUMER, e, QueueOf(s', w));
    DispatchedHands(s.ran, w, pc, pc', w);
    HandOver(Handed(s.ran, w), pc, Tooks(q.a.lin), Handed(s'.ran, w), pc', Tooks(QueueOf(s', w).a.lin),
             if e.Takes? then [e.v] else []);
  }

  lemma DequeueInStep(s: Poller, w: Which, q': Config, s': Poller)
    requires InStep(s, w) && Inv(QueueOf(s, w)) && q' == NextDequeue(QueueOf(s, w)) && QueueOf(s', w) == q'
    requires var pc := PcOf(QueueOf(s, w).s, CONSUMER); pc == Idle || Dequeuing(pc)
    requires s'.ran == s.ran + Dispatched(w, PcOf(QueueOf(s, w).s, CONSUMER), PcOf(q'.s, CONSUMER))
    ensures InStep(s', w)
  {
    var pc := PcOf(QueueOf(s, w).s, CONSUMER);
    if pc == Idle {
      CallDeqInStep(s, w, s');
    } else {
      RunDeqInStep(s, w, s', pc, PcOf(q'.s, CONSUMER));
    }
  }

  /** The queue that the consumer does not take from. */
  lemma OtherInStep(s: Poller, v: Which, w: Which, s': Poller, pc: Pc, pc': Pc)
    requires InStep(s, w) && v != w && QueueOf(s', w) == QueueOf(s, w) && s'.ran == s.ran + Dispatched(v, pc, pc')
    ensures InStep(s', w)
  {
    HandedMore(s.ran, Dispatched(v, pc, pc'), w);
  }

  lemma AfterDequeueInStep(s: Poller, v: Which, w: Which, none: Consumer, next: Consumer, s': Poller)
    requires InStep(s, w) && Inv(QueueOf(s, w)) && RolesOk(s, w)
    requires s' == AfterDequeue(s, v, NextDequeue(QueueOf(s, v)), none, next)
    ensures InStep(s', w)
  {
    if v == w {
      DequeueInStep(s, w, NextDequeue(QueueOf(s, v)), s');
    } else {
      OtherInStep(s, v, w, s', PcOf(QueueOf(s, v).s, CONSUMER), PcOf(NextDequeue(QueueOf(s, v)).s, CONSUMER));
    }
  }

  lemma NothingHandedOut(s: Poller, s': Poller, ending: Ending)
    requires !s.consumer.TakePrior? && !Taking(s.consumer, Normal) && s' == StepConsumer(s, ending)
    ensures s'.ran == s.ran
  {
  }

  lemma TakesFrom(s: Poller, s': Poller, ending: Ending)
    requires s' == StepConsumer(s, ending)
    ensures s.consumer.TakePrior? ==> s' == AfterDequeue(s, Prior, NextDequeue(s.prior), TakeNormal(0), TakePrior)
    ensures Taking(s.consumer, Normal) ==>
              s' == AfterDequeue(s, Normal, NextDequeue(s.normal), Joining, TakeNormal(s.consumer.n + 1))
  {
  }

  lemma ConsumeInStep(s: Poller, s': Poller, ending: Ending, w: Which)
    requires InStep(s, w) && Inv(QueueOf(s, w)) && RolesOk(s, w) && s' == StepConsumer(s, ending)
    ensures InStep(s', w)
  {
    TakesFrom(s, s', ending);
    if s.consumer.TakePrior? {
      AfterDequeueInStep(s, Prior, w, TakeNormal(0), TakePrior, s');
    } else if Taking(s.consumer, Normal) {
      AfterDequeueInStep(s, Normal, w, Joining, TakeNormal(s.consumer.n + 1), s');
    } else {
      NothingHandedOut(s, s', ending);
      ConsumerPrior(s, ending);
      ConsumerNormal(s, ending);
    }
  }

  lemma ProducerStays(q: Config, p: Tid, q': Config)
    requires Inv(q) && !Dequeuing(PcOf(q.s, p)) && p != CONSUMER && q' == Q.Apply(q, Run(p))
    ensures Tooks(q'.a.lin) == Tooks(q.a.lin) && PcOf(q'.s, CONSUMER) == PcOf(q.s, CONSUMER)
  {
    OthersTakeNothing(q, p, q');
    StepKeepsOthers(q.s, p, CONSUMER);
    ApplyRun(q, p, EffectOf(q.s, p), Step(q.s, p));
  }

  lemma ProducerQueue(s: Poller, p: Tid, w: Which)
    ensures StepProducer(s, p).ran == s.ran
    ensures QueueOf(StepProducer(s, p), w) ==
              if ProducerOf(s, p) == Putting(w) then Q.Apply(QueueOf(s, w), Run(p)) else QueueOf(s, w)
  {
  }

  lemma ProducerInStep(s: Poller, s': Poller, p: Tid, w: Which)
    requires InStep(s, w) && Inv(QueueOf(s, w)) && RolesOk(s, w) && p != CONSUMER && s' == StepProducer(s, p)
    ensures InStep(s', w)
  {
    ProducerQueue(s, p, w);
    if ProducerOf(s, p) == Putting(w) {
      ProducerStays(QueueOf(s, w), p, QueueOf(s', w));
    }
  }

  lemma SubmitInStep(s: Poller, p: Tid, v: Which, task: Task, s': Poller, w: Which)
    requires InStep(s, w) && s' == Do(s, Submit(p, v, task))
    ensures InStep(s', w)
  {
    CallKeepsLin(QueueOf(s, w), CallEnq(p, task));
  }

  lemma PollInStep(s: Poller, evs: seq<Ev>, s': Poller, w: Which)
    requires InStep(s, w) && s' == Do(s, Poll(evs))
    ensures InStep(s', w)
  {
  }

  lemma ProduceInStep(s: Poller, p: Tid, s': Poller, w: Which)
    requires InStep(s, w) && Inv(QueueOf(s, w)) && RolesOk(s, w) && ProducerOf(s, CONSUMER) == Resting
    requires s' == StepProducer(s, p)
    ensures InStep(s', w)
  {
    if p != CONSUMER {
      ProducerInStep(s, s', p, w);
    }
  }

  lemma DoIs(s: Poller, m: Move, s': Poller)
    requires s' == Do(s, m)
    ensures m.Produce? ==> s' == StepProducer(s, m.p)
    ensures m.Consume? ==> s' == StepConsumer(s, m.ending)
  {
  }

  lemma MoveInStep(s: Poller, m: Move, s': Poller, w: Which)
    requires InStep(s, w) && Inv(QueueOf(s, w)) && RolesOk(s, w) && ProducerOf(s, CONSUMER) == Resting
    requires s' == Do(s, m)
    ensures InStep(s', w)
  {
    DoIs(s, m, s');
    match m {
      case Submit(p, v, task) => SubmitInStep(s, p, v, task, s', w);
      case Produce(p) => ProduceInStep(s, p, s', w);
      case Poll(evs) => PollInStep(s, evs, s', w);
      case Consume(ending) => ConsumeInStep(s, s', ending, w);
    }
  }

  lemma ScheduleInv(sub: bool, run: seq<Move>, w: Which)
    ensures Inv(QueueOf(DoAll(Start(sub), run), w))
  {
    var sched := QueueSchedule(sub, run, w);
    Reachable(sched);
  }

  lemma {:induction false} AlwaysInStep(sub: bool, run: seq<Move>, w: Which)
    ensures InStep(DoAll(Start(sub), run), w)
    decreases |run|
  {
    if run != [] {
      var before := run[..|run| - 1];
      AlwaysInStep(sub, before, w);
      ScheduleInv(sub, before, w);
      RunSafe(sub, before);
      MoveInStep(DoAll(Start(sub), before), run[|run| - 1], DoAll(Start(sub), run), w);
    }
  }

  /** Exactly-once dispatch in order, in every run: the values put into a queue are, in the order of its
   linearization, those handed out from it, the one in hand, and those still queued. */
  lemma DispatchedInOrder(sub: bool, run: seq<Move>, w: Which)
    ensures
      var s := DoAll(Start(sub), run);
      var q := QueueOf(s, w);
      && Legal(q)
      && Handed(s.ran, w) + NotNil(Held(PcOf(q.s, CONSUMER))) == NotNil(Tooks(q.a.lin))
      && NotNil(Puts(q.a.lin)) ==
         Handed(s.ran, w) + NotNil(Held(PcOf(q.s, CONSUMER))) + NotNil(Abs(q))
  {
    var s := DoAll(Start(sub), run);
    var q := QueueOf(s, w);
    AlwaysInStep(sub, run, w);
    ScheduleInv(sub, run, w);
    TakenArePrefix(q.a.lin);
    NotNilAppends(Tooks(q.a.lin), Abs(q));
  }
}
