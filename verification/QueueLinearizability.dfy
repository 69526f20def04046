/**
 Linearizability of the lock-free queue: for every schedule of any number of threads, the
 recorded linearization is a legal FIFO history whose state is the queue between Head and the
 end of the Next-chain, every returned call has its own point in it, with the outcome the code
 returned, between its call and its return.
 */
module QueueLinearizability {
  import opened LockFreeQueue

  /** The call of a thread at this point has taken effect but not returned. */
  predicate Linearized(pc: Pc) {
    pc.EnqSwing? || pc.EnqCount? || pc.DeqCount? || (pc.DeqCheckHead? && pc.head == pc.tail && pc.next == Nil)
  }

  function PendingOp(s: State, pc: Pc): Outcome
    requires Linearized(pc)
  {
    if pc.DeqCount? then Took(pc.task)
    else if pc.DeqCheckHead? then FoundEmpty
    else Put(if pc.n < |s.nodes| then s.nodes[pc.n].value else NIL_TASK)
  }

  ghost predicate Sorted(lin: seq<Event>) {
    forall i, j :: 0 <= i < j < |lin| ==> lin[i].at < lin[j].at
  }

  ghost predicate LinOk(a: Aux) {
    Sorted(a.lin) && forall e :: e in a.lin ==> e.start <= e.at < a.now
  }

  ghost predicate PendingOk(s: State, a: Aux) {
    && (forall t :: t in a.mine <==> Linearized(PcOf(s, t)))
    && (forall t :: t in a.mine ==>
          a.mine[t] in a.lin && a.mine[t].t == t && a.mine[t].start == BeganAt(a, t)
              && a.mine[t].op == PendingOp(s, PcOf(s, t)))
    && (forall t :: t in a.began ==> a.began[t] < a.now)
  }

  function EventOf(r: Reply): Event {
    Event(r.t, r.op, r.start, r.at)
  }

  ghost predicate DoneOk(a: Aux) {
    && (forall i :: 0 <= i < |a.done| ==> EventOf(a.done[i]) in a.lin && a.done[i].at <= a.done[i].end < a.now)
    && (forall i, j :: 0 <= i < j < |a.done| ==> a.done[i].at != a.done[j].at)
    && (forall i, t :: 0 <= i < |a.done| && t in a.mine ==> a.done[i].at != a.mine[t].at)
  }

  /** The event is that of a returned call. */
  ghost predicate Replied(a: Aux, e: Event) {
    exists i :: 0 <= i < |a.done| && EventOf(a.done[i]) == e
  }

  /** No event without a call: it belongs to a returned call or to one still in progress. */
  ghost predicate Answered(a: Aux, e: Event) {
    (e.t in a.mine && a.mine[e.t] == e) || Replied(a, e)
  }

  ghost predicate Covered(a: Aux) {
    forall e :: e in a.lin ==> Answered(a, e)
  }

  ghost predicate Legal(c: Config) {
    ChainOk(c.s, c.a) && Fifo(c.a.lin) == Holds(Abs(c))
  }

  ghost predicate History(s: State, a: Aux) {
    LinOk(a) && PendingOk(s, a) && DoneOk(a) && Covered(a)
  }

  ghost predicate Inv(c: Config) {
    Shape(c) && Legal(c) && History(c.s, c.a)
  }

  // ---------------------------------------------------------------- removing an event

  lemma {:induction false} WithoutMembers(lin: seq<Event>, e: Event)
    requires Sorted(lin)
    ensures Sorted(Without(lin, e))
    ensures forall f :: f in Without(lin, e) <==> f in lin && f != e
    decreases |lin|
  {
    if lin != [] {
      var n := |lin| - 1;
      WithoutMembers(lin[..n], e);
      assert lin == lin[..n] + [lin[n]];
      var rest := Without(lin[..n], e);
      assert forall f :: f in rest ==> f in lin[..n];
      if lin[n] != e {
        forall i | 0 <= i < |rest|
          ensures rest[i].at < lin[n].at
        {
          assert rest[i] in rest;
        }
      }
    }
  }

  /** An empty answer does not change the queue, so it can be withdrawn. */
  lemma {:induction false} WithoutEmptyAnswer(lin: seq<Event>, e: Event)
    requires e.op == FoundEmpty
    ensures Fifo(lin).Holds? ==> Fifo(Without(lin, e)) == Fifo(lin)
    decreases |lin|
  {
    if lin != [] {
      var n := |lin| - 1;
      WithoutEmptyAnswer(lin[..n], e);
      if lin[n] != e {
        var rest := Without(lin[..n], e);
        assert (rest + [lin[n]])[..|rest|] == rest;
      }
    }
  }

  // ---------------------------------------------------------------- one step

  /** How a step moves its own thread in and out of the linearized points. */
  ghost predicate Agrees(s: State, t: Tid, e: Effect, s': State) {
    var pc, pc' := PcOf(s, t), PcOf(s', t);
    match e
    case Silent => Linearized(pc) == Linearized(pc') && (Linearized(pc) ==> PendingOp(s', pc') == PendingOp(s, pc))
    case Links(n) => !Linearized(pc) && Linearized(pc') && n < |s.nodes| && PendingOp(s', pc') == Put(s.nodes[n].value)
    case Takes(v) => !Linearized(pc) && Linearized(pc') && PendingOp(s', pc') == Took(v)
    case SeesEmpty => !Linearized(pc) && Linearized(pc') && PendingOp(s', pc') == FoundEmpty
    case Retracts => Linearized(pc) && !Linearized(pc') && PendingOp(s, pc) == FoundEmpty
    case Returns(op) => Linearized(pc) && !Linearized(pc') && PendingOp(s, pc) == op
  }

  lemma PcAgreesEnqueue(s: State, a: Aux, t: Tid)
    requires ChainOk(s, a) && PcOk(s, a, PcOf(s, t))
    requires !Dequeuing(PcOf(s, t))
    ensures Agrees(s, t, EffectOf(s, t), Step(s, t))
  {
  }

  lemma PcAgreesDequeue(s: State, a: Aux, t: Tid)
    requires ChainOk(s, a) && PcOk(s, a, PcOf(s, t))
    requires Dequeuing(PcOf(s, t))
    ensures Agrees(s, t, EffectOf(s, t), Step(s, t))
  {
    if PcOf(s, t).DeqLoadNext? {
      LastHasNilNext(s, a, s.pcs[t].head);
      LastHasNilNext(s, a, s.pcs[t].tail);
    }
  }

  /** Nothing changed for the calls of the other threads. */
  ghost predicate OthersSame(s: State, s': State, t: Tid) {
    forall u :: u != t ==>
      && PcOf(s', u) == PcOf(s, u)
      && (Linearized(PcOf(s, u)) ==> PendingOp(s', PcOf(s, u)) == PendingOp(s, PcOf(s, u)))
  }

  /** A step touches no value. */
  lemma StepKeepsValues(s: State, t: Tid)
    ensures |Step(s, t).nodes| == |s.nodes|
    ensures forall p :: 0 <= p < |s.nodes| ==> Step(s, t).nodes[p].value == s.nodes[p].value
  {
    if !PcOf(s, t).EnqLink? {
      assert Step(s, t).nodes == s.nodes;
    }
  }

  /** A step touches no other thread. */
  lemma StepKeepsOthers(s: State, t: Tid, u: Tid)
    requires u != t
    ensures PcOf(Step(s, t), u) == PcOf(s, u)
  {
  }

  lemma OthersSameAfter(s: State, t: Tid, s': State)
    requires |s'.nodes| == |s.nodes| && forall p :: 0 <= p < |s.nodes| ==> s'.nodes[p].value == s.nodes[p].value
    requires forall u :: u != t ==> PcOf(s', u) == PcOf(s, u)
    ensures OthersSame(s, s', t)
  {
  }

  lemma StepOthersSame(s: State, t: Tid)
    ensures OthersSame(s, Step(s, t), t)
  {
    StepKeepsValues(s, t);
    forall u | u != t
      ensures PcOf(Step(s, t), u) == PcOf(s, u)
    {
      StepKeepsOthers(s, t, u);
    }
    OthersSameAfter(s, t, Step(s, t));
  }

  lemma NewEventLin(a: Aux, t: Tid, op: Outcome)
    requires LinOk(a) && BeganAt(a, t) <= a.now
    ensures LinOk(WithEvent(a, t, op).(now := a.now + 1))
    ensures forall f :: f in WithEvent(a, t, op).lin <==> f in a.lin || f == Event(t, op, BeganAt(a, t), a.now)
  {
    var a' := WithEvent(a, t, op);
    assert forall i :: 0 <= i < |a.lin| ==> a.lin[i] in a.lin;
  }

  lemma NewEventDone(a: Aux, t: Tid, op: Outcome)
    requires LinOk(a) && DoneOk(a)
    ensures DoneOk(WithEvent(a, t, op).(now := a.now + 1))
  {
    var a' := WithEvent(a, t, op).(now := a.now + 1);
    forall i | 0 <= i < |a.done|
      ensures a.done[i].at < a.now && EventOf(a.done[i]) in a'.lin
    {
      assert EventOf(a.done[i]) in a.lin;
    }
  }

  lemma NewEventCovered(a: Aux, t: Tid, op: Outcome)
    requires Covered(a) && t !in a.mine
    ensures Covered(WithEvent(a, t, op).(now := a.now + 1))
  {
    var a' := WithEvent(a, t, op).(now := a.now + 1);
    forall f | f in a'.lin
      ensures Answered(a', f)
    {
      if f in a.lin {
        assert Answered(a, f);
      }
    }
  }

  lemma NewEventPending(s: State, a: Aux, s': State, t: Tid, op: Outcome)
    requires PendingOk(s, a) && OthersSame(s, s', t)
    requires Linearized(PcOf(s', t)) && PendingOp(s', PcOf(s', t)) == op
    requires forall f :: f in a.lin ==> f in WithEvent(a, t, op).lin
    ensures PendingOk(s', WithEvent(a, t, op).(now := a.now + 1))
  {
  }

  lemma NewEvent(s: State, a: Aux, s': State, t: Tid, op: Outcome)
    requires History(s, a) && OthersSame(s, s', t)
    requires !Linearized(PcOf(s, t)) && Linearized(PcOf(s', t)) && PendingOp(s', PcOf(s', t)) == op
    ensures History(s', WithEvent(a, t, op).(now := a.now + 1))
  {
    NewEventLin(a, t, op);
    NewEventDone(a, t, op);
    NewEventCovered(a, t, op);
    NewEventPending(s, a, s', t, op);
  }

  lemma WithdrawnPending(s: State, a: Aux, s': State, t: Tid, a': Aux)
    requires PendingOk(s, a) && OthersSame(s, s', t)
    requires Linearized(PcOf(s, t)) && !Linearized(PcOf(s', t))
    requires a'.mine == a.mine - {t} && a'.began == a.began && a.now <= a'.now
    requires forall f :: f in a.lin && f.t != t ==> f in a'.lin
    ensures PendingOk(s', a')
  {
  }

  lemma WithdrawnEvent(s: State, a: Aux, s': State, t: Tid)
    requires History(s, a) && OthersSame(s, s', t)
    requires Linearized(PcOf(s, t)) && !Linearized(PcOf(s', t))
    ensures t in a.mine
    ensures History(s', Forget(a.(lin := Without(a.lin, a.mine[t])), t).(now := a.now + 1))
  {
    var e := a.mine[t];
    var a' := Forget(a.(lin := Without(a.lin, e)), t).(now := a.now + 1);
    WithoutMembers(a.lin, e);
    WithdrawnPending(s, a, s', t, a');
    forall f | f in a'.lin
      ensures Answered(a', f)
    {
      assert Answered(a, f);
    }
  }

  /** Distinct events have distinct times. */
  lemma TimesDiffer(a: Aux, e: Event, f: Event)
    requires Sorted(a.lin) && e in a.lin && f in a.lin && e != f
    ensures e.at != f.at
  {
    var i :| 0 <= i < |a.lin| && a.lin[i] == e;
    var j :| 0 <= j < |a.lin| && a.lin[j] == f;
  }

  lemma ReturnedDone(a: Aux, t: Tid, r: Reply)
    requires LinOk(a) && DoneOk(a) && t in a.mine && a.mine[t] in a.lin
    requires EventOf(r) == a.mine[t] && r.end == a.now
    requires forall u :: u in a.mine ==> a.mine[u] in a.lin && a.mine[u].t == u
    ensures DoneOk(Forget(a.(done := a.done + [r]), t).(now := a.now + 1))
  {
    forall u | u in a.mine && u != t
      ensures r.at != a.mine[u].at
    {
      TimesDiffer(a, a.mine[t], a.mine[u]);
    }
  }

  lemma ReturnedCovered(a: Aux, t: Tid, r: Reply)
    requires Covered(a) && t in a.mine && EventOf(r) == a.mine[t]
    ensures Covered(Forget(a.(done := a.done + [r]), t).(now := a.now + 1))
  {
    var a' := Forget(a.(done := a.done + [r]), t).(now := a.now + 1);
    assert EventOf(a'.done[|a.done|]) == a.mine[t];
    forall f | f in a'.lin
      ensures Answered(a', f)
    {
      assert Answered(a, f);
      if !(f.t in a.mine && a.mine[f.t] == f) {
        var i :| 0 <= i < |a.done| && EventOf(a.done[i]) == f;
        assert EventOf(a'.done[i]) == f;
      }
    }
  }

  lemma Returned(s: State, a: Aux, s': State, t: Tid)
    requires History(s, a) && OthersSame(s, s', t)
    requires Linearized(PcOf(s, t)) && !Linearized(PcOf(s', t))
    ensures t in a.mine
    ensures var r := Reply(t, PendingOp(s, PcOf(s, t)), BeganAt(a, t), a.mine[t].at, a.now);
      History(s', Forget(a.(done := a.done + [r]), t).(now := a.now + 1))
  {
    var e := a.mine[t];
    var r := Reply(t, e.op, e.start, e.at, a.now);
    ReturnedDone(a, t, r);
    ReturnedCovered(a, t, r);
    WithdrawnPending(s, a, s', t, Forget(a.(done := a.done + [r]), t).(now := a.now + 1));
  }

  lemma Unchanged(s: State, a: Aux, s': State, a': Aux, t: Tid)
    requires History(s, a) && OthersSame(s, s', t)
    requires Linearized(PcOf(s', t)) == Linearized(PcOf(s, t))
    requires Linearized(PcOf(s, t)) ==> PendingOp(s', PcOf(s', t)) == PendingOp(s, PcOf(s, t)) && a'.began == a.began
    requires a'.began == a.began || a'.began == a.began[t := a.now]
    requires a'.lin == a.lin && a'.mine == a.mine && a'.done == a.done && a'.now == a.now + 1
    ensures History(s', a')
  {
    forall f | f in a'.lin
      ensures Answered(a', f)
    {
      assert Answered(a, f);
    }
  }

  // ---------------------------------------------------------------- every step

  lemma StepAgrees(s: State, a: Aux, t: Tid)
    requires ChainOk(s, a) && ThreadsOk(s, a)
    ensures Agrees(s, t, EffectOf(s, t), Step(s, t))
  {
    assert PcOk(s, a, PcOf(s, t));
    if Dequeuing(PcOf(s, t)) {
      PcAgreesDequeue(s, a, t);
    } else {
      PcAgreesEnqueue(s, a, t);
    }
  }

  lemma HistoryIgnoresChain(s: State, a: Aux, a': Aux)
    requires History(s, a)
    requires a' == a.(chain := a'.chain, pos := a'.pos)
    ensures History(s, a')
  {
    forall f | f in a'.lin
      ensures Answered(a', f)
    {
      assert Answered(a, f);
    }
  }

  lemma HistoryAddsLink(s: State, a: Aux, a': Aux, t: Tid, n: Ptr, s': State)
    requires Agrees(s, t, Links(n), s') && OthersSame(s, s', t) && History(s, a)
    requires a' == a.(chain := a'.chain, pos := a'.pos)
    ensures History(s', WithEvent(a', t, Put(s.nodes[n].value)).(now := a.now + 1))
  {
    HistoryIgnoresChain(s, a, a');
    NewEvent(s, a', s', t, Put(s.nodes[n].value));
  }

  lemma HistoryAdds(s: State, a: Aux, t: Tid, e: Effect, s': State)
    requires Agrees(s, t, e, s') && OthersSame(s, s', t) && History(s, a)
    requires e.Links? || e.Takes? || e.SeesEmpty?
    ensures History(s', Note(s, a, t, e).(now := a.now + 1))
  {
    match e {
      case Links(n) => HistoryAddsLink(s, a, Extend(a, n), t, n, s');
      case Takes(v) => NewEvent(s, a, s', t, Took(v));
      case SeesEmpty => NewEvent(s, a, s', t, FoundEmpty);
    }
  }

  lemma HistoryAfter(s: State, a: Aux, t: Tid, e: Effect, s': State)
    requires Agrees(s, t, e, s') && OthersSame(s, s', t) && History(s, a)
    ensures History(s', Note(s, a, t, e).(now := a.now + 1))
    ensures e.Retracts? ==> t in a.mine && a.mine[t].op == FoundEmpty
  {
    match e {
      case Silent => Unchanged(s, a, s', a.(now := a.now + 1), t);
      case Retracts => WithdrawnEvent(s, a, s', t);
      case Returns(op) => Returned(s, a, s', t);
      case _ => HistoryAdds(s, a, t, e, s');
    }
  }

  lemma FifoSnoc(lin: seq<Event>, e: Event)
    ensures Fifo(lin + [e]) == Apply1(Fifo(lin), e.op)
  {
    assert (lin + [e])[..|lin|] == lin;
  }

  /** The queue after an effect. */
  function After(q: seq<Task>, s: State, e: Effect): seq<Task> {
    match e
    case Links(n) => if n < |s.nodes| then q + [s.nodes[n].value] else q
    case Takes(v) => if q != [] then q[1..] else q
    case _ => q
  }

  /** The effect is allowed on the queue. */
  ghost predicate Fits(q: seq<Task>, s: State, e: Effect) {
    && (e.Links? ==> e.n < |s.nodes|)
    && (e.Takes? ==> q != [] && q[0] == e.v)
    && (e.SeesEmpty? ==> q == [])
  }

  lemma FifoNote(q: seq<Task>, s: State, a: Aux, t: Tid, e: Effect)
    requires Fifo(a.lin) == Holds(q) && Fits(q, s, e)
    requires e.Retracts? ==> t in a.mine && a.mine[t].op == FoundEmpty
    ensures Fifo(Note(s, a, t, e).lin) == Holds(After(q, s, e))
  {
    if e.Links? {
      FifoSnoc(a.lin, Event(t, Put(s.nodes[e.n].value), BeganAt(a, t), a.now));
    } else if e.Takes? {
      FifoSnoc(a.lin, Event(t, Took(e.v), BeganAt(a, t), a.now));
    } else if e.SeesEmpty? {
      FifoSnoc(a.lin, Event(t, FoundEmpty, BeganAt(a, t), a.now));
    } else if e.Retracts? {
      WithoutEmptyAnswer(a.lin, a.mine[t]);
    }
  }

  lemma LinkAbs(s: State, a: Aux, t: Tid, a': Aux)
    requires ChainOk(s, a) && PcOk(s, a, PcOf(s, t)) && EffectOf(s, t).Links?
    requires ChainOk(Step(s, t), a') && a'.chain == a.chain + [EffectOf(s, t).n]
    requires a'.pos == a.pos[EffectOf(s, t).n := |a.chain|]
    ensures EffectOf(s, t).n < |s.nodes|
    ensures Abs(Config(Step(s, t), a')) == Abs(Config(s, a)) + [s.nodes[EffectOf(s, t).n].value]
  {
    LinkAppends(s, a, t);
    SameHeadSameAbs(Step(s, t), Extend(a, EffectOf(s, t).n), Step(s, t), a');
  }

  lemma OtherAbs(s: State, a: Aux, t: Tid, a': Aux)
    requires ChainOk(s, a) && PcOk(s, a, PcOf(s, t)) && !EffectOf(s, t).Links?
    requires ChainOk(Step(s, t), a') && a'.chain == a.chain && a'.pos == a.pos
    ensures
      var q, q' := Abs(Config(s, a)), Abs(Config(Step(s, t), a'));
      match EffectOf(s, t)
      case Takes(v) => q == [v] + q'
      case SeesEmpty => q == [] && q' == q
      case _ => q' == q
  {
    ShapeReadsChainOnly(Step(s, t), a', a);
    SameHeadSameAbs(Step(s, t), a, Step(s, t), a');
    if EffectOf(s, t).Takes? {
      TakeRemovesFirst(s, a, t);
    } else {
      OtherStepsKeepAbs(s, a, t);
      if EffectOf(s, t).SeesEmpty? {
        SeesEmptyIsEmpty(s, a, t);
      }
    }
  }

  /** A step changes the queue as its effect says: only a link and a take change it. */
  lemma AbsNote(s: State, a: Aux, t: Tid, a': Aux)
    requires ChainOk(s, a) && PcOk(s, a, PcOf(s, t))
    requires ChainOk(Step(s, t), a') && a'.chain == Note(s, a, t, EffectOf(s, t)).chain
    requires a'.pos == Note(s, a, t, EffectOf(s, t)).pos
    ensures Fits(Abs(Config(s, a)), s, EffectOf(s, t))
    ensures Abs(Config(Step(s, t), a')) == After(Abs(Config(s, a)), s, EffectOf(s, t))
  {
    if EffectOf(s, t).Links? {
      LinkChain(s, a, t);
      LinkAbs(s, a, t, a');
    } else {
      NoteKeepsChain(s, a, t, EffectOf(s, t));
      OtherAbs(s, a, t, a');
    }
  }

  lemma ShapeReadsChainOnly(s: State, a: Aux, a': Aux)
    requires ChainOk(s, a) && a'.chain == a.chain && a'.pos == a.pos
    ensures ChainOk(s, a')
  {
  }

  lemma RunAbs(c: Config, t: Tid)
    requires Shape(c)
    ensures Shape(Apply(c, Run(t)))
    ensures Fits(Abs(c), c.s, EffectOf(c.s, t)) && Abs(Apply(c, Run(t))) == After(Abs(c), c.s, EffectOf(c.s, t))
  {
    RunShape(c, t);
    assert PcOk(c.s, c.a, PcOf(c.s, t));
    AbsNote(c.s, c.a, t, Apply(c, Run(t)).a);
  }

  lemma StepLocal(s: State, a: Aux, t: Tid) returns (e: Effect, s': State)
    requires ChainOk(s, a) && ThreadsOk(s, a)
    ensures e == EffectOf(s, t) && s' == Step(s, t) && Agrees(s, t, e, s') && OthersSame(s, s', t)
  {
    e, s' := EffectOf(s, t), Step(s, t);
    StepAgrees(s, a, t);
    StepOthersSame(s, t);
  }

  lemma ApplyRun(c: Config, t: Tid, e: Effect, s': State)
    requires e == EffectOf(c.s, t) && s' == Step(c.s, t)
    ensures Apply(c, Run(t)) == Config(s', Note(c.s, c.a, t, e).(now := c.a.now + 1))
  {
  }

  lemma InvAfter(c: Config, t: Tid, e: Effect, c': Config)
    requires Inv(c) && Shape(c') && c'.a == Note(c.s, c.a, t, e).(now := c.a.now + 1)
    requires Agrees(c.s, t, e, c'.s) && OthersSame(c.s, c'.s, t)
    requires Fits(Abs(c), c.s, e) && Abs(c') == After(Abs(c), c.s, e)
    ensures Inv(c')
  {
    HistoryAfter(c.s, c.a, t, e, c'.s);
    FifoNote(Abs(c), c.s, c.a, t, e);
  }

  lemma RunInv(c: Config, t: Tid)
    requires Inv(c)
    ensures Inv(Apply(c, Run(t)))
  {
    var e, s' := StepLocal(c.s, c.a, t);
    ApplyRun(c, t, e, s');
    RunAbs(c, t);
    InvAfter(c, t, e, Apply(c, Run(t)));
  }

  lemma CallOthersSame(s: State, a: Aux, act: Action, a': Aux)
    requires ThreadsOk(s, a) && !act.Run?
    ensures OthersSame(s, Apply(Config(s, a), act).s, act.t)
  {
    forall u | u != act.t && Linearized(PcOf(s, u))
      ensures PendingOp(Apply(Config(s, a), act).s, PcOf(s, u)) == PendingOp(s, PcOf(s, u))
    {
      assert PcOk(s, a, s.pcs[u]);
    }
  }

  lemma SuffixOfMoreNodes(nodes: seq<Node>, more: seq<Node>, ps: seq<Ptr>, k: nat)
    requires k <= |ps| && forall i :: 0 <= i < |ps| ==> ps[i] < |nodes|
    ensures Suffix(nodes + more, ps, k) == Suffix(nodes, ps, k)
  {
  }

  lemma MoreNodesSameAbs(s: State, a: Aux, s': State, a': Aux, more: seq<Node>)
    requires ChainOk(s, a) && ChainOk(s', a') && a'.chain == a.chain && a'.pos == a.pos
    requires s'.head == s.head && s'.nodes == s.nodes + more
    ensures Abs(Config(s', a')) == Abs(Config(s, a))
  {
    SuffixOfMoreNodes(s.nodes, more, a.chain, a.pos[s.head] + 1);
  }

  lemma CallAbs(c: Config, act: Action)
    requires !act.Run? && ChainOk(c.s, c.a) && ChainOk(Apply(c, act).s, Apply(c, act).a)
    ensures Abs(Apply(c, act)) == Abs(c)
  {
    var more := if act.CallEnq? && PcOf(c.s, act.t) == Idle then [Node(act.v, Nil)] else [];
    MoreNodesSameAbs(c.s, c.a, Apply(c, act).s, Apply(c, act).a, more);
  }

  lemma CallHistory(c: Config, act: Action)
    requires Shape(c) && History(c.s, c.a) && !act.Run?
    ensures History(Apply(c, act).s, Apply(c, act).a)
    ensures Apply(c, act).a.lin == c.a.lin
  {
    CallOthersSame(c.s, c.a, act, c.a);
    Unchanged(c.s, c.a, Apply(c, act).s, Apply(c, act).a, act.t);
  }

  lemma CallInv(c: Config, act: Action)
    requires Inv(c) && !act.Run?
    ensures Inv(Apply(c, act))
  {
    CallShape(c, act);
    CallHistory(c, act);
    CallAbs(c, act);
  }

  lemma ApplyInv(c: Config, act: Action)
    requires Inv(c)
    ensures Inv(Apply(c, act)) && Apply(c, act).a.now == c.a.now + 1
  {
    if act.Run? {
      RunInv(c, act.t);
    } else {
      CallInv(c, act);
    }
  }

  // ---------------------------------------------------------------- theorems

  lemma ExecSnoc(sched: seq<Action>, act: Action)
    ensures Exec(sched + [act]) == Apply(Exec(sched), act)
  {
    assert (sched + [act])[..|sched|] == sched;
  }

  lemma InitInv()
    ensures Inv(InitConfig)
  {
    assert Suffix(Init.nodes, InitAux.chain, 1) == [];
  }

  /** The invariant holds after every schedule. */
  lemma {:induction false} Reachable(sched: seq<Action>)
    ensures Inv(Exec(sched)) && Exec(sched).a.now == |sched|
    decreases |sched|
  {
    if sched == [] {
      InitInv();
    } else {
      var n := |sched| - 1;
      Reachable(sched[..n]);
      ApplyInv(Exec(sched[..n]), sched[n]);
    }
  }

  /** No thread ever dereferences nil, and Head never overtakes Tail in the chain. */
  lemma NeverCrashes(sched: seq<Action>, t: Tid)
    ensures PcOf(Exec(sched).s, t) != Crashed
    ensures var c := Exec(sched); c.s.head in c.a.pos && c.s.tail in c.a.pos && c.a.pos[c.s.head] <= c.a.pos[c.s.tail]
  {
    Reachable(sched);
    var c := Exec(sched);
    assert t in c.s.pcs ==> PcOk(c.s, c.a, c.s.pcs[t]);
  }

  ghost predicate NextPath(nodes: seq<Node>, path: seq<Ptr>) {
    && path != []
    && (forall k :: 0 <= k < |path| ==> path[k] < |nodes|)
    && (forall k {:trigger nodes[path[k]]} :: 0 <= k < |path| - 1 ==> nodes[path[k]].next == To(path[k + 1]))
    && nodes[path[|path| - 1]].next == Nil
  }

  lemma {:induction false} WalkAlongChain(s: State, a: Aux, path: seq<Ptr>, i: nat)
    requires ChainOk(s, a) && NextPath(s.nodes, path) && i < |path| && path[0] == s.head
    ensures a.pos[s.head] + i < |a.chain| && path[i] == a.chain[a.pos[s.head] + i]
    decreases i
  {
    if i > 0 {
      WalkAlongChain(s, a, path, i - 1);
      LastHasNilNext(s, a, path[i - 1]);
      assert s.nodes[path[i - 1]].next == To(path[i]);
    }
  }

  lemma WalkIsQueue(s: State, a: Aux, path: seq<Ptr>)
    requires ChainOk(s, a) && NextPath(s.nodes, path) && path[0] == s.head
    ensures Values(s.nodes, path[1..]) == Abs(Config(s, a))
  {
    var h := a.pos[s.head];
    WalkAlongChain(s, a, path, |path| - 1);
    LastHasNilNext(s, a, path[|path| - 1]);
    forall i | 0 <= i < |path|
      ensures path[i] == a.chain[h + i]
    {
      WalkAlongChain(s, a, path, i);
    }
    assert path == a.chain[h..];
  }

  /** The linearization replays to exactly the values found by following Next from Head to nil. */
  lemma QueueIsThePointerWalk(sched: seq<Action>, path: seq<Ptr>)
    requires NextPath(Exec(sched).s.nodes, path) && path[0] == Exec(sched).s.head
    ensures Fifo(Exec(sched).a.lin) == Holds(Values(Exec(sched).s.nodes, path[1..]))
  {
    Reachable(sched);
    WalkIsQueue(Exec(sched).s, Exec(sched).a, path);
  }

  /** The event is that of the call which its thread is in. */
  ghost predicate InProgress(c: Config, e: Event) {
    && Linearized(PcOf(c.s, e.t)) && e.op == PendingOp(c.s, PcOf(c.s, e.t))
    && e.start == BeganAt(c.a, e.t)
  }

  /** Linearizability. The linearization replays on the sequential queue to exactly the current
   contents; each returned call owns an event with its own outcome, at a time between its call and
   its return; distinct calls own distinct events; every other event belongs to a call in progress,
   began with it, and is the only one of its thread; each call past its point has one. */
  lemma Linearizable(sched: seq<Action>)
    ensures Legal(Exec(sched))
    ensures
      var a := Exec(sched).a;
      && Sorted(a.lin)
      && (forall i :: 0 <= i < |a.done| ==>
            EventOf(a.done[i]) in a.lin && a.done[i].start <= a.done[i].at <= a.done[i].end < |sched|)
      && (forall i, j :: 0 <= i < j < |a.done| ==> a.done[i].at != a.done[j].at)
      && (forall e :: e in a.lin ==> Replied(a, e) || InProgress(Exec(sched), e))
      && (forall e, f :: e in a.lin && f in a.lin && e.t == f.t && !Replied(a, e) && !Replied(a, f) ==> e == f)
      && (forall t :: Linearized(PcOf(Exec(sched).s, t)) ==>
            t in a.mine && a.mine[t] in a.lin && a.mine[t].t == t && !Replied(a, a.mine[t]))
  {
    Reachable(sched);
    var c := Exec(sched);
    forall i | 0 <= i < |c.a.done|
      ensures c.a.done[i].start <= c.a.done[i].at
    {
      assert EventOf(c.a.done[i]) in c.a.lin;
    }
    forall e | e in c.a.lin
      ensures Answered(c.a, e)
    {
    }
  }

  lemma EventTimes(c: Config, k: nat)
    requires LinOk(c.a) && k < |c.a.lin|
    ensures c.a.lin[k].start <= c.a.lin[k].at && Sorted(c.a.lin)
  {
    assert c.a.lin[k] in c.a.lin;
  }

  lemma ReachableLin(sched: seq<Action>)
    ensures LinOk(Exec(sched).a)
  {
    Reachable(sched);
  }

  lemma SortedByTime(lin: seq<Event>, j: nat, k: nat)
    requires Sorted(lin) && j < |lin| && k < |lin| && lin[j].at < lin[k].at
    ensures j < k
  {
  }

  /** A call that returned before another began comes first in the linearization. */
  lemma RealTimeOrder(sched: seq<Action>, i: nat, j: nat, k: nat)
    requires var a := Exec(sched).a; i < |a.done| && j < |a.lin| && k < |a.lin|
    requires var a := Exec(sched).a; a.lin[j] == EventOf(a.done[i]) && a.done[i].end < a.lin[k].start
    ensures j < k
  {
    var a := Exec(sched).a;
    Linearizable(sched);
    ReachableLin(sched);
    EventTimes(Exec(sched), k);
    SortedByTime(a.lin, j, k);
  }

  function Puts(lin: seq<Event>): seq<Task> {
    if lin == [] then [] else Puts(lin[..|lin| - 1]) + if lin[|lin| - 1].op.Put? then [lin[|lin| - 1].op.v] else []
  }

  function Tooks(lin: seq<Event>): seq<Task> {
    if lin == [] then [] else Tooks(lin[..|lin| - 1]) + if lin[|lin| - 1].op.Took? then [lin[|lin| - 1].op.v] else []
  }

  /** Whatever was put is either already taken, in the same order, or still queued. */
  lemma {:induction false} TakenArePrefix(lin: seq<Event>)
    requires Fifo(lin).Holds?
    ensures Puts(lin) == Tooks(lin) + Fifo(lin).q
    decreases |lin|
  {
    if lin != [] {
      TakenArePrefix(lin[..|lin| - 1]);
    }
  }

  ghost predicate EmptyAt(sched: seq<Action>, k: nat) {
    k <= |sched| && ChainOk(Exec(sched[..k]).s, Exec(sched[..k]).a) && Abs(Exec(sched[..k])) == []
  }

  lemma CallKeepsLin(c: Config, act: Action)
    requires !act.Run?
    ensures Apply(c, act).a.lin == c.a.lin
  {
  }

  lemma NoteAddsEmptyAnswer(s: State, a: Aux, t: Tid, eff: Effect, e: Event)
    requires Sorted(a.lin)
    requires e in Note(s, a, t, eff).lin && e !in a.lin && e.op == FoundEmpty
    ensures eff.SeesEmpty? && e.at == a.now
  {
    if eff.Retracts? && t in a.mine {
      WithoutMembers(a.lin, a.mine[t]);
    }
  }

  lemma NewEventIs(c: Config, t: Tid, e: Event)
    requires Shape(c) && Sorted(c.a.lin)
    requires e in Apply(c, Run(t)).a.lin && e !in c.a.lin && e.op == FoundEmpty
    ensures Abs(c) == [] && e.at == c.a.now
  {
    NoteAddsEmptyAnswer(c.s, c.a, t, EffectOf(c.s, t), e);
    assert PcOk(c.s, c.a, PcOf(c.s, t));
    SeesEmptyIsEmpty(c.s, c.a, t);
  }

  lemma NewEmptyAnswer(c: Config, act: Action, e: Event)
    requires Shape(c) && Sorted(c.a.lin)
    requires e in Apply(c, act).a.lin && e !in c.a.lin && e.op == FoundEmpty
    ensures Abs(c) == [] && e.at == c.a.now
  {
    if act.Run? {
      NewEventIs(c, act.t, e);
    } else {
      CallKeepsLin(c, act);
      assert false;
    }
  }

  lemma EmptyStillSeen(sched: seq<Action>, before: seq<Action>, k: nat)
    requires before <= sched && k <= |before| && EmptyAt(before, k)
    ensures EmptyAt(sched, k)
  {
    assert before[..k] == sched[..k];
  }

  lemma EmptyFirstSeen(before: seq<Action>, act: Action, sched: seq<Action>, e: Event)
    requires sched == before + [act] && e in Exec(sched).a.lin && e !in Exec(before).a.lin && e.op == FoundEmpty
    ensures EmptyAt(sched, e.at)
  {
    Reachable(before);
    assert sched[..|sched| - 1] == before;
    NewEmptyAnswer(Exec(before), act, e);
    assert sched[..e.at] == before;
  }

  lemma {:induction false} EmptyWhenSeen(sched: seq<Action>, e: Event)
    requires e in Exec(sched).a.lin && e.op == FoundEmpty
    ensures EmptyAt(sched, e.at)
    decreases |sched|
  {
    if sched != [] {
      var before, act := sched[..|sched| - 1], sched[|sched| - 1];
      assert sched == before + [act];
      if e in Exec(before).a.lin {
        EmptyWhenSeen(before, e);
        EmptyStillSeen(sched, before, e.at);
      } else {
        EmptyFirstSeen(before, act, sched, e);
      }
    }
  }

  /** Whenever Dequeue answers nil there was a moment during that call when the queue was empty. */
  lemma EmptyAnswerIsTrue(sched: seq<Action>, i: nat)
    requires i < |Exec(sched).a.done| && Exec(sched).a.done[i].op == FoundEmpty
    ensures exists k :: Exec(sched).a.done[i].start <= k <= Exec(sched).a.done[i].end && EmptyAt(sched, k)
  {
    Linearizable(sched);
    var r := Exec(sched).a.done[i];
    EmptyWhenSeen(sched, EventOf(r));
    assert EmptyAt(sched, r.at);
  }
}
