/**
 The Length counter of the lock-free queue lags the list: it is incremented after a link and
 decremented after a take. IsEmpty reads only this counter, an int32 that wraps.
 */
module QueueLength {
  import opened LockFreeQueue
  import opened QueueLinearizability

  /** Enqueuers that have linked their node and not yet incremented Length. */
  ghost function Uncounted(s: State): set<Tid> {
    set t | t in s.pcs && (s.pcs[t].EnqSwing? || s.pcs[t].EnqCount?)
  }

  /** Dequeuers that have moved Head and not yet decremented Length. */
  ghost function Overcounted(s: State): set<Tid> {
    set t | t in s.pcs && s.pcs[t].DeqCount?
  }

  predicate IsEmpty(s: State) {
    s.length == 0
  }

  /** The number of nodes after Head. */
  ghost function Size(c: Config): int {
    if c.s.head in c.a.pos then |c.a.chain| - 1 - c.a.pos[c.s.head] else 0
  }

  lemma SizeIsLength(c: Config)
    requires ChainOk(c.s, c.a)
    ensures Size(c) == |Abs(c)|
  {
  }

  ghost predicate LengthOk(c: Config) {
    c.s.length == Wrap32(Size(c) - |Uncounted(c.s)| + |Overcounted(c.s)|)
  }

  lemma WrapAdds(x: int, d: int)
    ensures Wrap32(Wrap32(x) + d) == Wrap32(x + d)
  {
  }

  /** How the counter and the in-flight sets move with an effect. */
  ghost predicate Counts(s: State, t: Tid, e: Effect, s': State) {
    match e
    case Links(_) => s'.length == s.length && t !in Uncounted(s) && Uncounted(s') == Uncounted(s) + {t}
        && Overcounted(s') == Overcounted(s)
    case Takes(_) =>
      s'.length == s.length && t !in Overcounted(s) && Uncounted(s') == Uncounted(s)
          && Overcounted(s') == Overcounted(s) + {t}
    case Returns(op) =>
      if op.Put? then
        s'.length == Wrap32(s.length + 1) && t in Uncounted(s) && Uncounted(s') == Uncounted(s) - {t}
            && Overcounted(s') == Overcounted(s)
      else if op.Took? then
        s'.length == Wrap32(s.length - 1) && t in Overcounted(s) && Uncounted(s') == Uncounted(s)
            && Overcounted(s') == Overcounted(s) - {t}
      else s'.length == s.length && Uncounted(s') == Uncounted(s) && Overcounted(s') == Overcounted(s)
    case _ => s'.length == s.length && Uncounted(s') == Uncounted(s) && Overcounted(s') == Overcounted(s)
  }

  lemma SetsAfter(s: State, t: Tid, s': State, pc': Pc)
    requires s'.pcs == s.pcs[t := pc']
    ensures Uncounted(s') == if pc'.EnqSwing? || pc'.EnqCount? then Uncounted(s) + {t} else Uncounted(s) - {t}
    ensures Overcounted(s') == if pc'.DeqCount? then Overcounted(s) + {t} else Overcounted(s) - {t}
  {
  }

  lemma StepCountsEnqueue(s: State, a: Aux, t: Tid)
    requires ChainOk(s, a) && PcOk(s, a, PcOf(s, t)) && PcOf(s, t) != Idle && !Dequeuing(PcOf(s, t))
    ensures Counts(s, t, EffectOf(s, t), Step(s, t))
  {
    SetsAfter(s, t, Step(s, t), PcOf(Step(s, t), t));
  }

  lemma StepCountsDequeue(s: State, a: Aux, t: Tid)
    requires ChainOk(s, a) && PcOk(s, a, PcOf(s, t)) && Dequeuing(PcOf(s, t))
    ensures Counts(s, t, EffectOf(s, t), Step(s, t))
  {
    SetsAfter(s, t, Step(s, t), PcOf(Step(s, t), t));
  }

  lemma StepCounts(s: State, a: Aux, t: Tid)
    requires ChainOk(s, a) && PcOk(s, a, PcOf(s, t))
    ensures Counts(s, t, EffectOf(s, t), Step(s, t))
  {
    if Dequeuing(PcOf(s, t)) {
      StepCountsDequeue(s, a, t);
    } else if PcOf(s, t) != Idle {
      StepCountsEnqueue(s, a, t);
    }
  }

  lemma LengthOkAfter(c: Config, t: Tid, e: Effect, c': Config)
    requires LengthOk(c) && Counts(c.s, t, e, c'.s)
    requires Size(c') == if e.Links? then Size(c) + 1 else if e.Takes? then Size(c) - 1 else Size(c)
    ensures LengthOk(c')
  {
    var balance := Size(c) - |Uncounted(c.s)| + |Overcounted(c.s)|;
    var balance' := Size(c') - |Uncounted(c'.s)| + |Overcounted(c'.s)|;
    if e.Returns? && e.op.Put? {
      assert balance' == balance + 1;
      WrapAdds(balance, 1);
    } else if e.Returns? && e.op.Took? {
      assert balance' == balance - 1;
      WrapAdds(balance, -1);
    } else {
      assert balance' == balance;
    }
  }

  lemma RunSize(c: Config, t: Tid)
    requires Shape(c)
    ensures var e := EffectOf(c.s, t);
            Size(Apply(c, Run(t))) == if e.Links? then Size(c) + 1 else if e.Takes? then Size(c) - 1 else Size(c)
  {
    RunAbs(c, t);
    SizeIsLength(c);
    SizeIsLength(Apply(c, Run(t)));
  }

  lemma RunLength(c: Config, t: Tid)
    requires Shape(c) && LengthOk(c)
    ensures LengthOk(Apply(c, Run(t)))
  {
    RunSize(c, t);
    assert PcOk(c.s, c.a, PcOf(c.s, t));
    StepCounts(c.s, c.a, t);
    ApplyRun(c, t, EffectOf(c.s, t), Step(c.s, t));
    LengthOkAfter(c, t, EffectOf(c.s, t), Apply(c, Run(t)));
  }

  lemma CallCounts(s: State, a: Aux, act: Action)
    requires !act.Run?
    ensures var s' := Apply(Config(s, a), act).s;
            s'.length == s.length && Uncounted(s') == Uncounted(s) && Overcounted(s') == Overcounted(s)
  {
    if PcOf(s, act.t) == Idle {
      var s' := Apply(Config(s, a), act).s;
      SetsAfter(s, act.t, s', PcOf(s', act.t));
      assert act.t !in Uncounted(s) && act.t !in Overcounted(s);
    }
  }

  lemma CallLength(c: Config, act: Action)
    requires LengthOk(c) && !act.Run?
    ensures LengthOk(Apply(c, act))
  {
    CallCounts(c.s, c.a, act);
    assert Size(Apply(c, act)) == Size(c);
  }

  lemma ApplyLength(c: Config, act: Action)
    requires Shape(c) && LengthOk(c)
    ensures LengthOk(Apply(c, act))
  {
    if act.Run? {
      RunLength(c, act.t);
    } else {
      CallLength(c, act);
    }
  }

  lemma {:induction false} LengthInvariant(sched: seq<Action>)
    ensures LengthOk(Exec(sched))
    decreases |sched|
  {
    if sched != [] {
      var n := |sched| - 1;
      LengthInvariant(sched[..n]);
      Reachable(sched[..n]);
      ApplyLength(Exec(sched[..n]), sched[n]);
    }
  }

  /** Length is the queue size, minus the enqueuers between link and increment, plus the dequeuers
   between the Head swap and the decrement, as an int32. */
  ghost predicate Accounted(c: Config) {
    ChainOk(c.s, c.a) && c.s.length == Wrap32(|Abs(c)| - |Uncounted(c.s)| + |Overcounted(c.s)|)
  }

  lemma LengthOkAccounts(c: Config)
    requires ChainOk(c.s, c.a) && LengthOk(c)
    ensures Accounted(c)
  {
    SizeIsLength(c);
  }

  lemma ReachableChain(sched: seq<Action>)
    ensures ChainOk(Exec(sched).s, Exec(sched).a)
  {
    Reachable(sched);
  }

  /** The counter accounts for every interleaving. */
  lemma LengthAccounting(sched: seq<Action>)
    ensures Accounted(Exec(sched))
  {
    LengthInvariant(sched);
    ReachableChain(sched);
    LengthOkAccounts(Exec(sched));
  }

  lemma ZeroModulo(q: nat)
    ensures Wrap32(q) == 0 <==> q % 0x1_0000_0000 == 0
  {
  }

  lemma AtRest(c: Config)
    requires Accounted(c) && Uncounted(c.s) == {} && Overcounted(c.s) == {}
    ensures IsEmpty(c.s) <==> |Abs(c)| % 0x1_0000_0000 == 0
  {
    ZeroModulo(|Abs(c)|);
  }

  /** With no call in flight IsEmpty answers true exactly when the queue size is a multiple of 2^32. */
  lemma IsEmptyAtRest(sched: seq<Action>)
    requires forall t :: t in Exec(sched).s.pcs ==> Exec(sched).s.pcs[t] == Idle
    ensures ChainOk(Exec(sched).s, Exec(sched).a)
    ensures IsEmpty(Exec(sched).s) <==> |Abs(Exec(sched))| % 0x1_0000_0000 == 0
  {
    LengthAccounting(sched);
    assert Uncounted(Exec(sched).s) == {} && Overcounted(Exec(sched).s) == {};
    AtRest(Exec(sched));
  }

  /** A zero Length on a nonempty queue that no dequeuer is in: an enqueuer has still to count. */
  lemma ZeroLengthOnNonempty(c: Config)
    requires LengthOk(c) && IsEmpty(c.s) && Overcounted(c.s) == {}
    requires 0 < Size(c) < 0x1_0000_0000
    ensures Uncounted(c.s) != {}
  {
    ZeroModulo(Size(c));
  }

  /** So in every schedule without a dequeuer between its swap and its decrement. */
  lemma ZeroLengthInFlight(sched: seq<Action>)
    requires IsEmpty(Exec(sched).s) && Overcounted(Exec(sched).s) == {}
    ensures ChainOk(Exec(sched).s, Exec(sched).a)
    ensures 0 < |Abs(Exec(sched))| < 0x1_0000_0000 ==> Uncounted(Exec(sched).s) != {}
  {
    ReachableChain(sched);
    LengthInvariant(sched);
    SizeIsLength(Exec(sched));
    if 0 < |Abs(Exec(sched))| < 0x1_0000_0000 {
      ZeroLengthOnNonempty(Exec(sched));
    }
  }
}
