/**
 Progress of the lock-free queue: Tail is at most one node behind the end of the chain, a thread that runs alone
 returns within 15 of its steps from wherever the others stopped, and among any number of interleaved steps that is
 large enough for the number of threads some call returns.
 */
module QueueProgress {
  import opened LockFreeQueue
  import opened QueueLinearizability

  // ---------------------------------------------------------------- Tail is at most one behind

  /** The thread has linked the last node and is about to swing Tail to it. */
  ghost predicate Swinging(c: Config, t: Tid) {
    |c.a.chain| > 0 && PcOf(c.s, t) == EnqSwing(c.a.chain[|c.a.chain| - 1], c.s.tail)
  }

  /** Tail is the last node, or the one before it while the thread that linked the last one is on its way. */
  ghost predicate TailOk(c: Config) {
    && c.s.tail in c.a.pos && |c.a.chain| <= c.a.pos[c.s.tail] + 2
    && (|c.a.chain| == c.a.pos[c.s.tail] + 2 ==> exists t :: Swinging(c, t))
  }

  lemma LinkTail(c: Config, t: Tid, c': Config)
    requires Shape(c) && TailOk(c) && EffectOf(c.s, t).Links? && c' == Apply(c, Run(t))
    ensures TailOk(c')
    ensures c'.s.tail == c.s.tail == c.a.chain[|c.a.chain| - 1]
  {
    assert PcOk(c.s, c.a, c.s.pcs[t]);
    LinkChain(c.s, c.a, t);
    assert c.a.chain[c.a.pos[c.s.tail]] == c.s.tail;
    assert Swinging(c', t);
  }

  /** What any other step does to Tail and to the threads. */
  lemma OtherStep(s: State, a: Aux, t: Tid, s': State)
    requires ChainOk(s, a) && PcOk(s, a, PcOf(s, t)) && !EffectOf(s, t).Links? && s' == Step(s, t)
    ensures Behind(a, s.tail, s'.tail)
    ensures PcOf(s, t).EnqSwing? && PcOf(s, t).tail == s.tail ==> s'.tail == PcOf(s, t).n
    ensures forall u :: u != t ==> PcOf(s', u) == PcOf(s, u)
  {
    if PcOf(s, t) != Idle {
      StepPc(s, a, t);
    }
  }

  lemma OtherTail(c: Config, t: Tid, c': Config)
    requires Shape(c) && !EffectOf(c.s, t).Links? && c' == Apply(c, Run(t))
    ensures c'.a.chain == c.a.chain && c'.a.pos == c.a.pos && Behind(c.a, c.s.tail, c'.s.tail)
    ensures PcOf(c.s, t).EnqSwing? && PcOf(c.s, t).tail == c.s.tail ==> c'.s.tail == PcOf(c.s, t).n
    ensures forall u :: u != t ==> PcOf(c'.s, u) == PcOf(c.s, u)
  {
    var s' := Step(c.s, t);
    assert PcOk(c.s, c.a, PcOf(c.s, t));
    OtherStep(c.s, c.a, t, s');
    NoteKeepsChain(c.s, c.a, t, EffectOf(c.s, t));
    ApplyRun(c, t, EffectOf(c.s, t), s');
  }

  lemma OtherTailOk(c: Config, t: Tid, c': Config)
    requires Shape(c) && TailOk(c) && !EffectOf(c.s, t).Links? && c' == Apply(c, Run(t))
    ensures TailOk(c')
  {
    OtherTail(c, t, c');
    if c'.s.tail == c.s.tail && |c.a.chain| == c.a.pos[c.s.tail] + 2 {
      var u :| Swinging(c, u);
      assert c.a.pos[c.a.chain[|c.a.chain| - 1]] == |c.a.chain| - 1;
      assert Swinging(c', u);
    }
    assert c.a.chain[c.a.pos[c.s.tail]] == c.s.tail && c.a.chain[c.a.pos[c'.s.tail]] == c'.s.tail;
  }

  lemma CallTailOk(c: Config, act: Action, c': Config)
    requires TailOk(c) && !act.Run? && c' == Apply(c, act)
    ensures TailOk(c')
  {
    if |c.a.chain| == c.a.pos[c.s.tail] + 2 {
      var u :| Swinging(c, u);
      assert Swinging(c', u);
    }
  }

  lemma ApplyTailOk(c: Config, act: Action)
    requires Shape(c) && TailOk(c)
    ensures Shape(Apply(c, act)) && TailOk(Apply(c, act))
  {
    if !act.Run? {
      CallShape(c, act);
      CallTailOk(c, act, Apply(c, act));
    } else {
      RunShape(c, act.t);
      if EffectOf(c.s, act.t).Links? {
        LinkTail(c, act.t, Apply(c, act));
      } else {
        OtherTailOk(c, act.t, Apply(c, act));
      }
    }
  }

  lemma {:induction false} TailInvariant(sched: seq<Action>)
    ensures Shape(Exec(sched)) && TailOk(Exec(sched))
    decreases |sched|
  {
    Reachable(sched);
    if sched != [] {
      TailInvariant(sched[..|sched| - 1]);
      ApplyTailOk(Exec(sched[..|sched| - 1]), sched[|sched| - 1]);
    }
  }

  /** Tail is the last linked node, or the one before it; then the thread that linked the last one is about to
   swing Tail to it. */
  ghost predicate TailNear(s: State) {
    && s.tail < |s.nodes|
    && (s.nodes[s.tail].next.To? ==>
          var p := s.nodes[s.tail].next.p;
          p < |s.nodes| && s.nodes[p].next == Nil && exists t :: PcOf(s, t) == EnqSwing(p, s.tail))
  }

  lemma TailOkIsNear(c: Config)
    requires Shape(c) && TailOk(c)
    ensures TailNear(c.s)
  {
    LastHasNilNext(c.s, c.a, c.s.tail);
    if c.s.nodes[c.s.tail].next.To? {
      LastHasNilNext(c.s, c.a, c.s.nodes[c.s.tail].next.p);
      var t :| Swinging(c, t);
      assert PcOf(c.s, t) == EnqSwing(c.s.nodes[c.s.tail].next.p, c.s.tail);
    }
  }

  /** In every schedule Next from Tail reaches the end of the chain in at most one step, and Tail is the end
   itself unless a thread that linked the end has still to swing it. */
  lemma TailNearEnd(sched: seq<Action>)
    ensures TailNear(Exec(sched).s)
  {
    TailInvariant(sched);
    TailOkIsNear(Exec(sched));
  }

  // ---------------------------------------------------------------- a thread alone

  function NextOf(s: State, p: Ptr): Link {
    if p < |s.nodes| then s.nodes[p].next else Nil
  }

  /** 1 while Tail is behind. */
  function Lag(s: State): nat {
    if NextOf(s, s.tail) == Nil then 0 else 1
  }

  /** How many steps of its own a thread at this point needs at most to return, if the others stop. What it read
   may be out of date, and it may have to help with Tail once. */
  function StepsLeft(s: State, pc: Pc): nat {
    var help, helpDeq := 4 * Lag(s), 5 * Lag(s);
    match pc
    case Idle => 0
    case Crashed => 0
    case EnqLoadTail(_) => 6 + help
    case EnqLoadNext(_, tail) => if tail == s.tail then 5 + help else 8 + help
    case EnqCheckTail(_, tail, next) =>
      if tail != s.tail then 7 + help else if next == NextOf(s, tail) then 4 + help else 8 + help
    case EnqLink(_, tail) => if NextOf(s, tail) == Nil then 3 else 7 + help
    case EnqHelp(_, tail, _) => if tail == s.tail then 7 else 7 + help
    case EnqSwing(_, _) => 2
    case EnqCount(_) => 1
    case DeqLoadHead => 7 + helpDeq
    case DeqLoadTail(head) => if head == s.head then 6 + helpDeq else 10 + helpDeq
    case DeqLoadNext(head, tail) =>
      if head != s.head then 9 + helpDeq else if head == tail && tail != s.tail then 10 + helpDeq else 5 + helpDeq
    case DeqCheckHead(head, tail, next) =>
      if head != s.head then 8 + helpDeq
      else if head == tail && tail != s.tail && next.To? then 9 + helpDeq else 4 + helpDeq
    case DeqHelp(tail, _) => if tail == s.tail then 8 else 8 + helpDeq
    case DeqReadValue(head, _) => if head == s.head then 3 + helpDeq else 9 + helpDeq
    case DeqTake(head, _, _) => if head == s.head then 2 + helpDeq else 8 + helpDeq
    case DeqCount(_) => 1
  }

  lemma EnqueueAlone(s: State, a: Aux, t: Tid)
    requires ChainOk(s, a) && PcOk(s, a, PcOf(s, t)) && TailNear(s)
    requires PcOf(s, t) != Idle && !Dequeuing(PcOf(s, t))
    ensures StepsLeft(Step(s, t), PcOf(Step(s, t), t)) < StepsLeft(s, PcOf(s, t))
  {
    LastHasNilNext(s, a, s.tail);
    match s.pcs[t] {
      case EnqLoadNext(n, tail) => LastHasNilNext(s, a, tail);
      case EnqCheckTail(n, tail, next) => LastHasNilNext(s, a, tail);
      case EnqLink(n, tail) => LastHasNilNext(s, a, tail);
      case EnqHelp(n, tail, succ) => LastHasNilNext(s, a, tail);
      case _ =>
    }
  }

  lemma DequeueReads(s: State, a: Aux, t: Tid)
    requires ChainOk(s, a) && PcOk(s, a, PcOf(s, t)) && TailNear(s)
    requires PcOf(s, t).DeqLoadHead? || PcOf(s, t).DeqLoadTail? || PcOf(s, t).DeqLoadNext?
    ensures StepsLeft(Step(s, t), PcOf(Step(s, t), t)) < StepsLeft(s, PcOf(s, t))
  {
    LastHasNilNext(s, a, s.tail);
    match s.pcs[t] {
      case DeqLoadNext(head, tail) => LastHasNilNext(s, a, head);
      case _ =>
    }
  }

  lemma DequeueActs(s: State, a: Aux, t: Tid)
    requires ChainOk(s, a) && PcOk(s, a, PcOf(s, t)) && TailNear(s)
    requires Dequeuing(PcOf(s, t))
    requires !PcOf(s, t).DeqLoadHead? && !PcOf(s, t).DeqLoadTail? && !PcOf(s, t).DeqLoadNext?
    ensures StepsLeft(Step(s, t), PcOf(Step(s, t), t)) < StepsLeft(s, PcOf(s, t))
  {
    LastHasNilNext(s, a, s.tail);
    match s.pcs[t] {
      case DeqCheckHead(head, tail, next) => LastHasNilNext(s, a, head);
      case DeqHelp(tail, succ) => LastHasNilNext(s, a, tail);
      case _ =>
    }
  }

  lemma DequeueAlone(s: State, a: Aux, t: Tid)
    requires ChainOk(s, a) && PcOk(s, a, PcOf(s, t)) && TailNear(s)
    requires Dequeuing(PcOf(s, t))
    ensures StepsLeft(Step(s, t), PcOf(Step(s, t), t)) < StepsLeft(s, PcOf(s, t))
  {
    if PcOf(s, t).DeqLoadHead? || PcOf(s, t).DeqLoadTail? || PcOf(s, t).DeqLoadNext? {
      DequeueReads(s, a, t);
    } else {
      DequeueActs(s, a, t);
    }
  }

  lemma StepAlone(c: Config, t: Tid)
    requires Shape(c) && TailOk(c) && PcOf(c.s, t) != Idle
    ensures StepsLeft(Step(c.s, t), PcOf(Step(c.s, t), t)) < StepsLeft(c.s, PcOf(c.s, t))
  {
    TailOkIsNear(c);
    assert PcOk(c.s, c.a, PcOf(c.s, t));
    if Dequeuing(PcOf(c.s, t)) {
      DequeueAlone(c.s, c.a, t);
    } else {
      EnqueueAlone(c.s, c.a, t);
    }
  }

  function Alone(t: Tid, k: nat): seq<Action> {
    if k == 0 then [] else Alone(t, k - 1) + [Run(t)]
  }

  lemma AloneSnoc(sched: seq<Action>, t: Tid, k: nat)
    ensures sched + Alone(t, k + 1) == sched + Alone(t, k) + [Run(t)]
  {
  }

  lemma AloneNext(sched: seq<Action>, t: Tid, k: nat, c: Config, c': Config)
    requires c == Exec(sched + Alone(t, k)) && c' == Exec(sched + Alone(t, k + 1))
    ensures c' == Apply(c, Run(t))
  {
    AloneSnoc(sched, t, k);
    ExecSnoc(sched + Alone(t, k), Run(t));
  }

  ghost function LeftAt(sched: seq<Action>, t: Tid, k: nat): nat {
    StepsLeft(Exec(sched + Alone(t, k)).s, PcOf(Exec(sched + Alone(t, k)).s, t))
  }

  lemma AloneFalls(sched: seq<Action>, t: Tid, k: nat, c: Config, c': Config)
    requires c == Exec(sched + Alone(t, k)) && c' == Exec(sched + Alone(t, k + 1)) && PcOf(c.s, t) != Idle
    ensures StepsLeft(c'.s, PcOf(c'.s, t)) < StepsLeft(c.s, PcOf(c.s, t))
  {
    TailInvariant(sched + Alone(t, k));
    AloneNext(sched, t, k, c, c');
    StepAlone(c, t);
    ApplyRun(c, t, EffectOf(c.s, t), Step(c.s, t));
  }

  lemma LeftFalls(sched: seq<Action>, t: Tid, k: nat)
    requires PcOf(Exec(sched + Alone(t, k)).s, t) != Idle
    ensures LeftAt(sched, t, k + 1) < LeftAt(sched, t, k)
  {
    AloneFalls(sched, t, k, Exec(sched + Alone(t, k)), Exec(sched + Alone(t, k + 1)));
  }

  lemma {:induction false} ReturnsWithin(sched: seq<Action>, t: Tid, k: nat, n: nat) returns (j: nat)
    requires LeftAt(sched, t, k) <= n
    ensures j <= k + n && PcOf(Exec(sched + Alone(t, j)).s, t) == Idle
    decreases n
  {
    if PcOf(Exec(sched + Alone(t, k)).s, t) == Idle {
      j := k;
    } else {
      LeftFalls(sched, t, k);
      j := ReturnsWithin(sched, t, k + 1, n - 1);
    }
  }

  lemma NeverMore(s: State, pc: Pc)
    ensures StepsLeft(s, pc) <= 15
  {
  }

  /** Wherever the others have stopped, a thread that runs alone returns within 15 steps. */
  lemma AloneReturns(sched: seq<Action>, t: Tid) returns (k: nat)
    ensures k <= 15 && PcOf(Exec(sched + Alone(t, k)).s, t) == Idle
  {
    NeverMore(Exec(sched + Alone(t, 0)).s, PcOf(Exec(sched + Alone(t, 0)).s, t));
    k := ReturnsWithin(sched, t, 0, 15);
  }

  predicate SawEmpty(pc: Pc) {
    pc.DeqCheckHead? && pc.head == pc.tail && pc.next == Nil
  }

  /** A Dequeue alone at this point, on a queue of q0 when it began: it has taken the first value, or nothing yet, and
   it has seen the queue empty only if it was. */
  predicate Holding(q0: seq<Task>, q: seq<Task>, pc: Pc) {
    if pc.DeqCount? then q0 == [pc.task] + q else q == q0 && (SawEmpty(pc) ==> q0 == [])
  }

  /** And returned from this point: with the first value, or with nil from an empty queue. */
  predicate Gave(q0: seq<Task>, q: seq<Task>, pc: Pc) {
    if pc.DeqCount? then q0 == [pc.task] + q else q0 == [] && q == []
  }

  ghost predicate Dequeues(c0: Config, c: Config, t: Tid) {
    && Shape(c0) && Shape(c) && TailOk(c) && Dequeuing(PcOf(c.s, t))
    && Holding(Abs(c0), Abs(c), PcOf(c.s, t))
  }

  ghost predicate Dequeued(c0: Config, pc: Pc, c': Config, t: Tid) {
    && Shape(c0) && Shape(c') && TailOk(c') && PcOf(c'.s, t) == Idle
    && Gave(Abs(c0), Abs(c'), pc)
  }

  lemma DequeueBegins(c: Config, t: Tid, c': Config)
    requires Shape(c) && TailOk(c) && PcOf(c.s, t) == Idle && c' == Apply(c, CallDeq(t))
    ensures Dequeues(c, c', t)
  {
    ApplyTailOk(c, CallDeq(t));
    CallAbs(c, CallDeq(t));
  }

  /** Where a step of Dequeue leads, by its effect. */
  ghost predicate Leads(pc: Pc, e: Effect, pc': Pc) {
    && !e.Links? && (pc' == Idle || Dequeuing(pc'))
    && (e.Takes? <==> pc'.DeqCount?) && (e.Takes? ==> pc' == DeqCount(e.v) && !pc.DeqCount?)
    && (SawEmpty(pc') ==> e.SeesEmpty?)
    && (pc' == Idle ==> pc.DeqCount? || SawEmpty(pc)) && (pc.DeqCount? ==> pc' == Idle)
  }

  lemma DequeueLeads(s: State, a: Aux, t: Tid)
    requires ChainOk(s, a) && PcOk(s, a, PcOf(s, t)) && Dequeuing(PcOf(s, t))
    ensures Leads(PcOf(s, t), EffectOf(s, t), PcOf(Step(s, t), t))
  {
  }

  lemma HoldingNext(q0: seq<Task>, q: seq<Task>, pc: Pc, e: Effect, s: State, q': seq<Task>, pc': Pc)
    requires Holding(q0, q, pc) && Leads(pc, e, pc') && Fits(q, s, e) && q' == After(q, s, e)
    ensures if pc' == Idle then Gave(q0, q', pc) else Holding(q0, q', pc')
  {
  }

  lemma DequeueGoesOn(c0: Config, c: Config, t: Tid, c': Config)
    requires Dequeues(c0, c, t) && c' == Apply(c, Run(t))
    ensures if PcOf(c'.s, t) == Idle then Dequeued(c0, PcOf(c.s, t), c', t) else Dequeues(c0, c', t)
    ensures StepsLeft(c'.s, PcOf(c'.s, t)) < StepsLeft(c.s, PcOf(c.s, t))
  {
    var e, s' := EffectOf(c.s, t), Step(c.s, t);
    assert PcOk(c.s, c.a, PcOf(c.s, t));
    DequeueLeads(c.s, c.a, t);
    RunAbs(c, t);
    ApplyTailOk(c, Run(t));
    StepAlone(c, t);
    ApplyRun(c, t, e, s');
    HoldingNext(Abs(c0), Abs(c), PcOf(c.s, t), e, c.s, Abs(c'), PcOf(c'.s, t));
  }

  // ---------------------------------------------------------------- any number of threads

  ghost function Sum(f: Tid -> nat, ts: set<Tid>): nat {
    if ts == {} then 0 else
    var t :| t in ts;
    f(t) + Sum(f, ts - {t})
  }

  lemma {:induction false} SumWithout(f: Tid -> nat, ts: set<Tid>, t: Tid)
    requires t in ts
    ensures Sum(f, ts) == f(t) + Sum(f, ts - {t})
    decreases |ts|
  {
    var u :| u in ts && Sum(f, ts) == f(u) + Sum(f, ts - {u});
    if u != t {
      SumWithout(f, ts - {u}, t);
      SumWithout(f, ts - {t}, u);
      assert ts - {u} - {t} == ts - {t} - {u};
    }
  }

  lemma {:induction false} SumSame(f: Tid -> nat, g: Tid -> nat, ts: set<Tid>)
    requires forall t :: t in ts ==> f(t) == g(t)
    ensures Sum(f, ts) == Sum(g, ts)
    decreases |ts|
  {
    if ts != {} {
      var t :| t in ts;
      SumWithout(f, ts, t);
      SumWithout(g, ts, t);
      SumSame(f, g, ts - {t});
    }
  }

  /** One thread's share changes. */
  lemma SumMoves(f: Tid -> nat, g: Tid -> nat, ts: set<Tid>, t: Tid)
    requires t in ts && forall u :: u in ts && u != t ==> f(u) == g(u)
    ensures Sum(g, ts) - g(t) == Sum(f, ts) - f(t)
  {
    SumWithout(f, ts, t);
    SumWithout(g, ts, t);
    SumSame(f, g, ts - {t});
  }

  lemma OneTimeMore(m: nat, n: nat)
    ensures m * (n + 1) == m * n + m
  {
  }

  lemma {:induction false} SumAtMost(f: Tid -> nat, ts: set<Tid>, m: nat, n: nat)
    requires (forall t :: t in ts ==> f(t) <= m) && n == |ts|
    ensures Sum(f, ts) <= m * n
    decreases n
  {
    if n > 0 {
      var t :| t in ts;
      SumWithout(f, ts, t);
      SumAtMost(f, ts - {t}, m, n - 1);
      OneTimeMore(m, n - 1);
    }
  }

  /** A thread whose call has taken effect for good; an empty answer may still be withdrawn. */
  predicate Committed(pc: Pc) {
    pc.EnqSwing? || pc.EnqCount? || pc.DeqCount?
  }

  function OpenOf(s: State, t: Tid): nat {
    if Committed(PcOf(s, t)) then 0 else 1
  }

  /** An idle thread has its whole next call before it. */
  function WorkOf(s: State, t: Tid): nat {
    if PcOf(s, t) == Idle then 16 else StepsLeft(s, PcOf(s, t))
  }

  ghost function Open(s: State, ts: set<Tid>): nat {
    Sum(t => OpenOf(s, t), ts)
  }

  ghost function Work(s: State, ts: set<Tid>): nat {
    Sum(t => WorkOf(s, t), ts)
  }

  /** What the threads can still do before one of them returns: a link or a take commits a thread, and it takes a
   swing of Tail, a link or a take to make what the others read out of date. */
  ghost function Potential(s: State, ts: set<Tid>): nat {
    (2 * Open(s, ts) + Lag(s)) * (16 * |ts| + 1) + Work(s, ts)
  }

  function Bound(n: nat): nat {
    (2 * n + 1) * (16 * n + 1) + 16 * n
  }

  lemma WorkAtMost(s: State, ts: set<Tid>)
    ensures Work(s, ts) <= 16 * |ts|
  {
    SumAtMost(t => WorkOf(s, t), ts, 16, |ts|);
  }

  lemma PotentialAtMost(s: State, ts: set<Tid>)
    ensures Potential(s, ts) <= Bound(|ts|)
  {
    WorkAtMost(s, ts);
    SumAtMost(t => OpenOf(s, t), ts, 1, |ts|);
    Times(2 * Open(s, ts) + Lag(s), 2 * |ts| + 1, 16 * |ts| + 1);
  }

  lemma Times(a: nat, b: nat, c: nat)
    requires a <= b
    ensures a * c <= b * c
  {
  }

  /** The first part fell, or the second did. */
  lemma Falls(major: nat, minor: nat, major': nat, minor': nat, n: nat)
    requires minor' <= n && (major' < major || (major' == major && minor' < minor))
    ensures major' * (n + 1) + minor' < major * (n + 1) + minor
  {
    if major' < major {
      Times(major' + 1, major, n + 1);
      assert (major' + 1) * (n + 1) == major' * (n + 1) + (n + 1);
    }
  }

  /** The step does something: a call starts, or a thread inside one moves. */
  predicate Effective(c: Config, act: Action) {
    act.Run? <==> PcOf(c.s, act.t) != Idle
  }

  /** The pointers stay. */
  ghost predicate SamePointers(s: State, s': State) {
    s'.head == s.head && s'.tail == s.tail && forall p: Ptr :: NextOf(s', p) == NextOf(s, p)
  }

  lemma SameWork(s: State, s': State, t: Tid)
    requires SamePointers(s, s') && PcOf(s', t) == PcOf(s, t)
    ensures WorkOf(s', t) == WorkOf(s, t)
  {
  }

  /** How a step that is not a return moves the shared pointers and its own thread. */
  ghost predicate Moves(s: State, t: Tid, s': State) {
    && (forall u :: u != t ==> PcOf(s', u) == PcOf(s, u))
    && if SamePointers(s, s') then
         OpenOf(s', t) == OpenOf(s, t) && WorkOf(s', t) < WorkOf(s, t)
       else
         2 * OpenOf(s', t) + Lag(s') < 2 * OpenOf(s, t) + Lag(s)
  }

  lemma MovesFall(s: State, t: Tid, s': State, ts: set<Tid>)
    requires Moves(s, t, s') && t in ts
    ensures Potential(s', ts) < Potential(s, ts)
  {
    SumMoves(u => OpenOf(s, u), u => OpenOf(s', u), ts, t);
    WorkAtMost(s', ts);
    if SamePointers(s, s') {
      assert Lag(s') == Lag(s);
      forall u | u in ts && u != t
        ensures WorkOf(s', u) == WorkOf(s, u)
      {
        SameWork(s, s', u);
      }
      SumMoves(u => WorkOf(s, u), u => WorkOf(s', u), ts, t);
    }
    Falls(2 * Open(s, ts) + Lag(s), Work(s, ts), 2 * Open(s', ts) + Lag(s'), Work(s', ts), 16 * |ts|);
  }

  lemma LinkMoves(c: Config, t: Tid, c': Config)
    requires Shape(c) && TailOk(c) && EffectOf(c.s, t).Links? && c' == Apply(c, Run(t))
    ensures Moves(c.s, t, c'.s)
  {
    LinkTail(c, t, c');
    LastHasNilNext(c.s, c.a, c.s.tail);
    assert NextOf(c.s, c.s.tail) == Nil && NextOf(c'.s, c.s.tail) != Nil;
  }

  /** A step other than a link leaves the links, and moves Head only by a take, which commits the thread. */
  lemma OtherPointers(s: State, a: Aux, t: Tid, s': State)
    requires ChainOk(s, a) && PcOk(s, a, PcOf(s, t)) && !EffectOf(s, t).Links? && s' == Step(s, t)
    requires PcOf(s', t) != Idle
    ensures forall p: Ptr :: NextOf(s', p) == NextOf(s, p)
    ensures if EffectOf(s, t).Takes? then s'.head != s.head && OpenOf(s', t) < OpenOf(s, t) && s'.tail == s.tail
            else s'.head == s.head && OpenOf(s', t) == OpenOf(s, t)
  {
    StepFrame(s, t);
  }

  lemma TailMoved(c: Config, t: Tid, c': Config)
    requires Shape(c) && TailOk(c) && TailOk(c') && Shape(c') && !EffectOf(c.s, t).Links? && c' == Apply(c, Run(t))
    requires c'.s.tail != c.s.tail
    ensures Lag(c.s) == 1 && Lag(c'.s) == 0
  {
    OtherTail(c, t, c');
    assert c.a.chain[c.a.pos[c.s.tail]] == c.s.tail && c.a.chain[c.a.pos[c'.s.tail]] == c'.s.tail;
    LastHasNilNext(c.s, c.a, c.s.tail);
    LastHasNilNext(c'.s, c'.a, c'.s.tail);
  }

  lemma OtherMoves(c: Config, t: Tid, c': Config)
    requires Shape(c) && TailOk(c) && Shape(c') && TailOk(c') && !EffectOf(c.s, t).Links? && c' == Apply(c, Run(t))
    requires PcOf(c.s, t) != Idle && PcOf(c'.s, t) != Idle && c'.s == Step(c.s, t)
    ensures Moves(c.s, t, c'.s)
  {
    assert PcOk(c.s, c.a, PcOf(c.s, t));
    OtherPointers(c.s, c.a, t, c'.s);
    StepAlone(c, t);
    OtherTail(c, t, c');
    if c'.s.tail != c.s.tail {
      TailMoved(c, t, c');
    }
  }

  lemma CallMoves(c: Config, act: Action, c': Config)
    requires Shape(c) && !act.Run? && PcOf(c.s, act.t) == Idle && c' == Apply(c, act)
    ensures Moves(c.s, act.t, c'.s)
  {
    forall p: Ptr
      ensures NextOf(c'.s, p) == NextOf(c.s, p)
    {
    }
  }

  /** Every step that does something and is not a return uses up potential. */
  lemma StepFalls(c: Config, act: Action, c': Config, ts: set<Tid>)
    requires Shape(c) && TailOk(c) && Effective(c, act) && act.t in ts && c' == Apply(c, act)
    requires PcOf(c'.s, act.t) != Idle
    ensures Potential(c'.s, ts) < Potential(c.s, ts)
  {
    ApplyTailOk(c, act);
    if !act.Run? {
      CallMoves(c, act, c');
    } else if EffectOf(c.s, act.t).Links? {
      LinkMoves(c, act.t, c');
    } else {
      ApplyRun(c, act.t, EffectOf(c.s, act.t), Step(c.s, act.t));
      OtherMoves(c, act.t, c');
    }
    MovesFall(c.s, act.t, c'.s, ts);
  }

  /** The schedule and the first k actions of `more`. */
  ghost function Extended(sched: seq<Action>, more: seq<Action>, k: nat): Config
    requires k <= |more|
  {
    Exec(sched + more[..k])
  }

  lemma PrefixSnoc(sched: seq<Action>, more: seq<Action>, k: nat)
    requires k < |more|
    ensures sched + more[..k + 1] == sched + more[..k] + [more[k]]
  {
  }

  lemma AfterNext(sched: seq<Action>, more: seq<Action>, k: nat)
    requires k < |more|
    ensures Extended(sched, more, k + 1) == Apply(Extended(sched, more, k), more[k])
  {
    PrefixSnoc(sched, more, k);
    ExecSnoc(sched + more[..k], more[k]);
  }

  /** Action k of `more` is a return. */
  ghost predicate ReturnsAt(sched: seq<Action>, more: seq<Action>, k: nat)
    requires k < |more|
  {
    PcOf(Extended(sched, more, k + 1).s, more[k].t) == Idle
  }

  ghost predicate EffectiveAt(sched: seq<Action>, more: seq<Action>, k: nat)
    requires k < |more|
  {
    Effective(Extended(sched, more, k), more[k])
  }

  ghost function PotentialAt(sched: seq<Action>, more: seq<Action>, ts: set<Tid>, k: nat): nat
    requires k <= |more|
  {
    Potential(Extended(sched, more, k).s, ts)
  }

  lemma StepUsesPotential(sched: seq<Action>, more: seq<Action>, ts: set<Tid>, k: nat)
    requires k < |more| && more[k].t in ts && EffectiveAt(sched, more, k) && !ReturnsAt(sched, more, k)
    ensures PotentialAt(sched, more, ts, k + 1) < PotentialAt(sched, more, ts, k)
  {
    AfterNext(sched, more, k);
    TailInvariant(sched + more[..k]);
    StepFalls(Extended(sched, more, k), more[k], Extended(sched, more, k + 1), ts);
  }

  /** Lock-freedom: whatever happened before, when n threads make more than Bound(n) steps between them, in any
   order and with new calls in between, one of these steps is a return. */
  lemma LockFree(sched: seq<Action>, more: seq<Action>, ts: set<Tid>)
    requires forall k :: 0 <= k < |more| ==> more[k].t in ts && EffectiveAt(sched, more, k)
    requires |more| > Bound(|ts|)
    ensures exists k :: 0 <= k < |more| && ReturnsAt(sched, more, k)
  {
    if forall k :: 0 <= k < |more| ==> !ReturnsAt(sched, more, k) {
      var k := 0;
      PotentialAtMost(Extended(sched, more, 0).s, ts);
      while k < |more|
        invariant 0 <= k <= |more| && k + PotentialAt(sched, more, ts, k) <= Bound(|ts|)
      {
        StepUsesPotential(sched, more, ts, k);
        k := k + 1;
      }
      assert false;
    }
  }
}
