/**
 The lock-free task queue as a transition system: shared Head, Tail, Next links and the
 Length counter, and one program counter with its locals per thread. Every atomic load,
 compare-and-swap or add is one step, and threads interleave in any order. A nil or dangling
 dereference sends the thread to `Crashed`.
 */
module LockFreeQueue {

  type Tid = nat
  type Ptr = nat

  /** The identity of an `interface{}` value; `NIL_TASK` is Go's nil. */
  type Task = nat
  const NIL_TASK: Task := 0

  /** A node pointer that may be nil. */
  datatype Link = Nil | To(p: Ptr)

  datatype Node = Node(value: Task, next: Link)

  /** Where a thread stands; the locals it still needs are the arguments. */
  datatype Pc =
    | Idle
    | EnqLoadTail(n: Ptr)
    | EnqLoadNext(n: Ptr, tail: Ptr)
    | EnqCheckTail(n: Ptr, tail: Ptr, next: Link)
    | EnqLink(n: Ptr, tail: Ptr)
    | EnqSwing(n: Ptr, tail: Ptr)
    | EnqCount(n: Ptr)
    | EnqHelp(n: Ptr, tail: Ptr, succ: Ptr)
    | DeqLoadHead
    | DeqLoadTail(head: Ptr)
    | DeqLoadNext(head: Ptr, tail: Ptr)
    | DeqCheckHead(head: Ptr, tail: Ptr, next: Link)
    | DeqHelp(tail: Ptr, succ: Ptr)
    | DeqReadValue(head: Ptr, next: Link)
    | DeqTake(head: Ptr, succ: Ptr, task: Task)
    | DeqCount(task: Task)
    | Crashed

  datatype State = State(nodes: seq<Node>, head: Ptr, tail: Ptr, length: int, pcs: map<Tid, Pc>)

  /** int32 arithmetic. */
  function Wrap32(x: int): int {
    (x + 0x8000_0000) % 0x1_0000_0000 - 0x8000_0000
  }

  function PcOf(s: State, t: Tid): Pc {
    if t in s.pcs then s.pcs[t] else Idle
  }

  function Goto(s: State, t: Tid, pc: Pc): State {
    s.(pcs := s.pcs[t := pc])
  }

  function CasTail(s: State, expected: Ptr, replacement: Ptr): State {
    if s.tail == expected then s.(tail := replacement) else s
  }

  const Init: State := State([Node(NIL_TASK, Nil)], 0, 0, 0, map[])

  /** An idle thread calls Enqueue: it allocates its node. */
  function CallEnqueue(s: State, t: Tid, v: Task): State {
    Goto(s.(nodes := s.nodes + [Node(v, Nil)]), t, EnqLoadTail(|s.nodes|))
  }

  /** One atomic step of thread t. */
  function Step(s: State, t: Tid): State {
    match PcOf(s, t)
    case Idle => s
    case Crashed => s
    case EnqLoadTail(n) => Goto(s, t, EnqLoadNext(n, s.tail))
    case EnqLoadNext(n, tail) =>
      if tail < |s.nodes| then Goto(s, t, EnqCheckTail(n, tail, s.nodes[tail].next)) else Goto(s, t, Crashed)
    case EnqCheckTail(n, tail, next) =>
      if tail != s.tail then Goto(s, t, EnqLoadTail(n))
      else if next == Nil then Goto(s, t, EnqLink(n, tail))
      else Goto(s, t, EnqHelp(n, tail, next.p))
    case EnqLink(n, tail) =>
      if |s.nodes| <= tail then Goto(s, t, Crashed)
      else if s.nodes[tail].next == Nil then
        Goto(s.(nodes := s.nodes[tail := s.nodes[tail].(next := To(n))]), t, EnqSwing(n, tail))
      else Goto(s, t, EnqLoadTail(n))
    case EnqSwing(n, tail) => Goto(CasTail(s, tail, n), t, EnqCount(n))
    case EnqCount(n) => Goto(s.(length := Wrap32(s.length + 1)), t, Idle)
    case EnqHelp(n, tail, succ) => Goto(CasTail(s, tail, succ), t, EnqLoadTail(n))
    case DeqLoadHead => Goto(s, t, DeqLoadTail(s.head))
    case DeqLoadTail(head) => Goto(s, t, DeqLoadNext(head, s.tail))
    case DeqLoadNext(head, tail) =>
      if head < |s.nodes| then Goto(s, t, DeqCheckHead(head, tail, s.nodes[head].next)) else Goto(s, t, Crashed)
    case DeqCheckHead(head, tail, next) =>
      if head != s.head then Goto(s, t, DeqLoadHead)
      else if head != tail then Goto(s, t, DeqReadValue(head, next))
      else if next == Nil then Goto(s, t, Idle)
      else Goto(s, t, DeqHelp(tail, next.p))
    case DeqHelp(tail, succ) => Goto(CasTail(s, tail, succ), t, DeqLoadHead)
    case DeqReadValue(head, next) =>
      if next.To? && next.p < |s.nodes| then Goto(s, t, DeqTake(head, next.p, s.nodes[next.p].value))
      else Goto(s, t, Crashed)
    case DeqTake(head, succ, task) =>
      if s.head == head then Goto(s.(head := succ), t, DeqCount(task)) else Goto(s, t, DeqLoadHead)
    case DeqCount(task) => Goto(s.(length := Wrap32(s.length - 1)), t, Idle)
  }

  // ---------------------------------------------------------------- history

  /** The outcome of a call: a value put, a value taken, or the nil answer. */
  datatype Outcome = Put(v: Task) | Took(v: Task) | FoundEmpty

  /** A call's linearization point: call began at `start`, took effect at `at`. */
  datatype Event = Event(t: Tid, op: Outcome, start: nat, at: nat)

  /** A returned call. `op` is what the code returned. */
  datatype Reply = Reply(t: Tid, op: Outcome, start: nat, at: nat, end: nat)

  /** What a step means for the history. */
  datatype Effect = Silent | Links(n: Ptr) | Takes(v: Task) | SeesEmpty | Retracts | Returns(op: Outcome)

  function EffectOf(s: State, t: Tid): Effect {
    match PcOf(s, t)
    case EnqLink(n, tail) => if tail < |s.nodes| && s.nodes[tail].next == Nil then Links(n) else Silent
    case EnqCount(n) => if n < |s.nodes| then Returns(Put(s.nodes[n].value)) else Silent
    case DeqLoadNext(head, tail) =>
      if head < |s.nodes| && head == tail && s.nodes[head].next == Nil then SeesEmpty else Silent
    case DeqCheckHead(head, tail, next) =>
      if head == tail && next == Nil then (if head == s.head then Returns(FoundEmpty) else Retracts) else Silent
    case DeqTake(head, succ, task) => if s.head == head then Takes(task) else Silent
    case DeqCount(task) => Returns(Took(task))
    case _ => Silent
  }

  /** History variables: no step of the queue reads them.
   `chain` lists the nodes ever linked, `pos` inverts it, `now` counts actions, `began` is the
   start of each thread's latest call, `lin` is the linearization, `mine` the event of a call
   that took effect and has not returned, `done` the returned calls. */
  datatype Aux = Aux(chain: seq<Ptr>, pos: map<Ptr, nat>, now: nat, began: map<Tid, nat>,
                     lin: seq<Event>, mine: map<Tid, Event>, done: seq<Reply>)

  const InitAux: Aux := Aux([0], map[0 := 0], 0, map[], [], map[], [])

  function BeganAt(a: Aux, t: Tid): nat {
    if t in a.began then a.began[t] else 0
  }

  function WithEvent(a: Aux, t: Tid, op: Outcome): Aux {
    var e := Event(t, op, BeganAt(a, t), a.now);
    a.(lin := a.lin + [e], mine := a.mine[t := e])
  }

  function Without(lin: seq<Event>, e: Event): seq<Event> {
    if lin == [] then []
    else if lin[|lin| - 1] == e then lin[..|lin| - 1]
    else Without(lin[..|lin| - 1], e) + [lin[|lin| - 1]]
  }

  function Forget(a: Aux, t: Tid): Aux {
    a.(mine := a.mine - {t})
  }

  function Note(s: State, a: Aux, t: Tid, e: Effect): Aux {
    match e
    case Silent => a
    case Links(n) =>
      if n < |s.nodes| then WithEvent(Extend(a, n), t, Put(s.nodes[n].value)) else a
    case Takes(v) => WithEvent(a, t, Took(v))
    case SeesEmpty => WithEvent(a, t, FoundEmpty)
    case Retracts => if t in a.mine then Forget(a.(lin := Without(a.lin, a.mine[t])), t) else a
    case Returns(op) =>
      Forget(a.(done := a.done + [Reply(t, op, BeganAt(a, t), if t in a.mine then a.mine[t].at else 0, a.now)]), t)
  }

  // ---------------------------------------------------------------- runs

  datatype Action = CallEnq(t: Tid, v: Task) | CallDeq(t: Tid) | Run(t: Tid)

  datatype Config = Config(s: State, a: Aux)

  function RunAux(s: State, a: Aux, t: Tid): Aux {
    Note(s, a, t, EffectOf(s, t)).(now := a.now + 1)
  }

  /** One action of a schedule. A call on a busy thread does nothing. */
  function Apply(c: Config, act: Action): Config {
    var a := c.a.(now := c.a.now + 1);
    match act
    case CallEnq(t, v) =>
      if PcOf(c.s, t) == Idle then Config(CallEnqueue(c.s, t, v), a.(began := a.began[t := c.a.now]))
      else Config(c.s, a)
    case CallDeq(t) =>
      if PcOf(c.s, t) == Idle then Config(Goto(c.s, t, DeqLoadHead), a.(began := a.began[t := c.a.now]))
      else Config(c.s, a)
    case Run(t) =>
      Config(Step(c.s, t), RunAux(c.s, c.a, t))
  }

  const InitConfig: Config := Config(Init, InitAux)

  function Exec(sched: seq<Action>): Config {
    if sched == [] then InitConfig else Apply(Exec(sched[..|sched| - 1]), sched[|sched| - 1])
  }

  // ---------------------------------------------------------------- the abstract queue

  function Values(nodes: seq<Node>, ps: seq<Ptr>): (vs: seq<Task>)
    requires forall i :: 0 <= i < |ps| ==> ps[i] < |nodes|
    ensures |vs| == |ps| && forall i {:trigger vs[i]} :: 0 <= i < |ps| ==> vs[i] == nodes[ps[i]].value
  {
    seq(|ps|, i requires 0 <= i < |ps| => nodes[ps[i]].value)
  }

  function Suffix(nodes: seq<Node>, ps: seq<Ptr>, k: nat): seq<Task>
    requires k <= |ps| && forall i :: 0 <= i < |ps| ==> ps[i] < |nodes|
  {
    Values(nodes, ps[k..])
  }

  /** The sequential queue: replaying the linearization from the empty queue. */
  datatype Verdict = Illegal | Holds(q: seq<Task>)

  function Apply1(w: Verdict, op: Outcome): Verdict {
    if w.Illegal? then Illegal else
    match op
    case Put(v) => Holds(w.q + [v])
    case Took(v) => if w.q != [] && w.q[0] == v then Holds(w.q[1..]) else Illegal
    case FoundEmpty => if w.q == [] then w else Illegal
  }

  function Fifo(lin: seq<Event>): Verdict {
    if lin == [] then Holds([]) else Apply1(Fifo(lin[..|lin| - 1]), lin[|lin| - 1].op)
  }

  // ---------------------------------------------------------------- invariant

  /** The nodes ever linked form one Next-chain that holds Head and Tail, Head not beyond Tail. */
  ghost predicate ChainOk(s: State, a: Aux) {
    && 0 < |a.chain|
    && (forall i :: 0 <= i < |a.chain| ==> a.chain[i] < |s.nodes| && a.chain[i] in a.pos && a.pos[a.chain[i]] == i)
    && (forall p :: p in a.pos ==> a.pos[p] < |a.chain| && a.chain[a.pos[p]] == p)
    && (forall i {:trigger s.nodes[a.chain[i]]} :: 0 <= i < |a.chain| - 1 ==>
        s.nodes[a.chain[i]].next == To(a.chain[i + 1]))
    && s.nodes[a.chain[|a.chain| - 1]].next == Nil
    && s.head in a.pos && s.tail in a.pos
    && a.pos[s.head] <= a.pos[s.tail]
  }

  ghost predicate Follows(a: Aux, p: Ptr, succ: Ptr) {
    p in a.pos && succ in a.pos && a.pos[succ] == a.pos[p] + 1
  }

  ghost predicate Behind(a: Aux, p: Ptr, q: Ptr) {
    p in a.pos && q in a.pos && a.pos[p] <= a.pos[q]
  }

  predicate Unlinked(pc: Pc) {
    pc.EnqLoadTail? || pc.EnqLoadNext? || pc.EnqCheckTail? || pc.EnqLink? || pc.EnqHelp?
  }

  /** Inside Dequeue. */
  predicate Dequeuing(pc: Pc) {
    !(Unlinked(pc) || pc.EnqSwing? || pc.EnqCount? || pc.Idle?)
  }

  ghost predicate FreshNode(s: State, a: Aux, n: Ptr) {
    n < |s.nodes| && n !in a.pos && s.nodes[n].next == Nil
  }

  ghost predicate PcOk(s: State, a: Aux, pc: Pc) {
    && (Unlinked(pc) ==> FreshNode(s, a, pc.n))
    && match pc
       case Idle => true
       case EnqLoadTail(n) => true
       case EnqLoadNext(n, tail) => Behind(a, tail, s.tail)
       case EnqCheckTail(n, tail, next) => Behind(a, tail, s.tail) && (next.To? ==> Follows(a, tail, next.p))
       case EnqLink(n, tail) => Behind(a, tail, s.tail)
       case EnqSwing(n, tail) => Follows(a, tail, n) && n < |s.nodes|
       case EnqCount(n) => n in a.pos && n < |s.nodes|
       case EnqHelp(n, tail, succ) => Follows(a, tail, succ)
       case DeqLoadHead => true
       case DeqLoadTail(head) => Behind(a, head, s.head)
       case DeqLoadNext(head, tail) => Behind(a, head, s.head) && Behind(a, head, tail) && Behind(a, tail, s.tail)
       case DeqCheckHead(head, tail, next) =>
         && Behind(a, head, s.head) && Behind(a, head, tail) && Behind(a, tail, s.tail)
         && (next.To? ==> Follows(a, head, next.p))
         && (head != tail ==> next.To?)
       case DeqHelp(tail, succ) => Follows(a, tail, succ)
       case DeqReadValue(head, next) => next.To? && Follows(a, head, next.p) && Behind(a, next.p, s.tail)
       case DeqTake(head, succ, task) =>
         Follows(a, head, succ) && Behind(a, succ, s.tail) && succ < |s.nodes| && s.nodes[succ].value == task
       case DeqCount(task) => true
       case Crashed => false
  }

  ghost predicate ThreadsOk(s: State, a: Aux) {
    && (forall t :: t in s.pcs ==> PcOk(s, a, s.pcs[t]))
    && (forall t, u :: t in s.pcs && u in s.pcs && t != u && Unlinked(s.pcs[t]) && Unlinked(s.pcs[u]) ==>
        s.pcs[t].n != s.pcs[u].n)
  }

  /** The values between Head and the end of the chain. */
  ghost function Abs(c: Config): seq<Task>
    requires ChainOk(c.s, c.a)
  {
    Suffix(c.s.nodes, c.a.chain, c.a.pos[c.s.head] + 1)
  }

  ghost predicate Shape(c: Config) {
    ChainOk(c.s, c.a) && ThreadsOk(c.s, c.a)
  }

  // ---------------------------------------------------------------- shape is invariant

  /** Linking, taking and tail swings only move the shared pointers forward. */
  ghost predicate Grows(s: State, a: Aux, s': State, a': Aux) {
    && |s.nodes| <= |s'.nodes|
    && (forall p :: 0 <= p < |s.nodes| ==> s'.nodes[p].value == s.nodes[p].value)
    && (forall p :: p in a.pos ==> p in a'.pos && a'.pos[p] == a.pos[p])
    && (s.head in a.pos ==> Behind(a', s.head, s'.head))
    && (s.tail in a.pos ==> Behind(a', s.tail, s'.tail))
  }

  lemma PcStable(s: State, a: Aux, s': State, a': Aux, pc: Pc)
    requires ChainOk(s, a)
    requires PcOk(s, a, pc)
    requires Grows(s, a, s', a')
    requires Unlinked(pc) ==> FreshNode(s', a', pc.n)
    ensures PcOk(s', a', pc)
  {
  }

  lemma ThreadsAfter(s: State, a: Aux, s': State, a': Aux, t: Tid, pc': Pc)
    requires ChainOk(s, a) && ThreadsOk(s, a)
    requires Grows(s, a, s', a') && s'.pcs == s.pcs[t := pc']
    requires PcOk(s', a', pc')
    requires forall u :: u in s.pcs && u != t && Unlinked(s.pcs[u]) ==> FreshNode(s', a', s.pcs[u].n)
    requires Unlinked(pc') ==> forall u :: u in s.pcs && u != t && Unlinked(s.pcs[u]) ==> s.pcs[u].n != pc'.n
    ensures ThreadsOk(s', a')
  {
    forall u | u in s'.pcs && u != t
      ensures PcOk(s', a', s'.pcs[u])
    {
      PcStable(s, a, s', a', s.pcs[u]);
    }
  }

  /** A step that leaves the nodes alone and moves Head and Tail forward along the chain. */
  lemma MoveShape(s: State, a: Aux, s': State, a': Aux, t: Tid, pc': Pc)
    requires ChainOk(s, a) && ThreadsOk(s, a)
    requires s'.nodes == s.nodes && a'.chain == a.chain && a'.pos == a.pos && s'.pcs == s.pcs[t := pc']
    requires Behind(a, s.head, s'.head) && Behind(a, s.tail, s'.tail) && Behind(a, s'.head, s'.tail)
    requires PcOk(s', a', pc')
    requires Unlinked(pc') ==> Unlinked(PcOf(s, t)) && PcOf(s, t).n == pc'.n
    ensures ChainOk(s', a') && ThreadsOk(s', a')
  {
    ThreadsAfter(s, a, s', a', t, pc');
  }

  lemma CasTailForward(s: State, a: Aux, expected: Ptr, succ: Ptr)
    requires ChainOk(s, a) && Follows(a, expected, succ)
    ensures Behind(a, s.tail, CasTail(s, expected, succ).tail)
    ensures Behind(a, s.head, CasTail(s, expected, succ).tail)
  {
  }

  /** Shape speaks of the pointers only. */
  lemma ShapeReadsChain(s: State, a: Aux, a': Aux)
    requires ChainOk(s, a) && ThreadsOk(s, a)
    requires a'.chain == a.chain && a'.pos == a.pos
    ensures ChainOk(s, a') && ThreadsOk(s, a')
  {
    forall t | t in s.pcs
      ensures PcOk(s, a', s.pcs[t])
    {
      PcStable(s, a, s, a', s.pcs[t]);
    }
  }

  lemma NoteKeepsChain(s: State, a: Aux, t: Tid, e: Effect)
    requires !e.Links?
    ensures Note(s, a, t, e).chain == a.chain && Note(s, a, t, e).pos == a.pos
  {
  }

  /** Only the last node of the chain has a nil Next. */
  lemma LastHasNilNext(s: State, a: Aux, p: Ptr)
    requires ChainOk(s, a) && p in a.pos
    ensures p < |s.nodes| && a.chain[a.pos[p]] == p
    ensures s.nodes[p].next == if a.pos[p] == |a.chain| - 1 then Nil else To(a.chain[a.pos[p] + 1])
  {
    assert a.chain[a.pos[p]] == p;
    assert s.nodes[a.chain[a.pos[p]]].next == s.nodes[p].next;
  }

  function Extend(a: Aux, n: Ptr): Aux {
    a.(chain := a.chain + [n], pos := a.pos[n := |a.chain|])
  }

  lemma ChainGrows(s: State, a: Aux, s': State, a': Aux, n: Ptr, last: Ptr)
    requires ChainOk(s, a) && FreshNode(s, a, n) && last == a.chain[|a.chain| - 1]
    requires s'.nodes == s.nodes[last := Node(s.nodes[last].value, To(n))] && s'.head == s.head && s'.tail == s.tail
    requires a'.chain == a.chain + [n] && a'.pos == a.pos[n := |a.chain|]
    ensures ChainOk(s', a') && Grows(s, a, s', a')
  {
  }

  /** A successful link comes from the last node of the chain and appends to it. */
  lemma LinkChain(s: State, a: Aux, t: Tid)
    requires ChainOk(s, a) && EffectOf(s, t).Links? && PcOk(s, a, PcOf(s, t))
    ensures EffectOf(s, t).n < |s.nodes| && EffectOf(s, t).n !in a.pos
    ensures ChainOk(Step(s, t), Extend(a, EffectOf(s, t).n)) && Grows(s, a, Step(s, t), Extend(a, EffectOf(s, t).n))
    ensures s.pcs[t].tail == a.chain[|a.chain| - 1]
  {
    var n, last := EffectOf(s, t).n, s.pcs[t].tail;
    LastHasNilNext(s, a, last);
    ChainGrows(s, a, Step(s, t), Extend(a, n), n, last);
  }

  lemma LinkShape(s: State, a: Aux, t: Tid)
    requires ChainOk(s, a) && ThreadsOk(s, a) && EffectOf(s, t).Links?
    ensures ThreadsOk(Step(s, t), Extend(a, EffectOf(s, t).n))
  {
    assert PcOk(s, a, s.pcs[t]);
    LinkChain(s, a, t);
    var s', n, tail := Step(s, t), s.pcs[t].n, s.pcs[t].tail;
    forall u | u in s.pcs && u != t && Unlinked(s.pcs[u])
      ensures FreshNode(s', Extend(a, n), s.pcs[u].n)
    {
      assert PcOk(s, a, s.pcs[u]);
    }
    ThreadsAfter(s, a, s', Extend(a, n), t, EnqSwing(n, tail));
  }

  /** What a step other than a link may touch. */
  lemma StepFrame(s: State, t: Tid)
    requires !EffectOf(s, t).Links?
    ensures Step(s, t).nodes == s.nodes
    ensures PcOf(s, t) != Idle ==> Step(s, t).pcs == s.pcs[t := PcOf(Step(s, t), t)]
    ensures !EffectOf(s, t).Takes? ==> Step(s, t).head == s.head
  {
  }

  ghost predicate MovesForward(s: State, a: Aux, s': State, t: Tid) {
    && PcOk(s', a, PcOf(s', t))
    && Behind(a, s.head, s'.head) && Behind(a, s.tail, s'.tail) && Behind(a, s'.head, s'.tail)
    && (Unlinked(PcOf(s', t)) ==> Unlinked(PcOf(s, t)) && PcOf(s, t).n == PcOf(s', t).n)
  }

  lemma EnqueueStepPc(s: State, a: Aux, t: Tid)
    requires ChainOk(s, a) && PcOk(s, a, PcOf(s, t)) && !EffectOf(s, t).Links?
    requires Unlinked(PcOf(s, t)) || PcOf(s, t).EnqSwing? || PcOf(s, t).EnqCount?
    ensures MovesForward(s, a, Step(s, t), t)
  {
    match s.pcs[t] {
      case EnqLoadNext(n, tail) => LastHasNilNext(s, a, tail);
      case EnqLink(n, tail) => LastHasNilNext(s, a, tail);
      case EnqSwing(n, tail) => CasTailForward(s, a, tail, n);
      case EnqHelp(n, tail, succ) => CasTailForward(s, a, tail, succ);
      case _ =>
    }
  }

  lemma DequeueLoadPc(s: State, a: Aux, t: Tid)
    requires ChainOk(s, a) && PcOk(s, a, PcOf(s, t))
    requires PcOf(s, t).DeqLoadHead? || PcOf(s, t).DeqLoadTail? || PcOf(s, t).DeqLoadNext?
    ensures MovesForward(s, a, Step(s, t), t)
  {
    match s.pcs[t] {
      case DeqLoadNext(head, tail) => LastHasNilNext(s, a, head); LastHasNilNext(s, a, tail);
      case _ =>
    }
  }

  lemma DequeueActPc(s: State, a: Aux, t: Tid)
    requires ChainOk(s, a) && PcOk(s, a, PcOf(s, t))
    requires PcOf(s, t).DeqHelp? || PcOf(s, t).DeqReadValue? || PcOf(s, t).DeqTake? || PcOf(s, t).DeqCount?
    ensures MovesForward(s, a, Step(s, t), t)
  {
    match s.pcs[t] {
      case DeqHelp(tail, succ) => CasTailForward(s, a, tail, succ);
      case DeqReadValue(head, next) => LastHasNilNext(s, a, next.p);
      case _ =>
    }
  }

  lemma DequeueCheckPc(s: State, a: Aux, t: Tid)
    requires ChainOk(s, a) && PcOk(s, a, PcOf(s, t)) && PcOf(s, t).DeqCheckHead?
    ensures MovesForward(s, a, Step(s, t), t)
  {
    LastHasNilNext(s, a, s.pcs[t].head);
    LastHasNilNext(s, a, s.pcs[t].tail);
  }

  lemma StepPc(s: State, a: Aux, t: Tid)
    requires ChainOk(s, a) && PcOk(s, a, PcOf(s, t)) && PcOf(s, t) != Idle && !EffectOf(s, t).Links?
    ensures MovesForward(s, a, Step(s, t), t)
  {
    match s.pcs[t] {
      case DeqLoadHead => DequeueLoadPc(s, a, t);
      case DeqLoadTail(_) => DequeueLoadPc(s, a, t);
      case DeqLoadNext(_, _) => DequeueLoadPc(s, a, t);
      case DeqCheckHead(_, _, _) => DequeueCheckPc(s, a, t);
      case DeqHelp(_, _) => DequeueActPc(s, a, t);
      case DeqReadValue(_, _) => DequeueActPc(s, a, t);
      case DeqTake(_, _, _) => DequeueActPc(s, a, t);
      case DeqCount(_) => DequeueActPc(s, a, t);
      case _ => EnqueueStepPc(s, a, t);
    }
  }

  lemma StepShape(s: State, a: Aux, t: Tid)
    requires ChainOk(s, a) && ThreadsOk(s, a) && PcOf(s, t) != Idle && !EffectOf(s, t).Links?
    ensures ChainOk(Step(s, t), a) && ThreadsOk(Step(s, t), a)
  {
    assert PcOk(s, a, s.pcs[t]);
    StepPc(s, a, t);
    StepFrame(s, t);
    MoveShape(s, a, Step(s, t), a, t, PcOf(Step(s, t), t));
  }

  /** Every atomic step keeps the shape; no thread ever dereferences nil. */
  lemma RunShape(c: Config, t: Tid)
    requires Shape(c)
    ensures Shape(Apply(c, Run(t)))
  {
    var s, a, c' := c.s, c.a, Apply(c, Run(t));
    var e := EffectOf(s, t);
    if e.Links? {
      assert PcOk(s, a, s.pcs[t]);
      LinkChain(s, a, t);
      LinkShape(s, a, t);
      ShapeReadsChain(c'.s, Extend(a, e.n), c'.a);
    } else {
      NoteKeepsChain(s, a, t, e);
      if PcOf(s, t) != Idle {
        StepShape(s, a, t);
      }
      ShapeReadsChain(c'.s, a, c'.a);
    }
  }

  lemma CallShape(c: Config, act: Action)
    requires Shape(c) && !act.Run?
    ensures Shape(Apply(c, act))
  {
    var s, a, c' := c.s, c.a, Apply(c, act);
    if PcOf(s, act.t) == Idle {
      assert ChainOk(c'.s, a);
      ThreadsAfter(s, a, c'.s, a, act.t, PcOf(c'.s, act.t));
    }
    ShapeReadsChain(c'.s, a, c'.a);
  }

  lemma SuffixDrop(nodes: seq<Node>, ps: seq<Ptr>, k: nat)
    requires k < |ps| && forall i :: 0 <= i < |ps| ==> ps[i] < |nodes|
    ensures Suffix(nodes, ps, k) == [nodes[ps[k]].value] + Suffix(nodes, ps, k + 1)
  {
  }

  lemma SuffixAppend(nodes: seq<Node>, nodes': seq<Node>, ps: seq<Ptr>, n: Ptr, k: nat)
    requires k <= |ps| && n < |nodes| && |nodes| == |nodes'|
    requires forall i :: 0 <= i < |ps| ==> ps[i] < |nodes|
    requires forall p :: 0 <= p < |nodes| ==> nodes'[p].value == nodes[p].value
    ensures Suffix(nodes', ps + [n], k) == Suffix(nodes, ps, k) + [nodes[n].value]
  {
    assert (ps + [n])[k..] == ps[k..] + [n];
  }

  lemma LinkAppends(s: State, a: Aux, t: Tid)
    requires ChainOk(s, a) && EffectOf(s, t).Links? && PcOk(s, a, PcOf(s, t))
    ensures
      var n, a' := EffectOf(s, t).n, Extend(a, EffectOf(s, t).n);
      && n < |s.nodes| && ChainOk(Step(s, t), a')
      && Abs(Config(Step(s, t), a')) == Abs(Config(s, a)) + [s.nodes[n].value]
  {
    LinkChain(s, a, t);
    SuffixAppend(s.nodes, Step(s, t).nodes, a.chain, EffectOf(s, t).n, a.pos[s.head] + 1);
  }

  lemma FirstOfSuffix(nodes: seq<Node>, ps: seq<Ptr>, k: nat, p: Ptr, q: seq<Task>, q': seq<Task>)
    requires k < |ps| && p == ps[k] && forall i :: 0 <= i < |ps| ==> ps[i] < |nodes|
    requires q == Suffix(nodes, ps, k) && q' == Suffix(nodes, ps, k + 1)
    ensures q == [nodes[p].value] + q'
  {
    SuffixDrop(nodes, ps, k);
  }

  lemma AbsIsSuffix(s: State, a: Aux, h: nat)
    requires ChainOk(s, a) && h == a.pos[s.head]
    ensures h < |a.chain| && a.chain[h] == s.head && Abs(Config(s, a)) == Suffix(s.nodes, a.chain, h + 1)
  {
  }

  lemma HeadMovesOne(s: State, a: Aux, s': State)
    requires ChainOk(s, a) && ChainOk(s', a) && s'.nodes == s.nodes && Follows(a, s.head, s'.head)
    ensures Abs(Config(s, a)) == [s.nodes[s'.head].value] + Abs(Config(s', a))
  {
    var k := a.pos[s'.head];
    AbsIsSuffix(s, a, k - 1);
    AbsIsSuffix(s', a, k);
    FirstOfSuffix(s.nodes, a.chain, k, s'.head, Abs(Config(s, a)), Abs(Config(s', a)));
  }

  lemma TakeRemovesFirst(s: State, a: Aux, t: Tid)
    requires ChainOk(s, a) && EffectOf(s, t).Takes? && PcOk(s, a, PcOf(s, t))
    requires ChainOk(Step(s, t), a)
    ensures Abs(Config(s, a)) == [EffectOf(s, t).v] + Abs(Config(Step(s, t), a))
  {
    HeadMovesOne(s, a, Step(s, t));
  }

  lemma SameHeadSameAbs(s: State, a: Aux, s': State, a': Aux)
    requires ChainOk(s, a) && ChainOk(s', a') && a'.chain == a.chain && a'.pos == a.pos
    requires s'.head == s.head && s'.nodes == s.nodes
    ensures Abs(Config(s', a')) == Abs(Config(s, a))
  {
  }

  lemma SeesEmptyIsEmpty(s: State, a: Aux, t: Tid)
    requires ChainOk(s, a) && PcOk(s, a, PcOf(s, t)) && EffectOf(s, t).SeesEmpty?
    ensures Abs(Config(s, a)) == []
  {
    LastHasNilNext(s, a, s.pcs[t].head);
  }

  lemma OtherStepsKeepAbs(s: State, a: Aux, t: Tid)
    requires ChainOk(s, a) && !EffectOf(s, t).Links? && !EffectOf(s, t).Takes?
    requires ChainOk(Step(s, t), a)
    ensures Abs(Config(Step(s, t), a)) == Abs(Config(s, a))
  {
    StepFrame(s, t);
    SameHeadSameAbs(s, a, Step(s, t), a);
  }
}
