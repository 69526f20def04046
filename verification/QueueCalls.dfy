/**
 That the history misses nothing: whenever a thread returns from Enqueue or Dequeue, a reply is recorded
 for it, and an Enqueue's reply carries the value that the call was given.
 */
module QueueCalls {
  import opened LockFreeQueue
  import opened QueueLinearizability

  /** The call that thread t made last, if it was not inside one already. */
  datatype Made = Never | Enqueue(v: Task) | Dequeue

  ghost function LastCall(sched: seq<Action>, t: Tid): Made {
    if sched == [] then Never else
    var before, act := sched[..|sched| - 1], sched[|sched| - 1];
    if act.Run? || act.t != t || PcOf(Exec(before).s, t) != Idle then LastCall(before, t)
    else if act.CallEnq? then Enqueue(act.v) else Dequeue
  }

  /** A thread inside a call is inside the one it made, with the node of the value it was given. */
  ghost predicate Inside(s: State, t: Tid, call: Made) {
    var pc := PcOf(s, t);
    if pc == Idle || pc == Crashed then true
    else if Dequeuing(pc) then call == Dequeue
    else pc.n < |s.nodes| && call == Enqueue(s.nodes[pc.n].value)
  }

  lemma StepStaysInside(s: State, t: Tid, call: Made)
    requires Inside(s, t, call)
    ensures Inside(Step(s, t), t, call)
  {
    StepKeepsValues(s, t);
  }

  lemma OthersStayInside(s: State, u: Tid, t: Tid, call: Made)
    requires Inside(s, t, call) && u != t
    ensures Inside(Step(s, u), t, call)
  {
    StepKeepsValues(s, u);
    StepKeepsOthers(s, u, t);
  }

  lemma CallsStayInside(c: Config, act: Action, t: Tid, call: Made, call': Made)
    requires Inside(c.s, t, call) && !act.Run?
    requires call' == (if act.t != t || PcOf(c.s, t) != Idle then call
                       else if act.CallEnq? then Enqueue(act.v) else Dequeue)
    ensures Inside(Apply(c, act).s, t, call')
  {
  }

  lemma ApplyRunIs(c: Config, u: Tid)
    ensures Apply(c, Run(u)).s == Step(c.s, u)
  {
  }

  lemma {:induction false} AlwaysInside(sched: seq<Action>, t: Tid)
    ensures Inside(Exec(sched).s, t, LastCall(sched, t))
    decreases |sched|
  {
    if sched != [] {
      var before, act := sched[..|sched| - 1], sched[|sched| - 1];
      AlwaysInside(before, t);
      if !act.Run? {
        CallsStayInside(Exec(before), act, t, LastCall(before, t), LastCall(sched, t));
      } else {
        ApplyRunIs(Exec(before), act.t);
        if act.t == t {
          StepStaysInside(Exec(before).s, t, LastCall(before, t));
        } else {
          OthersStayInside(Exec(before).s, act.t, t, LastCall(before, t));
        }
      }
    }
  }

  /** The outcome fits the call. */
  predicate Answers(call: Made, op: Outcome) {
    match call
    case Never => false
    case Enqueue(v) => op == Put(v)
    case Dequeue => op.Took? || op == FoundEmpty
  }

  lemma ReturnEffect(s: State, a: Aux, t: Tid, call: Made)
    requires ChainOk(s, a) && PcOk(s, a, PcOf(s, t)) && Inside(s, t, call)
    requires PcOf(s, t) != Idle && PcOf(Step(s, t), t) == Idle
    ensures EffectOf(s, t).Returns? && Answers(call, EffectOf(s, t).op)
  {
  }

  lemma ReturnNotes(c: Config, t: Tid)
    requires EffectOf(c.s, t).Returns?
    ensures var done' := Apply(c, Run(t)).a.done;
      |done'| == |c.a.done| + 1 && done'[..|c.a.done|] == c.a.done
      && done'[|c.a.done|].t == t && done'[|c.a.done|].op == EffectOf(c.s, t).op && done'[|c.a.done|].end == c.a.now
  {
  }

  lemma ReachablePc(sched: seq<Action>, t: Tid)
    ensures ChainOk(Exec(sched).s, Exec(sched).a) && PcOk(Exec(sched).s, Exec(sched).a, PcOf(Exec(sched).s, t))
  {
    Reachable(sched);
  }

  /** Every return is recorded, once, at its time and with an outcome of the call that was made. */
  lemma EveryReturnIsRecorded(sched: seq<Action>, t: Tid)
    requires PcOf(Exec(sched).s, t) != Idle && PcOf(Apply(Exec(sched), Run(t)).s, t) == Idle
    ensures var done, done' := Exec(sched).a.done, Apply(Exec(sched), Run(t)).a.done;
      && |done'| == |done| + 1 && done'[..|done|] == done
      && done'[|done|].t == t && done'[|done|].end == |sched| && Answers(LastCall(sched, t), done'[|done|].op)
  {
    var c := Exec(sched);
    Reachable(sched);
    ReachablePc(sched, t);
    AlwaysInside(sched, t);
    ApplyRunIs(c, t);
    ReturnEffect(c.s, c.a, t, LastCall(sched, t));
    ReturnNotes(c, t);
  }
}
