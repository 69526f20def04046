/**
 The wake-up leads somewhere: from every reachable state in which the wake descriptor is readable, the consumer alone
 comes to a round and hands out what is queued, first all prior values, then at most 256 normal ones, in order.
 */
module WakeUpRounds {
  import opened Common
  import opened LockFreeQueue
  import opened QueueLinearizability
  import opened QueueLength
  import opened QueueProgress
  import opened WakeUp
  import opened WakeUpTheorems
  import opened WakeUpDispatch
  import opened WakeUpWrap
  import Q = LockFreeQueue

  // ---------------------------------------------------------------- one Dequeue

  predicate NoNils(q: seq<Task>) {
    forall i :: 0 <= i < |q| ==> q[i] != NIL_TASK
  }

  ghost predicate NoNil(q: Config) {
    Shape(q) && NoNils(Abs(q))
  }

  /** The queue is in order, and the consumer is outside it. */
  ghost predicate Free(q: Config) {
    Shape(q) && TailOk(q) && PcOf(q.s, CONSUMER) == Idle
  }

  /** Everything but one queue and where the consumer stands is as it was. */
  predicate Alike(s0: Poller, s: Poller, w: Which) {
    Else(s0, s, w) && (w == Prior ==> s.normal == s0.normal) && (w == Normal ==> s.prior == s0.prior)
  }

  /** The consumer is inside the Dequeue that it called in s0. */
  ghost predicate Within(s0: Poller, s: Poller, w: Which) {
    && Alike(s0, s, w) && s.consumer == s0.consumer && s.ran == s0.ran
    && Dequeues(QueueOf(s0, w), QueueOf(s, w), CONSUMER)
  }

  /** It has left it, with the first value or with nil. */
  ghost predicate Left(s0: Poller, s: Poller, w: Which, none: Consumer, next: Consumer) {
    && Alike(s0, s, w) && Free(QueueOf(s, w)) && Shape(QueueOf(s0, w))
    && var q0, q := Abs(QueueOf(s0, w)), Abs(QueueOf(s, w));
       if q0 == [] then q == [] && s.consumer == none && s.ran == s0.ran
       else q0 == [q0[0]] + q && s.consumer == next && s.ran == s0.ran + [(w, q0[0])]
  }

  lemma EntersDequeue(s0: Poller, s: Poller, w: Which, none: Consumer, next: Consumer)
    requires Free(QueueOf(s0, w)) && s == AfterDequeue(s0, w, NextDequeue(QueueOf(s0, w)), none, next)
    ensures Within(s0, s, w)
  {
    var q := QueueOf(s0, w);
    DequeueBegins(q, CONSUMER, Q.Apply(q, CallDeq(CONSUMER)));
  }

  lemma GaveFirst(q0: seq<Task>, q: seq<Task>, pc: Pc)
    requires Gave(q0, q, pc) && NoNils(q0)
    ensures if pc.DeqCount? then q0 == [q0[0]] + q && WakeUp.Returned(pc) == q0[0] != NIL_TASK
            else q0 == [] && q == [] && WakeUp.Returned(pc) == NIL_TASK
  {
    assert pc.DeqCount? ==> q0[0] == pc.task;
  }

  /** The poller's side of a step that returns from Dequeue. */
  lemma Leaves(s0: Poller, s: Poller, w: Which, q': Config, s': Poller, none: Consumer, next: Consumer, pc: Pc)
    requires Alike(s0, s, w) && s.consumer == s0.consumer && s.ran == s0.ran && pc == PcOf(QueueOf(s, w).s, CONSUMER)
    requires Dequeuing(pc) && Dequeued(QueueOf(s0, w), pc, q', CONSUMER)
    requires NoNils(Abs(QueueOf(s0, w)))
    requires s' == AfterDequeue(s, w, q', none, next)
    ensures Left(s0, s', w, none, next)
  {
    GaveFirst(Abs(QueueOf(s0, w)), Abs(q'), pc);
    AfterDequeueFields(s, w, q', none, next, s');
    assert s0.ran + [] == s0.ran;
  }

  lemma AfterDequeueFields(s: Poller, w: Which, q': Config, none: Consumer, next: Consumer, s': Poller)
    requires s' == AfterDequeue(s, w, q', none, next)
    ensures Alike(s, s', w) && QueueOf(s', w) == q'
    ensures var pc, pc' := PcOf(QueueOf(s, w).s, CONSUMER), PcOf(q'.s, CONSUMER);
      s'.consumer == AfterAnswer(s.consumer, pc, pc', none, next) && s'.ran == s.ran + Dispatched(w, pc, pc')
  {
  }

  lemma Stays(s0: Poller, s: Poller, w: Which, q': Config, s': Poller, none: Consumer, next: Consumer)
    requires Alike(s0, s, w) && s.consumer == s0.consumer && s.ran == s0.ran
    requires PcOf(q'.s, CONSUMER) != Idle && Dequeues(QueueOf(s0, w), q', CONSUMER)
    requires s' == AfterDequeue(s, w, q', none, next)
    ensures Within(s0, s', w)
  {
    AfterDequeueFields(s, w, q', none, next, s');
  }

  lemma InsideDequeue(s0: Poller, s: Poller, w: Which, s': Poller, none: Consumer, next: Consumer)
    requires Within(s0, s, w) && NoNils(Abs(QueueOf(s0, w)))
    requires s' == AfterDequeue(s, w, NextDequeue(QueueOf(s, w)), none, next)
    ensures var pc, pc' := PcOf(QueueOf(s, w).s, CONSUMER), PcOf(QueueOf(s', w).s, CONSUMER);
      && StepsLeft(QueueOf(s', w).s, pc') < StepsLeft(QueueOf(s, w).s, pc)
      && if pc' == Idle then Left(s0, s', w, none, next) else Within(s0, s', w)
  {
    var q := QueueOf(s, w);
    var q' := Q.Apply(q, Run(CONSUMER));
    DequeueGoesOn(QueueOf(s0, w), q, CONSUMER, q');
    AfterDequeueFields(s, w, q', none, next, s');
    if PcOf(q'.s, CONSUMER) == Idle {
      Leaves(s0, s, w, q', s', none, next, PcOf(q.s, CONSUMER));
    } else {
      Stays(s0, s, w, q', s', none, next);
    }
  }

  /** What a step does while the consumer takes from queue w. */
  lemma TakesHere(s: Poller, w: Which, s': Poller)
    requires Taking(s.consumer, w) && s' == StepConsumer(s, Fine)
    ensures s' == AfterDequeue(s, w, NextDequeue(QueueOf(s, w)), WhenEmpty(w), WhenTaken(s.consumer))
  {
    TakesFrom(s, s', Fine);
  }

  /** The states that the consumer goes through by itself, from s to s'. */
  ghost predicate Alone(path: seq<Poller>, s: Poller, s': Poller) {
    && path != [] && path[0] == s && path[|path| - 1] == s'
    && forall i {:trigger StepConsumer(path[i], Fine)} :: 0 <= i < |path| - 1 ==>
         path[i + 1] == StepConsumer(path[i], Fine)
  }

  lemma AloneStep(path: seq<Poller>, s: Poller, t: Poller, u: Poller)
    requires Alone(path, s, t) && u == StepConsumer(t, Fine)
    ensures Alone(path + [u], s, u)
  {
    var more := path + [u];
    forall i | 0 <= i < |more| - 1
      ensures more[i + 1] == StepConsumer(more[i], Fine)
    {
      assert more[i] == path[i];
    }
  }

  lemma AloneJoin(p: seq<Poller>, q: seq<Poller>, s: Poller, t: Poller, u: Poller)
    requires Alone(p, s, t) && Alone(q, t, u)
    ensures Alone(p + q[1..], s, u)
  {
    var path := p + q[1..];
    forall i | 0 <= i < |path| - 1
      ensures path[i + 1] == StepConsumer(path[i], Fine)
    {
      assert path[i] == if i < |p| then p[i] else q[i - |p| + 1];
      if i >= |p| - 1 {
        assert q[i - |p| + 1] == path[i];
      }
    }
  }

  /** One Dequeue from its call to its return. */
  lemma TakesAlone(s0: Poller, w: Which) returns (path: seq<Poller>, s: Poller)
    requires Taking(s0.consumer, w) && Free(QueueOf(s0, w)) && NoNils(Abs(QueueOf(s0, w)))
    ensures Alone(path, s0, s) && Left(s0, s, w, WhenEmpty(w), WhenTaken(s0.consumer))
  {
    var none, next := WhenEmpty(w), WhenTaken(s0.consumer);
    s := StepConsumer(s0, Fine);
    AloneStep([s0], s0, s0, s);
    path := [s0] + [s];
    TakesHere(s0, w, s);
    EntersDequeue(s0, s, w, none, next);
    while PcOf(QueueOf(s, w).s, CONSUMER) != Idle
      invariant Alone(path, s0, s)
      invariant if PcOf(QueueOf(s, w).s, CONSUMER) == Idle then Left(s0, s, w, none, next) else Within(s0, s, w)
      decreases StepsLeft(QueueOf(s, w).s, PcOf(QueueOf(s, w).s, CONSUMER))
    {
      var s' := StepConsumer(s, Fine);
      TakesHere(s, w, s');
      InsideDequeue(s0, s, w, s', none, next);
      AloneStep(path, s0, s, s');
      path, s := path + [s'], s';
    }
  }

  // ---------------------------------------------------------------- one round

  function Tagged(w: Which, ts: seq<Task>): seq<(Which, Task)> {
    seq(|ts|, i requires 0 <= i < |ts| => (w, ts[i]))
  }

  /** From s0 to s the consumer handed out `ts` from queue w, and left the rest of it. */
  ghost predicate HandedOut(s0: Poller, s: Poller, w: Which, ts: seq<Task>) {
    && Alike(s0, s, w) && Shape(QueueOf(s0, w)) && Free(QueueOf(s, w))
    && Abs(QueueOf(s0, w)) == ts + Abs(QueueOf(s, w)) && s.ran == s0.ran + Tagged(w, ts)
  }

  lemma OneMoreSeq(r0: seq<(Which, Task)>, w: Which, t: Task, ts: seq<Task>, rest: seq<Task>)
    ensures [t] + ts + rest == [t] + (ts + rest)
    ensures r0 + [(w, t)] + Tagged(w, ts) == r0 + Tagged(w, [t] + ts)
  {
  }

  lemma OneMoreOut(s0: Poller, s1: Poller, s: Poller, w: Which, t: Task, ts: seq<Task>)
    requires Alike(s0, s1, w) && Shape(QueueOf(s0, w)) && Shape(QueueOf(s1, w))
    requires Abs(QueueOf(s0, w)) == [t] + Abs(QueueOf(s1, w)) && s1.ran == s0.ran + [(w, t)]
    requires HandedOut(s1, s, w, ts)
    ensures HandedOut(s0, s, w, [t] + ts)
  {
    OneMoreSeq(s0.ran, w, t, ts, Abs(QueueOf(s, w)));
  }

  lemma NoneOut(s0: Poller, s: Poller, w: Which)
    requires Alike(s0, s, w) && Shape(QueueOf(s0, w)) && Free(QueueOf(s, w))
    requires Abs(QueueOf(s, w)) == Abs(QueueOf(s0, w)) && s.ran == s0.ran
    ensures HandedOut(s0, s, w, [])
  {
    assert s0.ran + Tagged(w, []) == s0.ran;
    assert [] + Abs(QueueOf(s, w)) == Abs(QueueOf(s, w));
  }

  lemma LeftEmpty(s0: Poller, s: Poller, w: Which, none: Consumer, next: Consumer)
    requires Left(s0, s, w, none, next) && Abs(QueueOf(s0, w)) == []
    ensures HandedOut(s0, s, w, []) && s.consumer == none && Abs(QueueOf(s, w)) == []
  {
    NoneOut(s0, s, w);
  }

  lemma LeftFirst(s0: Poller, s: Poller, w: Which, none: Consumer, next: Consumer, q0: seq<Task>)
    requires Left(s0, s, w, none, next) && q0 == Abs(QueueOf(s0, w)) && q0 != [] && NoNil(QueueOf(s0, w))
    ensures Alike(s0, s, w) && Free(QueueOf(s, w)) && NoNil(QueueOf(s, w)) && s.consumer == next
    ensures Abs(QueueOf(s, w)) == q0[1..] && s.ran == s0.ran + [(w, q0[0])]
  {
    assert q0[1..] == Abs(QueueOf(s, w));
  }

  lemma ThenMore(s0: Poller, s1: Poller, s: Poller, w: Which, q0: seq<Task>, ts: seq<Task>, ts0: seq<Task>)
    requires Alike(s0, s1, w) && Shape(QueueOf(s0, w)) && Shape(QueueOf(s1, w)) && q0 == Abs(QueueOf(s0, w)) && q0 != []
    requires Abs(QueueOf(s1, w)) == q0[1..] && s1.ran == s0.ran + [(w, q0[0])]
    requires HandedOut(s1, s, w, ts) && ts0 == [q0[0]] + ts
    ensures HandedOut(s0, s, w, ts0)
  {
    assert q0 == [q0[0]] + q0[1..];
    OneMoreOut(s0, s1, s, w, q0[0], ts);
  }

  lemma FirstAndRest(q: seq<Task>, n: nat)
    requires q != [] && n > 0
    ensures [q[0]] + q[1..] == q && [q[0]] + q[1..][..Min(|q[1..]|, n - 1)] == q[..Min(|q|, n)]
  {
  }

  /** The prior queue is handed out until it is empty. */
  lemma {:induction false} DrainsPrior(s0: Poller, q0: seq<Task>) returns (path: seq<Poller>, s: Poller)
    requires s0.consumer == TakePrior && Free(s0.prior) && NoNil(s0.prior) && q0 == Abs(s0.prior)
    ensures Alone(path, s0, s) && s.consumer == TakeNormal(0) && HandedOut(s0, s, Prior, q0)
    decreases |q0|
  {
    var s1;
    path, s1 := TakesAlone(s0, Prior);
    if q0 == [] {
      LeftEmpty(s0, s1, Prior, TakeNormal(0), TakePrior);
      s := s1;
    } else {
      LeftFirst(s0, s1, Prior, TakeNormal(0), TakePrior, q0);
      var more;
      more, s := DrainsPrior(s1, q0[1..]);
      AloneJoin(path, more, s0, s1, s);
      FirstAndRest(q0, 1);
      ThenMore(s0, s1, s, Prior, q0, q0[1..], q0);
      path := path + more[1..];
    }
  }

  lemma FullRound(s0: Poller, q0: seq<Task>) returns (path: seq<Poller>, s: Poller)
    requires s0.consumer == TakeNormal(256) && Free(s0.normal) && q0 == Abs(s0.normal)
    ensures Alone(path, s0, s) && s.consumer == Joining && HandedOut(s0, s, Normal, q0[..0])
  {
    s := s0.(consumer := Joining);
    AloneStep([s0], s0, s0, s);
    path := [s0] + [s];
    NoneOut(s0, s, Normal);
  }

  lemma ThenUpTo(s0: Poller, s1: Poller, s: Poller, q0: seq<Task>, m: nat)
    requires Alike(s0, s1, Normal) && Shape(s0.normal) && Shape(s1.normal) && q0 == Abs(s0.normal) && q0 != [] && m > 0
    requires Abs(s1.normal) == q0[1..] && s1.ran == s0.ran + [(Normal, q0[0])]
    requires HandedOut(s1, s, Normal, q0[1..][..Min(|q0[1..]|, m - 1)])
    ensures HandedOut(s0, s, Normal, q0[..Min(|q0|, m)])
  {
    FirstAndRest(q0, m);
    ThenMore(s0, s1, s, Normal, q0, q0[1..][..Min(|q0[1..]|, m - 1)], q0[..Min(|q0|, m)]);
  }

  /** One value of the normal queue, or none. */
  lemma TakesNormal(s0: Poller, n: nat, q0: seq<Task>) returns (path: seq<Poller>, s: Poller)
    requires s0.consumer == TakeNormal(n) && n < 256 && Free(s0.normal) && NoNil(s0.normal) && q0 == Abs(s0.normal)
    ensures Alone(path, s0, s)
    ensures q0 == [] ==> s.consumer == Joining && HandedOut(s0, s, Normal, q0)
    ensures q0 != [] ==>
              && s.consumer == TakeNormal(n + 1) && Alike(s0, s, Normal) && Free(s.normal) && NoNil(s.normal)
              && Abs(s.normal) == q0[1..] && s.ran == s0.ran + [(Normal, q0[0])]
  {
    path, s := TakesAlone(s0, Normal);
    if q0 == [] {
      LeftEmpty(s0, s, Normal, Joining, TakeNormal(n + 1));
    } else {
      LeftFirst(s0, s, Normal, Joining, TakeNormal(n + 1), q0);
    }
  }

  /** Then the normal queue, up to 256 values: n of them have been taken, and m may follow. */
  lemma {:induction false} DrainsNormal(s0: Poller, n: nat, m: nat, q0: seq<Task>)
    returns (path: seq<Poller>, s: Poller)
    requires s0.consumer == TakeNormal(n) && n + m == 256 && Free(s0.normal) && NoNil(s0.normal) && q0 == Abs(s0.normal)
    ensures Alone(path, s0, s) && s.consumer == Joining && HandedOut(s0, s, Normal, q0[..Min(|q0|, m)])
    decreases m
  {
    if m == 0 {
      path, s := FullRound(s0, q0);
    } else {
      path, s := TakesNormal(s0, n, q0);
      if q0 == [] {
        assert q0[..0] == q0;
      } else {
        var s1, more := s, [];
        more, s := DrainsNormal(s1, n + 1, m - 1, q0[1..]);
        AloneJoin(path, more, s0, s1, s);
        path := path + more[1..];
        ThenUpTo(s0, s1, s, q0, m);
      }
    }
  }

  /** Both queues, from the beginning of a round to where the consumer joins. */
  lemma RoundAlone(s0: Poller, p: seq<Task>, q: seq<Task>) returns (path: seq<Poller>, s: Poller)
    requires s0.consumer == TakePrior && Free(s0.prior) && NoNil(s0.prior) && Free(s0.normal) && NoNil(s0.normal)
    requires p == Abs(s0.prior) && q == Abs(s0.normal)
    ensures Alone(path, s0, s) && RoundDone(s0, s, p, q)
  {
    var s1, more;
    path, s1 := DrainsPrior(s0, p);
    more, s := DrainsNormal(s1, 0, 256, q);
    AloneJoin(path, more, s0, s1, s);
    RoundIs(s0, s1, s, p, q);
    path := path + more[1..];
  }

  /** All prior values p and the first 256 of the normal values q have been handed out, in order, and no others. */
  ghost predicate RoundDone(s0: Poller, s: Poller, p: seq<Task>, q: seq<Task>) {
    && s.consumer == Joining && Shape(s.prior) && Shape(s.normal)
    && s.ran == s0.ran + Tagged(Prior, p) + Tagged(Normal, q[..Min(|q|, 256)])
    && Abs(s.prior) == [] && Abs(s.normal) == q[Min(|q|, 256)..]
    && s.toTrigger == s0.toTrigger && s.wake == s0.wake && s.producers == s0.producers
  }

  lemma RoundIs(s0: Poller, s1: Poller, s: Poller, p: seq<Task>, q: seq<Task>)
    requires HandedOut(s0, s1, Prior, p) && HandedOut(s1, s, Normal, q[..Min(|q|, 256)]) && s.consumer == Joining
    requires Shape(s0.prior) && Shape(s0.normal) && p == Abs(s0.prior) && q == Abs(s0.normal)
    ensures RoundDone(s0, s, p, q)
  {
    NothingLeft(p, Abs(s1.prior));
    WhatIsLeft(q, Min(|q|, 256), Abs(s.normal));
  }

  lemma NothingLeft(p: seq<Task>, rest: seq<Task>)
    requires p == p + rest
    ensures rest == []
  {
  }

  lemma WhatIsLeft(q: seq<Task>, m: nat, rest: seq<Task>)
    requires m <= |q| && q == q[..m] + rest
    ensures rest == q[m..]
  {
  }

  // ---------------------------------------------------------------- the end of a round

  /** What the check of queue w answers while no enqueuer is on its way. */
  predicate Reports(s: Poller, w: Which) {
    !IsEmpty(QueueOf(s, w).s)
  }

  /** How a round ends: armed again with the wake descriptor written and the flag carried, or not at all. */
  function Ended(s: Poller, again: bool): Poller {
    s.(toTrigger := again, wake := s.wake || again, consumer := Waiting(again))
  }

  lemma AloneTo(path: seq<Poller>, s: Poller, t: Poller, u: Poller) returns (more: seq<Poller>)
    requires Alone(path, s, t) && u == StepConsumer(t, Fine)
    ensures Alone(more, s, u)
  {
    AloneStep(path, s, t, u);
    more := path + [u];
  }

  lemma Rearms(s: Poller) returns (path: seq<Poller>)
    requires s.consumer == Rearming && !s.toTrigger
    ensures Alone(path, s, Ended(s, true))
  {
    var s1 := s.(toTrigger := true, consumer := Retrigger);
    var s2 := s1.(wake := true, consumer := Finishing(true));
    path := AloneTo([s], s, s, s1);
    path := AloneTo(path, s, s1, s2);
    path := AloneTo(path, s, s2, Ended(s, true));
  }

  lemma ChecksAlone(s: Poller) returns (path: seq<Poller>)
    requires s.consumer == CheckNormal && !s.toTrigger
    ensures Alone(path, s, Ended(s, Reports(s, Normal) || Reports(s, Prior)))
  {
    if Reports(s, Normal) {
      path := AloneTo([s], s, s, s.(consumer := Rearming));
      var more := Rearms(s.(consumer := Rearming));
      AloneJoin(path, more, s, s.(consumer := Rearming), Ended(s, true));
      path := path + more[1..];
    } else {
      path := ChecksPriorAlone(s);
    }
  }

  lemma ChecksPriorAlone(s: Poller) returns (path: seq<Poller>)
    requires s.consumer == CheckNormal && !s.toTrigger && !Reports(s, Normal)
    ensures Alone(path, s, Ended(s, Reports(s, Prior)))
  {
    var s1 := s.(consumer := CheckPrior);
    path := AloneTo([s], s, s, s1);
    if Reports(s, Prior) {
      path := AloneTo(path, s, s1, s.(consumer := Rearming));
      var more := Rearms(s.(consumer := Rearming));
      AloneJoin(path, more, s, s.(consumer := Rearming), Ended(s, true));
      path := path + more[1..];
    } else {
      path := AloneTo(path, s, s1, s.(consumer := Finishing(false)));
      path := AloneTo(path, s, s.(consumer := Finishing(false)), Ended(s, false));
    }
  }

  /** From the join on, alone. */
  lemma EndsAlone(s: Poller, again: bool) returns (path: seq<Poller>)
    requires s.consumer == Joining && again == (Reports(s, Normal) || Reports(s, Prior))
    ensures Alone(path, s, Ended(s, again))
  {
    var s1, s2 := s.(consumer := Clearing), s.(toTrigger := false, consumer := CheckNormal);
    path := AloneTo([s], s, s, s1);
    path := AloneTo(path, s, s1, s2);
    var more := ChecksAlone(s2);
    AloneJoin(path, more, s, s2, Ended(s, again));
    path := path + more[1..];
  }

  /** With no enqueuer on its way the consumer arms itself again if and only if it can see that something is left, that
   is, unless both sizes wrap to zero. */
  lemma RoundEndsAlone(s: Poller) returns (path: seq<Poller>)
    requires s.consumer == Joining && QueuesOk(s) && RolesOk(s, Prior) && RolesOk(s, Normal)
    requires !SomePending(s, Prior) && !SomePending(s, Normal)
    ensures Alone(path, s, Ended(s, !WrapsToZero(Size(s.normal)) || !WrapsToZero(Size(s.prior))))
  {
    LengthTells(s, Normal);
    LengthTells(s, Prior);
    path := EndsAlone(s, Reports(s, Normal) || Reports(s, Prior));
  }

  lemma LengthTells(s: Poller, w: Which)
    requires s.consumer == Joining && QueueOk(QueueOf(s, w)) && RolesOk(s, w) && !SomePending(s, w)
    ensures Reports(s, w) <==> !WrapsToZero(Size(QueueOf(s, w)))
  {
    NobodyUncounted(s, w);
    HasTaskIsNonempty(QueueOf(s, w));
    ZeroModulo(Size(QueueOf(s, w)));
  }

  /** A carried flag makes a batch of a single event a round, whatever the event. */
  lemma CarriedIntoRound(s: Poller)
    requires s.consumer == Waiting(true)
    ensures StepConsumer(StepConsumer(Do(s, Poll([Other])), Fine), Fine) == s.(consumer := TakePrior)
  {
    var s1 := Do(s, Poll([Other]));
    assert s1 == s.(consumer := InBatch([Other], 0, true));
    var s2 := StepConsumer(s1, Fine);
    assert s2 == s.(consumer := InCallback([Other], 0, true));
  }

  /** An error that is only logged drops the flag: the same batch is then no round. */
  lemma ErrorDropsFlag(s: Poller)
    requires s.consumer == Finishing(true)
    ensures StepConsumer(StepConsumer(Do(StepConsumer(s, Logged), Poll([Other])), Fine), Fine) ==
              s.(consumer := Waiting(false))
  {
    var s1 := Do(StepConsumer(s, Logged), Poll([Other]));
    assert s1 == s.(consumer := InBatch([Other], 0, false));
    var s2 := StepConsumer(s1, Fine);
    assert s2 == s.(consumer := InCallback([Other], 0, false));
  }

  // ---------------------------------------------------------------- from the wake-up on

  lemma {:induction false} AloneIsRun(s0: Poller, run: seq<Move>, path: seq<Poller>, s: Poller, k: nat)
    requires Alone(path, DoAll(s0, run), s) && k < |path|
    ensures DoAll(s0, run + Consumes(k)) == path[k]
    decreases k
  {
    if k == 0 {
      NoMore(run, Consumes(k));
    } else {
      AloneIsRun(s0, run, path, s, k - 1);
      Regroup(run, Consumes(k - 1), Consume(Fine));
      DoAllSnoc(s0, run + Consumes(k - 1), Consume(Fine));
      assert path[k] == StepConsumer(path[k - 1], Fine);
    }
  }

  /** A readable wake descriptor, reported alone, leads into a round. */
  lemma IntoRound(s: Poller)
    requires s.consumer.Waiting? && s.wake
    ensures StepConsumer(StepConsumer(Do(s, Poll([Wake])), Fine), Fine) == s.(wake := false, consumer := TakePrior)
  {
    assert Wake in [Wake];
    var s1 := Do(s, Poll([Wake]));
    assert s1 == s.(consumer := InBatch([Wake], 0, s.consumer.carry));
    var s2 := StepConsumer(s1, Fine);
    assert s2 == s.(wake := false, consumer := InCallback([Wake], 0, true));
  }

  lemma OutsideIsIdle(s: Poller, w: Which)
    requires RolesOk(s, w) && s.consumer.Waiting?
    ensures PcOf(QueueOf(s, w).s, CONSUMER) == Idle
  {
  }

  lemma ReachableFree(sub: bool, run: seq<Move>, w: Which, s: Poller)
    requires s == DoAll(Start(sub), run) && s.consumer.Waiting?
    ensures Free(QueueOf(s, w))
  {
    var sched := QueueSchedule(sub, run, w);
    TailInvariant(sched);
    RunSafe(sub, run);
    OutsideIsIdle(s, w);
  }

  /** The moves that lead into a round. */
  function Into(): seq<Move> {
    [Poll([Wake]), Consume(Fine), Consume(Fine)]
  }

  lemma OneByOne(run: seq<Move>, a: Move, b: Move, c: Move)
    ensures run + [a, b, c] == run + [a] + [b] + [c]
  {
  }

  lemma IntoIsRun(s0: Poller, run: seq<Move>, s: Poller)
    requires s == DoAll(s0, run) && s.consumer.Waiting? && s.wake
    ensures DoAll(s0, run + Into()) == s.(wake := false, consumer := TakePrior)
  {
    IntoRound(s);
    OneByOne(run, Poll([Wake]), Consume(Fine), Consume(Fine));
    DoAllSnoc(s0, run, Poll([Wake]));
    TwoMoves(s0, run + [Poll([Wake])], Consume(Fine), Consume(Fine));
  }

  lemma Regrouped(a: seq<Move>, b: seq<Move>, c: seq<Move>)
    ensures a + (b + c) == a + b + c
  {
  }

  lemma {:induction false} OnlyConsumes(k: nat)
    ensures forall i :: 0 <= i < |Consumes(k)| ==> Consumes(k)[i] == Consume(Fine)
  {
    if k > 0 {
      OnlyConsumes(k - 1);
    }
  }

  predicate ByConsumer(more: seq<Move>) {
    forall i :: 0 <= i < |more| ==> more[i] == Poll([Wake]) || more[i] == Consume(Fine)
  }

  lemma IntoAndOn(k: nat)
    ensures ByConsumer(Into() + Consumes(k))
  {
    OnlyConsumes(k);
  }

  /** A round that the consumer goes through by itself, as moves of a run. */
  lemma RoundIsRun(s0: Poller, run: seq<Move>, s: Poller, path: seq<Poller>, u: Poller) returns (more: seq<Move>)
    requires s == DoAll(s0, run) && s.consumer.Waiting? && s.wake
    requires Alone(path, s.(wake := false, consumer := TakePrior), u)
    ensures u == DoAll(s0, run + more) && ByConsumer(more)
  {
    var k := |path| - 1;
    IntoIsRun(s0, run, s);
    AloneIsRun(s0, run + Into(), path, u, k);
    more := Into() + Consumes(k);
    Regrouped(run, Into(), Consumes(k));
    IntoAndOn(k);
  }

  lemma RoundFrom(s: Poller) returns (path: seq<Poller>, u: Poller)
    requires Free(s.prior) && Free(s.normal) && NoNil(s.prior) && NoNil(s.normal)
    ensures Alone(path, s.(wake := false, consumer := TakePrior), u)
    ensures RoundDone(s.(wake := false), u, Abs(s.prior), Abs(s.normal))
  {
    path, u := RoundAlone(s.(wake := false, consumer := TakePrior), Abs(s.prior), Abs(s.normal));
  }

  lemma ReachableRound(sub: bool, run: seq<Move>, s: Poller)
    requires s == DoAll(Start(sub), run) && s.consumer.Waiting?
    ensures Free(s.prior) && Free(s.normal)
  {
    ReachableFree(sub, run, Prior, s);
    ReachableFree(sub, run, Normal, s);
  }

  /** From every reachable state in which the consumer waits and the wake descriptor is readable, the consumer alone
   hands out all prior values and the first 256 normal ones, in order. */
  lemma WakeUpDispatches(sub: bool, run: seq<Move>, s: Poller) returns (more: seq<Move>, u: Poller)
    requires s == DoAll(Start(sub), run) && s.consumer.Waiting? && s.wake
    requires (Shape(s.prior) ==> NoNil(s.prior)) && (Shape(s.normal) ==> NoNil(s.normal))
    ensures u == DoAll(Start(sub), run + more) && ByConsumer(more)
    ensures Shape(s.prior) && Shape(s.normal) && RoundDone(s.(wake := false), u, Abs(s.prior), Abs(s.normal))
  {
    ReachableRound(sub, run, s);
    var path;
    path, u := RoundFrom(s);
    more := RoundIsRun(Start(sub), run, s, path, u);
  }
}
