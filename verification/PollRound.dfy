/**
 One triggered callback of the poller: drain the prior tasks, then at most 256 normal ones, hand
 each to the goroutine pool, wait for all of them in any completion order, look for a stop error,
 store 0 to `toTrigger`, and re-arm if tasks remain. No producer runs during the round.
 */
module PollRound {
  import opened Common

  const MAX_TASKS := 256

  datatype Error = NoError | EngineShutdown | AcceptSocket | OtherError

  /** A task is known by its identity and by the error its function will return. */
  datatype Task = Task(id: nat, result: Error)

  predicate StopError(e: Error) {
    e == EngineShutdown || e == AcceptSocket
  }

  /** doWaitCallbackErr: only the stop errors leave the wait loop. */
  function DoWaitCallbackErr(e: Error): (r: Error)
    ensures r != NoError <==> StopError(e)
    ensures r != NoError ==> r == e
  {
    match e
    case NoError => NoError
    case EngineShutdown => e
    case AcceptSocket => e
    case OtherError => NoError
  }

  /** What one round hands out, in order. */
  function Dispatch(prior: seq<Task>, tasks: seq<Task>): seq<Task> {
    prior + tasks[..Min(|tasks|, MAX_TASKS)]
  }

  predicate WantsStop(ts: seq<Task>) {
    exists i :: 0 <= i < |ts| && StopError(ts[i].result)
  }

  /** How many of them will return a stop error. */
  function Stops(ts: seq<Task>): nat {
    if ts == [] then 0 else Stops(ts[..|ts| - 1]) + if StopError(ts[|ts| - 1].result) then 1 else 0
  }

  lemma {:induction false} StopsAppend(a: seq<Task>, b: seq<Task>)
    ensures Stops(a + b) == Stops(a) + Stops(b)
    decreases |b|
  {
    if b == [] {
      assert a + b == a;
    } else {
      StopsAppend(a, b[..|b| - 1]);
      assert (a + b)[..|a + b| - 1] == a + b[..|b| - 1];
    }
  }

  lemma StopsWithout(a: seq<Task>, t: Task, b: seq<Task>, ts: seq<Task>)
    requires ts == a + [t] + b
    ensures Stops(ts) == Stops(a + b) + if StopError(t.result) then 1 else 0
  {
    StopsAppend(a + [t], b);
    StopsAppend(a, [t]);
    StopsAppend(a, b);
    assert [t][..0] == [];
  }

  /** While submitted tasks finish: what `sent` held at first and what `all` returned so far is in the channel,
   as far as there is room. */
  ghost predicate Collects(capacity: nat, sent: seq<Error>, all: seq<Task>, running: seq<Task>, channel: seq<Error>) {
    && sent <= channel && (forall k :: 0 <= k < |running| ==> running[k] in all)
    && Min(capacity, |channel| + Stops(running)) == Min(capacity, |sent| + Stops(all))
    && (sent == [] && channel != [] ==> exists k :: 0 <= k < |all| && all[k].result == channel[0])
  }

  lemma CollectsNext(capacity: nat, sent: seq<Error>, all: seq<Task>, a: seq<Task>, t: Task, b: seq<Task>,
                     running: seq<Task>, channel: seq<Error>, channel': seq<Error>)
    requires Collects(capacity, sent, all, running, channel) && running == a + [t] + b && |channel| <= capacity
    requires channel' == if StopError(t.result) && |channel| < capacity then channel + [t.result] else channel
    ensures Collects(capacity, sent, all, a + b, channel')
  {
    StopsWithout(a, t, b, running);
    assert running[|a|] == t;
    forall k | 0 <= k < |a + b|
      ensures (a + b)[k] in all
    {
      assert (a + b)[k] == running[if k < |a| then k else k + 1];
    }
  }

  lemma {:induction false} StopsWant(ts: seq<Task>)
    ensures Stops(ts) > 0 <==> WantsStop(ts)
    decreases |ts|
  {
    if ts != [] {
      var n := |ts| - 1;
      StopsWant(ts[..n]);
      if k :| 0 <= k < |ts| && StopError(ts[k].result) {
        assert k == n || ts[..n][k] == ts[k];
      }
    }
  }

  class Poller {
    const pool: bool          // a goroutine pool is set
    const capacity: nat       // of the ErrForStop channel
    var priorTasks: seq<Task>
    var tasks: seq<Task>
    var toTrigger: bool
    var wake: bool            // the wake descriptor is readable
    var errForStop: seq<Error>
    var running: seq<Task>    // submitted to the pool and not finished: what the wait group counts
    ghost var log: seq<Task>  // everything handed out

    constructor (pool: bool, capacity: nat)
      ensures this.pool == pool && this.capacity == capacity
      ensures priorTasks == [] && tasks == [] && !toTrigger && !wake
      ensures errForStop == [] && running == [] && log == []
    {
      this.pool, this.capacity := pool, capacity;
      priorTasks, tasks, toTrigger, wake := [], [], false, false;
      errForStop, running, log := [], [], [];
    }

    /** Only stop errors are ever sent. */
    ghost predicate Valid()
      reads this
    {
      |errForStop| <= capacity && forall i :: 0 <= i < |errForStop| ==> StopError(errForStop[i])
    }

    method AddTask(task: Task)
      modifies this`tasks, this`toTrigger, this`wake
      ensures tasks == old(tasks) + [task] && toTrigger
      ensures wake == (old(wake) || !old(toTrigger))
    {
      tasks := tasks + [task];
      if !toTrigger {
        toTrigger := true;
        wake := true;
      }
    }

    method AddPriorTask(task: Task)
      modifies this`priorTasks, this`toTrigger, this`wake
      ensures priorTasks == old(priorTasks) + [task] && toTrigger
      ensures wake == (old(wake) || !old(toTrigger))
    {
      priorTasks := priorTasks + [task];
      if !toTrigger {
        toTrigger := true;
        wake := true;
      }
    }

    /** Without a pool a task runs at once and its error is the result; with one it is submitted. */
    method RunTask(task: Task) returns (err: Error)
      modifies this`running, this`log
      ensures log == old(log) + [task]
      ensures running == if pool then old(running) + [task] else old(running)
      ensures err == if pool then NoError else DoWaitCallbackErr(task.result)
    {
      log := log + [task];
      if pool {
        running := running + [task];
        err := NoError;
      } else {
        err := DoWaitCallbackErr(task.result);
      }
    }

    /** A pooled task finishes: a stop error is sent unless the channel is full. */
    method Finish(i: nat)
      requires Valid() && i < |running|
      modifies this`running, this`errForStop
      ensures Valid()
      ensures running == old(running)[..i] + old(running)[i + 1..]
      ensures errForStop == if StopError(old(running)[i].result) && |old(errForStop)| < capacity
                            then old(errForStop) + [old(running)[i].result] else old(errForStop)
    {
      var task := running[i];
      running := running[..i] + running[i + 1..];
      if StopError(task.result) && |errForStop| < capacity {
        errForStop := errForStop + [task.result];
      }
    }

    /** wg.Wait: the submitted tasks finish in some order. */
    method Wait()
      requires Valid()
      modifies this`running, this`errForStop
      ensures Valid() && running == []
      ensures old(errForStop) <= errForStop
      ensures errForStop != [] <==> old(errForStop) != [] || (capacity > 0 && WantsStop(old(running)))
      ensures old(errForStop) == [] && errForStop != [] ==>
                exists k :: 0 <= k < |old(running)| && old(running)[k].result == errForStop[0]
      ensures |errForStop| == Min(capacity, |old(errForStop)| + Stops(old(running)))
    {
      ghost var all, sent := running, errForStop;
      StopsWant(all);
      while running != []
        invariant Valid() && Collects(capacity, sent, all, running, errForStop)
        decreases |running|
      {
        var i :| 0 <= i < |running|;
        ghost var before, channel := running, errForStop;
        Finish(i);
        assert before == before[..i] + [before[i]] + before[i + 1..];
        CollectsNext(capacity, sent, all, before[..i], before[i], before[i + 1..], before, channel, errForStop);
      }
    }

    /** Runs all prior tasks. */
    method HandOutPrior()
      modifies this`priorTasks, this`running, this`log
      ensures priorTasks == [] && log == old(log) + old(priorTasks)
      ensures running == if pool then old(running) + old(priorTasks) else old(running)
    {
      ghost var prior0, done := priorTasks, [];
      while priorTasks != []
        invariant done + priorTasks == prior0 && log == old(log) + done
        invariant running == if pool then old(running) + done else old(running)
        decreases |priorTasks|
      {
        var t := priorTasks[0];
        done := done + [t];
        priorTasks := priorTasks[1..];
        var _ := RunTask(t);
      }
      assert done + [] == done;
    }

    /** Runs at most 256 of the others. */
    method HandOutTasks()
      modifies this`tasks, this`running, this`log
      ensures var n := Min(|old(tasks)|, 256);
        && tasks == old(tasks)[n..] && log == old(log) + old(tasks)[..n]
        && running == if pool then old(running) + old(tasks)[..n] else old(running)
    {
      ghost var tasks0 := tasks;
      var i := 0;
      while i < MAX_TASKS
        invariant 0 <= i <= MAX_TASKS && i <= |tasks0| && tasks == tasks0[i..] && log == old(log) + tasks0[..i]
        invariant running == if pool then old(running) + tasks0[..i] else old(running)
      {
        if tasks == [] {
          break;
        }
        var t := tasks[0];
        tasks := tasks[1..];
        var _ := RunTask(t);
        i := i + 1;
      }
    }

    /** Both, one after the other. */
    method HandOut()
      requires running == []
      modifies this`priorTasks, this`tasks, this`running, this`log
      ensures priorTasks == [] && tasks == old(tasks)[Min(|old(tasks)|, 256)..]
      ensures log == old(log) + Dispatch(old(priorTasks), old(tasks))
      ensures running == if pool then Dispatch(old(priorTasks), old(tasks)) else []
    {
      HandOutPrior();
      HandOutTasks();
    }

    /** The triggered part of the wait callback. */
    method Round() returns (trigger: bool, err: Error)
      requires Valid() && running == []
      modifies this
      ensures Valid() && running == []
      ensures log == old(log) + Dispatch(old(priorTasks), old(tasks))
      ensures priorTasks == [] && tasks == old(tasks)[Min(|old(tasks)|, 256)..]
      ensures err != NoError <==>
                old(errForStop) != [] || (pool && capacity > 0 && WantsStop(Dispatch(old(priorTasks), old(tasks))))
      ensures StopError(err) || err == NoError
      ensures old(errForStop) == [] && err != NoError ==>
                exists k :: 0 <= k < |Dispatch(old(priorTasks), old(tasks))|
                  && Dispatch(old(priorTasks), old(tasks))[k].result == err
      ensures err == NoError ==>
                errForStop == [] && toTrigger == trigger == (tasks != []) && wake == (old(wake) || tasks != [])
      ensures err != NoError ==> !trigger && toTrigger == old(toTrigger) && wake == old(wake)
      ensures err != NoError ==> old(errForStop) <= [err] + errForStop
      ensures var stops := if pool then Stops(Dispatch(old(priorTasks), old(tasks))) else 0;
        err != NoError ==> 1 + |errForStop| == Min(capacity, |old(errForStop)| + stops)
    {
      trigger, err := false, NoError;
      HandOut();
      Wait();
      if errForStop != [] {
        err := errForStop[0];
        errForStop := errForStop[1..];
        return;
      }
      toTrigger := false;
      if tasks != [] || priorTasks != [] {
        toTrigger := true;
        wake := true;
        trigger := true;
      }
    }
  }

  /** Rounds that hand out b normal tasks: one if there are none, else one per 256 begun. */
  function RoundsNeeded(b: nat): nat {
    if b <= MAX_TASKS then 1 else 1 + RoundsNeeded(b - MAX_TASKS)
  }

  lemma {:induction false} RoundsNeededIs(b: nat)
    ensures RoundsNeeded(b) == if b == 0 then 1 else (b + 255) / 256
    decreases b
  {
    if b > MAX_TASKS {
      RoundsNeededIs(b - MAX_TASKS);
    }
  }

  lemma NoStopInPart(whole: seq<Task>, prior: seq<Task>, tasks: seq<Task>)
    requires !WantsStop(whole)
    requires forall t :: t in prior || t in tasks ==> t in whole
    ensures !WantsStop(Dispatch(prior, tasks))
  {
    var d := Dispatch(prior, tasks);
    forall i | 0 <= i < |d|
      ensures !StopError(d[i].result)
    {
      assert d[i] in whole;
    }
  }

  /** With no new arrivals and no stop error, the backlog is handed out in order, the prior tasks
   first, in exactly max(1, ceil(B / 256)) triggered rounds. */
  method DrainBacklog(prior: seq<Task>, backlog: seq<Task>, pool: bool, capacity: nat) returns (rounds: nat,
          order: seq<Task>, armed: bool)
    requires pool && capacity > 0 ==> !WantsStop(prior + backlog)
    ensures rounds == if backlog == [] then 1 else (|backlog| + 255) / 256
    ensures order == prior + backlog && !armed
  {
    var p := new Poller(pool, capacity);
    p.priorTasks, p.tasks, p.toTrigger, p.wake := prior, backlog, true, true;
    order, rounds := [], 0;
    var again := true;
    while again
      invariant p.Valid() && p.running == [] && p.errForStop == [] && fresh(p)
      invariant p.pool == pool && p.capacity == capacity
      invariant order + p.priorTasks + p.tasks == prior + backlog
      invariant again ==> rounds + RoundsNeeded(|p.tasks|) == RoundsNeeded(|backlog|)
      invariant again ==> p.toTrigger && p.wake
      invariant !again ==> rounds == RoundsNeeded(|backlog|) && p.tasks == [] && p.priorTasks == [] && !p.toTrigger
      decreases again, |p.tasks|
    {
      p.wake := false;
      var taken := Dispatch(p.priorTasks, p.tasks);
      if pool && capacity > 0 {
        NoStopInPart(prior + backlog, p.priorTasks, p.tasks);
      }
      ghost var before := p.tasks;
      var err;
      again, err := p.Round();
      assert before == before[..Min(|before|, MAX_TASKS)] + p.tasks;
      order := order + taken;
      rounds := rounds + 1;
    }
    armed := p.toTrigger;
    RoundsNeededIs(|backlog|);
  }

  /** What each triggered round hands out when `arrivals` come in between and `left` is still queued. */
  function Handed(arrivals: seq<(seq<Task>, seq<Task>)>, left: seq<Task>): seq<seq<Task>> {
    if arrivals == [] then [] else
    var tasks := left + arrivals[0].1;
    [Dispatch(arrivals[0].0, tasks)] + Handed(arrivals[1..], tasks[Min(|tasks|, MAX_TASKS)..])
  }

  predicate Fails(ts: seq<Task>, e: Error) {
    exists k :: 0 <= k < |ts| && ts[k].result == e
  }

  /** The wait loop over any number of triggered rounds, each preceded by arrivals: it ends in the
   first round that handed out a stopping task, and only then, if there is a pool and the channel
   can hold an error; otherwise it never ends by itself. */
  method ServeRounds(arrivals: seq<(seq<Task>, seq<Task>)>, pool: bool, capacity: nat)
    returns (ended: bool, stoppedBy: Error, rounds: seq<seq<Task>>)
    ensures rounds <= Handed(arrivals, [])
    ensures ended <==> stoppedBy != NoError
    ensures !ended ==> rounds == Handed(arrivals, [])
    ensures forall r :: 0 <= r < |rounds| - 1 ==> !(pool && capacity > 0 && WantsStop(rounds[r]))
    ensures |rounds| > 0 ==> (ended <==> pool && capacity > 0 && WantsStop(rounds[|rounds| - 1]))
    ensures ended ==> |rounds| > 0 && StopError(stoppedBy) && Fails(rounds[|rounds| - 1], stoppedBy)
  {
    var p := new Poller(pool, capacity);
    rounds := [];
    var r := 0;
    while r < |arrivals|
      invariant 0 <= r <= |arrivals| && |rounds| == r && fresh(p) && p.priorTasks == []
      invariant p.Valid() && p.running == [] && p.errForStop == [] && p.pool == pool && p.capacity == capacity
      invariant forall k :: 0 <= k < r ==> !(pool && capacity > 0 && WantsStop(rounds[k]))
      invariant Handed(arrivals, []) == rounds + Handed(arrivals[r..], p.tasks)
    {
      assert arrivals[r..][1..] == arrivals[r + 1..];
      ghost var handed, rest := rounds, arrivals[r + 1..];
      p.priorTasks := p.priorTasks + arrivals[r].0;
      p.tasks := p.tasks + arrivals[r].1;
      assert p.priorTasks == arrivals[r].0;
      rounds := rounds + [Dispatch(p.priorTasks, p.tasks)];
      var _, err := p.Round();
      assert Handed(arrivals, []) == handed + ([rounds[r]] + Handed(rest, p.tasks));
      r := r + 1;
      var out := DoWaitCallbackErr(err);
      if out != NoError {
        return true, out, rounds;
      }
    }
    return false, NoError, rounds;
  }
}
