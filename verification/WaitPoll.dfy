/**
 The epoll wait loop: an event buffer that doubles when a batch fills it and halves when a batch
 uses less than half of it, and the trigger flag that only the last callback of a batch may see.
 */
module WaitPoll {

  const MAX_SIZE := 1024
  const MIN_SIZE := 32
  const INIT_SIZE := 128

  /** A ready descriptor. `again` and `fatal` are what the callback answers for it: it asks to be
   triggered again only if it was triggered, and a fatal error ends the loop. */
  datatype Event = Event(fd: int, again: bool, fatal: bool)

  /** epoll_wait: nothing (or interrupted), an error, or the ready descriptors. */
  datatype Answer = Nothing | Failed | Ready(first: Event, more: seq<Event>)

  datatype Call = Call(fd: int, triggered: bool, again: bool)

  /** A batch: the size of the buffer, the events reported in it, and the callbacks made for them. */
  datatype Batch = Batch(size: nat, ready: seq<Event>, calls: seq<Call>)

  predicate PowerOfTwoSize(size: nat) {
    size == 32 || size == 64 || size == 128 || size == 256 || size == 512 || size == 1024
  }

  function NextSize(size: nat, n: nat): (r: nat)
    requires PowerOfTwoSize(size) && n <= size
    ensures PowerOfTwoSize(r)
    ensures r == 2 * size <==> n == size && size < 1024
    ensures r == size / 2 <==> n < size / 2 && size > 32
    ensures r == size || r == 2 * size || r == size / 2
  {
    if n == size && size * 2 <= MAX_SIZE then size * 2
    else if n < size / 2 && size / 2 >= MIN_SIZE then size / 2
    else size
  }

  /** The flag left by a batch: what its last callback asked for. */
  predicate Carries(b: Batch) {
    b.calls != [] && b.calls[|b.calls| - 1].triggered && b.calls[|b.calls| - 1].again
  }

  /** Callbacks come in the order of the events. Only the last one is triggered: by its own wake
   event, or, alone in its batch, by a carried flag. A fatal error ends the batch. */
  predicate BatchRight(b: Batch, carried: bool, wakeFd: int) {
    && |b.calls| <= |b.ready|
    && (forall i :: 0 <= i < |b.calls| ==> b.calls[i].fd == b.ready[i].fd && b.calls[i].again == b.ready[i].again)
    && (forall i :: 0 <= i < |b.calls| ==>
          (b.calls[i].triggered <==> i == |b.ready| - 1 && (b.calls[i].fd == wakeFd || (|b.ready| == 1 && carried))))
    && (forall i :: 0 <= i < |b.calls| - 1 ==> !b.ready[i].fatal)
    && (|b.calls| < |b.ready| ==> |b.calls| > 0 && b.ready[|b.calls| - 1].fatal)
  }

  predicate EndsFatally(b: Batch) {
    exists i :: 0 <= i < |b.ready| && b.ready[i].fatal
  }

  predicate Carried(log: seq<Batch>, k: nat)
    requires k <= |log|
  {
    k > 0 && Carries(log[k - 1])
  }

  /** The size of the next event buffer follows from the batches so far. */
  function SizeAfter(log: seq<Batch>): (size: nat)
    ensures log == [] ==> size == 128
  {
    if log == [] then INIT_SIZE else
    var b := log[|log| - 1];
    if PowerOfTwoSize(b.size) && |b.ready| <= b.size then NextSize(b.size, |b.ready|) else b.size
  }

  predicate Fits(b: Batch, report: seq<Event>) {
    b.ready <= report && (|b.ready| == |report| || |b.ready| == b.size)
  }

  /** The kernel's reports, in order. */
  function Reports(answers: seq<Answer>): seq<seq<Event>> {
    if answers == [] then [] else
    Reports(answers[..|answers| - 1]) +
    match answers[|answers| - 1] case Ready(first, more) => [[first] + more] case _ => []
  }

  /** The k-th batch: as much of its report as fits its buffer, whose size follows from the batches
   before it, with the right callbacks. */
  predicate EntryRight(log: seq<Batch>, reports: seq<seq<Event>>, k: nat, wakeFd: int)
    requires k < |log| && k < |reports|
  {
    && PowerOfTwoSize(log[k].size) && 1 <= |log[k].ready| <= log[k].size && log[k].size == SizeAfter(log[..k])
    && Fits(log[k], reports[k])
    && BatchRight(log[k], Carried(log, k), wakeFd)
  }

  predicate LogRight(log: seq<Batch>, reports: seq<seq<Event>>, wakeFd: int) {
    |log| == |reports| && forall k :: 0 <= k < |log| ==> EntryRight(log, reports, k, wakeFd)
  }

  lemma LogGrows(log: seq<Batch>, reports: seq<seq<Event>>, b: Batch, report: seq<Event>, wakeFd: int)
    requires LogRight(log, reports, wakeFd) && PowerOfTwoSize(b.size) && 1 <= |b.ready| <= b.size
    requires b.size == SizeAfter(log) && Fits(b, report) && BatchRight(b, Carried(log, |log|), wakeFd)
    ensures LogRight(log + [b], reports + [report], wakeFd)
  {
    var log', reports' := log + [b], reports + [report];
    forall k | 0 <= k < |log'|
      ensures EntryRight(log', reports', k, wakeFd)
    {
      assert log'[..k] == log[..k];
      if k < |log| {
        assert EntryRight(log, reports, k, wakeFd);
      } else {
        assert log[..k] == log;
      }
    }
  }

  /** Blocking after an empty answer and at first, polling after a batch. */
  predicate TimeoutRight(answers: seq<Answer>, r: nat, timeout: int) {
    timeout == if 0 < r <= |answers| && answers[r - 1].Ready? then 0 else -1
  }

  method HandleBatch(events: array<Event>, n: nat, wakeFd: int, carried: bool) returns (calls: seq<Call>,
          trigger: bool, fatal: bool)
    requires 1 <= n <= events.Length
    ensures BatchRight(Batch(events.Length, events[..n], calls), carried, wakeFd)
    ensures fatal <==> EndsFatally(Batch(events.Length, events[..n], calls))
    ensures !fatal ==> |calls| == n && trigger == Carries(Batch(events.Length, events[..n], calls))
  {
    trigger, calls := carried, [];
    for i := 0 to n
      invariant |calls| == i
      invariant forall j :: 0 <= j < i ==>
                  calls[j].fd == events[j].fd && calls[j].again == events[j].again && !events[j].fatal
      invariant forall j :: 0 <= j < i ==> (calls[j].triggered <==>
          j == n - 1 && (calls[j].fd == wakeFd || (n == 1 && carried)))
      invariant trigger == if i == 0 then carried else calls[i - 1].triggered && calls[i - 1].again
    {
      var fd := events[i].fd;
      if fd == wakeFd {
        trigger := true;
      }
      var passed := i == n - 1 && trigger;
      calls := calls + [Call(fd, passed, events[i].again)];
      trigger := passed && events[i].again;
      if events[i].fatal {
        assert events[..n][i].fatal;
        return calls, trigger, true;
      }
    }
    fatal := false;
  }

  /** The kernel fills at most the buffer. */
  method Fill(events: array<Event>, ready: seq<Event>) returns (n: nat)
    requires ready != [] && events.Length > 0
    modifies events
    ensures 1 <= n <= events.Length && n <= |ready| && events[..n] == ready[..n]
    ensures n == |ready| || n == events.Length
  {
    n := if |ready| < events.Length then |ready| else events.Length;
    forall j | 0 <= j < n { events[j] := ready[j]; }
  }

  method OneBatch(events: array<Event>, report: seq<Event>, wakeFd: int, carried: bool) returns (batch: Batch,
          trigger: bool, fatal: bool)
    requires report != [] && events.Length > 0
    modifies events
    ensures batch.size == events.Length && 1 <= |batch.ready| <= batch.size && Fits(batch, report)
    ensures BatchRight(batch, carried, wakeFd) && (fatal <==> EndsFatally(batch))
    ensures !fatal ==> trigger == Carries(batch)
  {
    var n := Fill(events, report);
    var calls;
    calls, trigger, fatal := HandleBatch(events, n, wakeFd, carried);
    batch := Batch(events.Length, events[..n], calls);
  }

  method Resize(events: array<Event>, n: nat) returns (resized: array<Event>)
    requires PowerOfTwoSize(events.Length) && n <= events.Length
    ensures resized.Length == NextSize(events.Length, n)
    ensures resized == events || fresh(resized)
  {
    resized := events;
    var size := events.Length;
    if n == size && size * 2 <= MAX_SIZE {
      resized := new Event[size * 2](_ => Event(0, false, false));
    } else if n < size / 2 && size / 2 >= MIN_SIZE {
      resized := new Event[size / 2](_ => Event(0, false, false));
    }
  }

  /** The loop over the answers of epoll_wait: in every run the buffer size is a power of two in
   [32, 1024] that follows the batches, only the last callback of a batch is ever triggered, a fatal
   error ends the loop, and it waits without timeout exactly after an empty answer. */
  method WaitPoll(answers: seq<Answer>, wakeFd: int) returns (log: seq<Batch>, ended: bool, timeouts: seq<int>)
    ensures |timeouts| <= |answers| && (!ended ==> |timeouts| == |answers|)
    ensures LogRight(log, Reports(answers[..|timeouts|]), wakeFd)
    ensures forall k :: 0 <= k < |log| - 1 ==> !EndsFatally(log[k])
    ensures ended <==> |timeouts| > 0 && (answers[|timeouts| - 1].Failed? || (log != [] && EndsFatally(log[|log| - 1])))
    ensures forall r :: 0 <= r < |timeouts| ==> TimeoutRight(answers, r, timeouts[r])
  {
    var events := new Event[INIT_SIZE](_ => Event(0, false, false));
    var trigger, timeout := false, -1;
    log, timeouts := [], [];
    ghost var reports := [];
    var r := 0;
    while r < |answers|
      invariant 0 <= r <= |answers| && |timeouts| == r && fresh(events)
      invariant events.Length == SizeAfter(log) && PowerOfTwoSize(events.Length)
      invariant trigger == Carried(log, |log|)
      invariant forall k :: 0 <= k < |log| ==> !EndsFatally(log[k])
      invariant LogRight(log, reports, wakeFd) && reports == Reports(answers[..r])
      invariant r > 0 ==> !answers[r - 1].Failed?
      invariant TimeoutRight(answers, r, timeout)
      invariant forall j :: 0 <= j < r ==> TimeoutRight(answers, j, timeouts[j])
    {
      assert answers[..r + 1][..r] == answers[..r];
      assert reports + [] == reports;
      timeouts := timeouts + [timeout];
      r := r + 1;
      match answers[r - 1] {
        case Nothing => timeout := -1;
        case Failed => return log, true, timeouts;
        case Ready(first, more) =>
          timeout := 0;
          var batch, next, fatal := OneBatch(events, [first] + more, wakeFd, trigger);
          LogGrows(log, reports, batch, [first] + more, wakeFd);
          reports := reports + [[first] + more];
          trigger, log := next, log + [batch];
          if fatal {
            return log, true, timeouts;
          }
          events := Resize(events, |batch.ready|);
      }
    }
    ended := false;
  }
}
