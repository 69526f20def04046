/**
 What each call, event and task does to a TCP connection, as a function of the kernel's answers. The kernel is a
 partner that answers each system call as it likes: it takes part of the data, says EAGAIN, or fails. The elastic
 buffers are FIFO byte sequences that may show their content in any pieces. Every handler is one step.
 */
module ConnSpec {
  import opened Bytes
  import opened Common

  const IOV_MAX := 1024

  /** The kernel's answer to a write; `Sent(k)` is read as taking k bytes, but at least one and at most all. */
  datatype Answer = Sent(k: nat) | Again | Fail

  /** The kernel's answer to a read; no bytes mean that the peer closed. */
  datatype Input = Got(bytes: seq<byte>) | NothingYet | Broken

  /** One turn of the flush loop in Close: how the buffer shows its content, and the kernel's answer. */
  datatype Turn = Turn(iov: seq<seq<byte>>, answer: Answer)

  /** Any way to cut a buffer's content into nonempty pieces. */
  predicate Cuts(iov: seq<seq<byte>>, b: seq<byte>) {
    Concat(iov) == b && forall i :: 0 <= i < |iov| ==> iov[i] != []
  }

  /** Peek of everything, in the pieces the buffer happens to have. An empty buffer may show no piece or an
   empty one. */
  function Peek(iov: seq<seq<byte>>, b: seq<byte>): (r: seq<seq<byte>>)
    ensures Concat(r) == b && (b != [] ==> Cuts(r, b)) && (r == [] <==> b == [] && iov == [])
  {
    if b == [] then (if iov == [] then [] else [[]])
    else if Cuts(iov, b) then iov else
    ConcatOne(b);
    [b]
  }

  /** A non-positive count discards nothing. */
  function Discard(b: seq<byte>, n: int): seq<byte>
    requires n <= |b|
  {
    if n <= 0 then b else b[n..]
  }

  /** How many of n bytes the kernel takes. */
  function Took(answer: Answer, n: nat): (k: nat)
    ensures k <= n && (n > 0 ==> (k > 0 <==> answer.Sent?))
  {
    if !answer.Sent? then 0
    else if answer.k < 1 then Min(1, n)
    else Min(answer.k, n)
  }

  function Truncate(iov: seq<seq<byte>>): seq<seq<byte>> {
    if |iov| > IOV_MAX then iov[..IOV_MAX] else iov
  }

  /** What goes into one writev: a nonempty prefix of the buffer. */
  function Front(iov: seq<seq<byte>>, b: seq<byte>): (r: seq<byte>)
    ensures r <= b && (b != [] ==> r != [])
  {
    TruncatedPrefix(iov, b);
    Concat(Truncate(Peek(iov, b)))
  }

  lemma TruncatedPrefix(iov: seq<seq<byte>>, b: seq<byte>)
    ensures var p := Peek(iov, b);
      && |Truncate(p)| == Min(|p|, 1024) && Concat(Truncate(p)) <= b && (b != [] ==> Concat(Truncate(p)) != [])
      && (|p| == 1 ==> p[0] == b == Concat(Truncate(p)))
  {
    var p := Peek(iov, b);
    if p == [] {
      return;
    }
    var m := if |p| > IOV_MAX then IOV_MAX else |p|;
    ConcatSplit(p, m);
    ConcatFirst(p[..m]);
    assert p[..m] == Truncate(p);
    if |p| == 1 {
      ConcatOne(p[0]);
      assert p == [p[0]];
    }
  }

  /** A handler's call while it runs on a chunk. */
  datatype Action = Reads(n: nat) | Writes(data: seq<byte>, answer: Answer) | Closes(turns: seq<Turn>)

  /** A call that keeps the connection open. */
  predicate Benign(action: Action) {
    !action.Closes? && (action.Writes? ==> !action.answer.Fail?)
  }

  predicate BenignRead(input: Input, script: seq<Action>) {
    input.NothingYet? || (HasChunk(input) && forall k :: 0 <= k < |script| ==> Benign(script[k]))
  }

  predicate BenignEvents(e: Events) {
    (e.writable || e.errored ==> !e.answer.Fail?) && (Readable(e) ==> BenignRead(e.input, e.script))
  }

  predicate BenignStep(step: Step) {
    match step
    case Poll(e) => BenignEvents(e)
    case CallWrite(_, answer) => !answer.Fail?
    case CallWritev(_, answer) => !answer.Fail?
    case TaskWrite(_, answer) => !answer.Fail?
    case TaskWritev(_, answer) => !answer.Fail?
    case CallClose(_) => false
  }

  predicate HasChunk(input: Input) {
    input.Got? && input.bytes != []
  }

  /** The data of all writes among the first k calls of a script. */
  function WrittenBy(script: seq<Action>, k: nat): seq<byte>
    requires k <= |script|
  {
    if k == 0 then [] else WrittenBy(script, k - 1) + if script[k - 1].Writes? then script[k - 1].data else []
  }

  function WrittenOn(input: Input, script: seq<Action>): seq<byte> {
    if HasChunk(input) then WrittenBy(script, |script|) else []
  }

  /** `errored` stands for the bits of an error or a hang-up. */
  datatype Events = Events(errored: bool, writable: bool, split: seq<seq<byte>>, answer: Answer,
                           readable: bool, input: Input, script: seq<Action>, turns: seq<Turn>)

  predicate Readable(e: Events) {
    e.readable || e.errored
  }

  /** The event makes the loop take the first piece of a buffer that, when empty, shows none. */
  predicate FindsNothing(e: Events) {
    e.errored && e.split == []
  }

  function WrittenIn(e: Events): seq<byte> {
    if Readable(e) then WrittenOn(e.input, e.script) else []
  }

  function ReceivedIn(e: Events): seq<byte> {
    if Readable(e) && e.input.Got? then e.input.bytes else []
  }

  datatype Step =
    | Poll(events: Events)
    | CallWrite(data: seq<byte>, answer: Answer)
    | CallWritev(slices: seq<seq<byte>>, answer: Answer)
    | TaskWrite(data: seq<byte>, answer: Answer)
    | TaskWritev(slices: seq<seq<byte>>, answer: Answer)
    | CallClose(turns: seq<Turn>)

  function WrittenAt(step: Step): seq<byte> {
    match step
    case Poll(e) => WrittenIn(e)
    case CallWrite(data, _) => data
    case CallWritev(slices, _) => Concat(slices)
    case TaskWrite(data, _) => data
    case TaskWritev(slices, _) => Concat(slices)
    case CallClose(_) => []
  }

  function ArrivedAt(step: Step): seq<byte> {
    if step.Poll? then ReceivedIn(step.events) else []
  }

  /** All data that the handler and its deferred writes write in the first k steps, in order. */
  function Written(steps: seq<Step>, k: nat): seq<byte>
    requires k <= |steps|
  {
    if k == 0 then [] else Written(steps, k - 1) + WrittenAt(steps[k - 1])
  }

  /** All data that the kernel has for us in the first k steps, in order. */
  function Arrived(steps: seq<Step>, k: nat): seq<byte>
    requires k <= |steps|
  {
    if k == 0 then [] else Arrived(steps, k - 1) + ArrivedAt(steps[k - 1])
  }

  /** The step panics if nothing is buffered. */
  predicate PanicsWhenEmpty(step: Step) {
    step.Poll? && FindsNothing(step.events)
  }

  predicate AllBenign(steps: seq<Step>, k: nat)
    requires k <= |steps|
  {
    forall j :: 0 <= j < k ==> BenignStep(steps[j])
  }

  // ---------------------------------------------------------------- the books of a connection

  /** The data of the writes that were accepted and how much of it the socket took, and what arrived and how much of it
   the handler's reads returned. */
  datatype Ledger = Ledger(isOpen: bool, written: seq<byte>, sent: nat, arrived: seq<byte>, delivered: nat)

  /** What waits to be sent. */
  function Pending(s: Ledger): seq<byte> {
    if s.isOpen && s.sent <= |s.written| then s.written[s.sent..] else []
  }

  /** How much waits to be read. */
  function Ahead(s: Ledger): nat {
    if s.isOpen && s.delivered <= |s.arrived| then |s.arrived| - s.delivered else 0
  }

  /** What the flush loop from turn i on leaves unsent: it stops at the first answer that is not a success. */
  function Unsent(b: seq<byte>, turns: seq<Turn>, i: nat): (left: seq<byte>)
    ensures |left| <= |b|
    decreases |turns| - i
  {
    if b == [] || i >= |turns| || !turns[i].answer.Sent? then b else
    Unsent(b[Took(turns[i].answer, |Front(turns[i].iov, b)|)..], turns, i + 1)
  }

  lemma UnsentTurn(b: seq<byte>, turns: seq<Turn>, i: nat)
    requires b != []
    ensures Unsent(b, turns, i) ==
              if i < |turns| && turns[i].answer.Sent?
              then Unsent(b[Took(turns[i].answer, |Front(turns[i].iov, b)|)..], turns, i + 1) else b
  {
  }

  /** As many successful turns as there are bytes suffice; everything else stops the loop where it is. */
  lemma {:induction false} EnoughTurns(b: seq<byte>, turns: seq<Turn>, i: nat)
    requires i + |b| <= |turns| && forall k :: i <= k < |turns| ==> turns[k].answer.Sent?
    ensures Unsent(b, turns, i) == []
    decreases |b|
  {
    if b != [] {
      EnoughTurns(b[Took(turns[i].answer, |Front(turns[i].iov, b)|)..], turns, i + 1);
    }
  }

  function Flushed(b: seq<byte>, turns: seq<Turn>): nat {
    |b| - |Unsent(b, turns, 0)|
  }

  function Closed(s: Ledger, turns: seq<Turn>): Ledger {
    if s.isOpen then s.(isOpen := false, sent := s.sent + Flushed(Pending(s), turns)) else s
  }

  lemma ClosedEmpty(s: Ledger, turns: seq<Turn>)
    requires Pending(s) == []
    ensures Closed(s, turns) == s.(isOpen := false)
  {
  }

  function Wrote(s: Ledger, data: seq<byte>, answer: Answer): Ledger {
    if !s.isOpen then s
    else if s.sent < |s.written| then s.(written := s.written + data)
    else if answer.Fail? then s.(isOpen := false)
    else s.(written := s.written + data, sent := s.sent + Took(answer, |data|))
  }

  /** A writable socket takes something from the front of the buffer. */
  function Pushed(s: Ledger, split: seq<seq<byte>>, answer: Answer, turns: seq<Turn>): Ledger {
    if answer.Fail? then Closed(s, turns) else s.(sent := s.sent + Took(answer, |Front(split, Pending(s))|))
  }

  function ActedBy(s: Ledger, action: Action): Ledger {
    match action
    case Reads(n) => s.(delivered := s.delivered + Min(n, Ahead(s)))
    case Writes(data, answer) => Wrote(s, data, answer)
    case Closes(turns) => Closed(s, turns)
  }

  /** The first k calls of a script. */
  function ActedAll(s: Ledger, script: seq<Action>, k: nat): Ledger
    requires k <= |script|
  {
    if k == 0 then s else ActedBy(ActedAll(s, script, k - 1), script[k - 1])
  }

  function ReadEvent(s: Ledger, input: Input, script: seq<Action>, turns: seq<Turn>): Ledger {
    if !s.isOpen || input.NothingYet? then s
    else if !HasChunk(input) then Closed(s, turns)
    else ActedAll(s.(arrived := s.arrived + input.bytes), script, |script|)
  }

  /** The event calls the write handler: epoll reports the socket as writable only while something is buffered. */
  predicate CallsWriter(s: Ledger, e: Events) {
    e.errored || (e.writable && Pending(s) != [])
  }

  function Polled(s: Ledger, e: Events): Ledger {
    var pushed := if CallsWriter(s, e) then Pushed(s, e.split, e.answer, e.turns) else s;
    if Readable(e) then ReadEvent(pushed, e.input, e.script, e.turns) else pushed
  }

  function Stepped(s: Ledger, step: Step): Ledger {
    match step
    case Poll(e) => if s.isOpen then Polled(s, e) else s
    case CallWrite(data, answer) => Wrote(s, data, answer)
    case CallWritev(slices, answer) => Wrote(s, Concat(slices), answer)
    case TaskWrite(data, answer) => Wrote(s, data, answer)
    case TaskWritev(slices, answer) => Wrote(s, Concat(slices), answer)
    case CallClose(turns) => Closed(s, turns)
  }

  function Opened(greeting: seq<byte>, first: Answer): Ledger {
    Wrote(Ledger(true, [], 0, [], 0), greeting, first)
  }

  /** A connection's life, up to step k. */
  function Life(s: Ledger, steps: seq<Step>, k: nat): Ledger
    requires k <= |steps|
  {
    if k == 0 then s else Stepped(Life(s, steps, k - 1), steps[k - 1])
  }

  // ---------------------------------------------------------------- sending makes progress

  /** The socket is writable, and takes something. */
  predicate Drains(step: Step) {
    && step.Poll? && step.events.writable && !step.events.errored && !step.events.readable
    && step.events.answer.Sent?
  }

  /** From a to b only sending went on: n bytes at least, or all there were. */
  predicate Sends(a: Ledger, b: Ledger, n: nat) {
    b == a.(sent := b.sent) && Min(|a.written|, a.sent + n) <= b.sent <= |a.written|
  }

  lemma DrainsOne(s: Ledger, step: Step, u: Ledger)
    requires s.isOpen && s.sent <= |s.written| && Drains(step) && u == Stepped(s, step)
    ensures Sends(s, u, 1)
  {
  }

  lemma SendsTrans(a: Ledger, b: Ledger, c: Ledger, n: nat)
    requires Sends(a, b, n) && Sends(b, c, 1)
    ensures Sends(a, c, n + 1)
  {
  }

  lemma LifeNext(s: Ledger, steps: seq<Step>, k: nat, t: Ledger, u: Ledger)
    requires 0 < k <= |steps| && t == Life(s, steps, k - 1) && u == Life(s, steps, k)
    ensures u == Stepped(t, steps[k - 1])
  {
  }

  /** With no further writes, k writable events for which the kernel takes bytes bring the peer at least k bytes, or
   all there are. */
  lemma {:induction false} Drained(s: Ledger, steps: seq<Step>, j: nat, k: nat, a: Ledger, b: Ledger)
    requires j <= k <= |steps| && (forall i :: j <= i < k ==> Drains(steps[i]))
    requires a == Life(s, steps, j) && a.isOpen && a.sent <= |a.written| && b == Life(s, steps, k)
    ensures Sends(a, b, k - j)
    decreases k
  {
    if j < k {
      var t := Life(s, steps, k - 1);
      Drained(s, steps, j, k - 1, a, t);
      LifeNext(s, steps, k, t, b);
      DrainsOne(t, steps[k - 1], b);
      SendsTrans(a, t, b, k - 1 - j);
    }
  }

  // ---------------------------------------------------------------- what the handler's calls do together

  /** No call opens a closed connection, takes back what was delivered, or closes an open one unless it fails. */
  lemma ActKeeps(s: Ledger, action: Action)
    ensures var u := ActedBy(s, action);
      && (u.isOpen ==> s.isOpen) && s.delivered <= u.delivered && u.arrived == s.arrived
      && (s.isOpen && Benign(action) ==> u.isOpen)
  {
  }

  lemma {:induction false} ScriptKeeps(s: Ledger, script: seq<Action>, k: nat)
    requires k <= |script|
    ensures s.isOpen && (forall j :: 0 <= j < k ==> Benign(script[j])) ==> ActedAll(s, script, k).isOpen
  {
    if k > 0 {
      ScriptKeeps(s, script, k - 1);
      ActKeeps(ActedAll(s, script, k - 1), script[k - 1]);
    }
  }

  /** How much the reads among the first k calls ask for. */
  function Asked(script: seq<Action>, k: nat): nat
    requires k <= |script|
  {
    if k == 0 then 0 else Asked(script, k - 1) + if script[k - 1].Reads? then script[k - 1].n else 0
  }

  /** While the connection stays open, a script's reads deliver as many bytes as they ask for, or all there are. */
  lemma {:induction false} ScriptDelivers(s: Ledger, script: seq<Action>, k: nat)
    requires k <= |script| && ActedAll(s, script, k).isOpen && s.delivered <= |s.arrived|
    ensures ActedAll(s, script, k).delivered == Min(|s.arrived|, s.delivered + Asked(script, k))
    ensures ActedAll(s, script, k).arrived == s.arrived
  {
    if k > 0 {
      ActKeeps(ActedAll(s, script, k - 1), script[k - 1]);
      ScriptDelivers(s, script, k - 1);
    }
  }

  // ---------------------------------------------------------------- nothing is lost, whatever the kernel answers

  /** From s to u, `data` was written and `more` arrived: all of it while open, and a part when it closed. */
  predicate Adds(s: Ledger, u: Ledger, data: seq<byte>, more: seq<byte>) {
    && (u.isOpen ==> s.isOpen && u.written == s.written + data && u.arrived == s.arrived + more)
    && s.written <= u.written <= s.written + data && s.arrived <= u.arrived <= s.arrived + more
    && (s.sent <= |s.written| ==> u.sent <= |u.written|)
    && (s.delivered <= |s.arrived| ==> u.delivered <= |u.arrived|)
  }

  lemma AddsTrans(s: Ledger, t: Ledger, u: Ledger, data: seq<byte>, data': seq<byte>, more: seq<byte>, more': seq<byte>)
    requires Adds(s, t, data, more) && Adds(t, u, data', more') && (!t.isOpen ==> u == t)
    ensures Adds(s, u, data + data', more + more')
  {
    if u.isOpen {
      assert s.written + data + data' == s.written + (data + data');
      assert s.arrived + more + more' == s.arrived + (more + more');
    } else if t.isOpen {
      PrefixOf(s.written, data, data', u.written);
      PrefixOf(s.arrived, more, more', u.arrived);
    } else {
      PrefixOf(s.written, data, data', t.written);
      PrefixOf(s.arrived, more, more', t.arrived);
    }
  }

  lemma PrefixOf(a: seq<byte>, b: seq<byte>, c: seq<byte>, x: seq<byte>)
    requires a <= x
    ensures x <= a + b ==> x <= a + (b + c)
    ensures a + b <= x <= a + b + c ==> x <= a + (b + c)
  {
    assert a + b + c == a + (b + c);
  }

  lemma NothingAdded(s: Ledger)
    ensures Adds(s, s, [], [])
  {
    assert s.written + [] == s.written && s.arrived + [] == s.arrived;
  }

  lemma ClosedAdds(s: Ledger, turns: seq<Turn>, data: seq<byte>, more: seq<byte>)
    ensures Adds(s, Closed(s, turns), [], []) && !Closed(s, turns).isOpen && Adds(s, Closed(s, turns), data, more)
  {
  }

  lemma WroteAdds(s: Ledger, data: seq<byte>, answer: Answer)
    ensures Adds(s, Wrote(s, data, answer), data, [])
  {
    assert s.arrived + [] == s.arrived;
  }

  lemma PushedAdds(s: Ledger, split: seq<seq<byte>>, answer: Answer, turns: seq<Turn>)
    requires s.isOpen && s.sent <= |s.written|
    ensures Adds(s, Pushed(s, split, answer, turns), [], [])
  {
    NothingAdded(s);
    ClosedAdds(s, turns, [], []);
  }

  lemma ActAdds(s: Ledger, action: Action)
    ensures Adds(s, ActedBy(s, action), if action.Writes? then action.data else [], [])
  {
    NothingAdded(s);
    match action {
      case Reads(_) =>
      case Writes(data, answer) => WroteAdds(s, data, answer);
      case Closes(turns) => ClosedAdds(s, turns, [], []);
    }
  }

  lemma ActStaysClosed(s: Ledger, action: Action)
    requires !s.isOpen
    ensures ActedBy(s, action) == s
  {
  }

  lemma {:induction false} ScriptAdds(s: Ledger, script: seq<Action>, k: nat)
    requires k <= |script|
    ensures Adds(s, ActedAll(s, script, k), WrittenBy(script, k), [])
  {
    if k == 0 {
      NothingAdded(s);
    } else {
      var t, action := ActedAll(s, script, k - 1), script[k - 1];
      ScriptAdds(s, script, k - 1);
      ActAdds(t, action);
      if !t.isOpen {
        ActStaysClosed(t, action);
      }
      AddsTrans(s, t, ActedBy(t, action), WrittenBy(script, k - 1), if action.Writes? then action.data else [], [], []);
    }
  }

  lemma ChunkAdds(s: Ledger, bytes: seq<byte>, script: seq<Action>)
    requires s.isOpen
    ensures Adds(s, ActedAll(s.(arrived := s.arrived + bytes), script, |script|), WrittenBy(script, |script|), bytes)
  {
    var t := s.(arrived := s.arrived + bytes);
    assert s.written + [] == s.written;
    ScriptAdds(t, script, |script|);
    AddsTrans(s, t, ActedAll(t, script, |script|), [], WrittenBy(script, |script|), bytes, []);
    NoneMore(WrittenBy(script, |script|), bytes);
  }

  lemma NoneMore(data: seq<byte>, more: seq<byte>)
    ensures [] + data == data && more + [] == more && [] + more == more
  {
  }

  lemma ReadAdds(s: Ledger, input: Input, script: seq<Action>, turns: seq<Turn>)
    ensures Adds(s, ReadEvent(s, input, script, turns), WrittenOn(input, script),
                 if input.Got? then input.bytes else [])
  {
    NothingAdded(s);
    if s.isOpen && HasChunk(input) {
      ChunkAdds(s, input.bytes, script);
    } else if s.isOpen && !input.NothingYet? {
      ClosedAdds(s, turns, [], []);
    }
  }

  lemma PolledAdds(s: Ledger, e: Events)
    requires s.isOpen && s.sent <= |s.written|
    ensures Adds(s, Polled(s, e), WrittenIn(e), ReceivedIn(e))
  {
    var pushed := if CallsWriter(s, e) then Pushed(s, e.split, e.answer, e.turns) else s;
    NothingAdded(s);
    PushedAdds(s, e.split, e.answer, e.turns);
    if Readable(e) {
      ReadAdds(pushed, e.input, e.script, e.turns);
      AddsTrans(s, pushed, Polled(s, e), [], WrittenIn(e), [], ReceivedIn(e));
      NoneMore(WrittenIn(e), ReceivedIn(e));
    }
  }

  lemma SteppedAdds(s: Ledger, step: Step)
    requires s.sent <= |s.written|
    ensures Adds(s, Stepped(s, step), WrittenAt(step), ArrivedAt(step))
    ensures !s.isOpen ==> Stepped(s, step) == s
  {
    match step {
      case Poll(e) => if s.isOpen { PolledAdds(s, e); }
      case CallWrite(data, answer) => WroteAdds(s, data, answer);
      case CallWritev(slices, answer) => WroteAdds(s, Concat(slices), answer);
      case TaskWrite(data, answer) => WroteAdds(s, data, answer);
      case TaskWritev(slices, answer) => WroteAdds(s, Concat(slices), answer);
      case CallClose(turns) => ClosedAdds(s, turns, [], []);
    }
  }

  /** Over a life: while the connection is open all that was written and all that arrived is on the books, and when it
   closed the books hold a part of each; nobody is told more than there is. */
  lemma {:induction false} LifeAdds(s: Ledger, steps: seq<Step>, k: nat)
    requires k <= |steps| && s.sent <= |s.written| && s.delivered <= |s.arrived|
    ensures var u := Life(s, steps, k);
      Adds(s, u, Written(steps, k), Arrived(steps, k)) && u.sent <= |u.written| && u.delivered <= |u.arrived|
  {
    if k == 0 {
      NothingAdded(s);
    } else {
      var t := Life(s, steps, k - 1);
      LifeAdds(s, steps, k - 1);
      SteppedAdds(t, steps[k - 1]);
      AddsTrans(s, t, Stepped(t, steps[k - 1]), Written(steps, k - 1), WrittenAt(steps[k - 1]), Arrived(steps, k - 1),
                ArrivedAt(steps[k - 1]));
    }
  }

  lemma {:induction false} ClosedForGood(s: Ledger, steps: seq<Step>, k: nat)
    requires k <= |steps| && !s.isOpen
    ensures Life(s, steps, k) == s
  {
    if k > 0 {
      ClosedForGood(s, steps, k - 1);
    }
  }

  lemma BenignStays(s: Ledger, step: Step)
    requires s.isOpen && BenignStep(step)
    ensures Stepped(s, step).isOpen
  {
    if step.Poll? && Readable(step.events) && HasChunk(step.events.input) {
      var e := step.events;
      var pushed := if CallsWriter(s, e) then Pushed(s, e.split, e.answer, e.turns) else s;
      ScriptKeeps(pushed.(arrived := pushed.arrived + e.input.bytes), e.script, |e.script|);
    }
  }

  /** A connection stays open as long as no call fails and nobody closes it. */
  lemma {:induction false} LifeStaysOpen(s: Ledger, steps: seq<Step>, k: nat)
    requires k <= |steps| && s.isOpen && AllBenign(steps, k)
    ensures Life(s, steps, k).isOpen
  {
    if k > 0 {
      LifeStaysOpen(s, steps, k - 1);
      BenignStays(Life(s, steps, k - 1), steps[k - 1]);
    }
  }
}
