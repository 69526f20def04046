/**
 A TCP connection between its handler and a non-blocking socket, as the object it is: its methods update its fields
 and buffers, and each is proved to do what `ConnSpec` says. `Live` drives a whole life.
 */
module ConnStream {
  import opened Bytes
  import opened Common
  import opened ConnSpec

  datatype Errno = NoError | EAGAIN | EBADF | EIO | EEXIST | EOF

  /** What epoll reports for the descriptor. */
  datatype Interest = ReadOnly | ReadWrite | WriteOnly

  class Conn {
    var isOpen: bool
    var outBuffer: seq<byte>
    var inBuffer: seq<byte>
    var buffer: seq<byte>           // the unread rest of the chunk read last
    // the kernel's side
    var fdOpen: bool
    var interest: Option<Interest>
    var taken: seq<byte>            // what the socket took
    var received: seq<byte>         // what was read from the socket
    // the handler's side
    var promised: seq<byte>         // the data of its successful writes
    var delivered: seq<byte>        // what its reads returned

    ghost function View(): Ledger
      reads this
    {
      Ledger(isOpen, promised, |taken|, received, |delivered|)
    }

    /** Outbound: while open, nothing is lost, duplicated or reordered, and epoll reports the descriptor
     as writable exactly when there is something to write. After a failure the peer has a prefix. */
    ghost predicate OutOk()
      reads this
    {
      if isOpen then
        && fdOpen && taken + outBuffer == promised
        && interest == Some(if outBuffer != [] then ReadWrite else ReadOnly)
      else !fdOpen && taken <= promised && outBuffer == [] && interest == None
    }

    /** Inbound, between events: what was not delivered is in the inbound buffer. */
    ghost predicate InOk()
      reads this
    {
      if isOpen then received == delivered + inBuffer else delivered <= received && inBuffer == [] && buffer == []
    }

    /** Inbound, while the handler runs on a chunk. */
    ghost predicate TrackOk()
      reads this
    {
      if isOpen then received == delivered + inBuffer + buffer
      else delivered <= received && inBuffer == [] && buffer == []
    }

    /** A new connection that the loop registered for reading. */
    constructor ()
      ensures !isOpen && fdOpen && interest == Some(ReadOnly)
      ensures outBuffer == [] && inBuffer == [] && buffer == []
      ensures taken == [] && received == [] && promised == [] && delivered == []
    {
      isOpen, outBuffer, inBuffer, buffer := false, [], [], [];
      fdOpen, interest, taken, received := true, Some(ReadOnly), [], [];
      promised, delivered := [], [];
    }

    // -------------------------------------------------------------- system calls

    /** write and writev; there is nothing to wait for when there is nothing to send. */
    method SysWrite(data: seq<byte>, answer: Answer) returns (n: int, err: Errno)
      modifies this`taken
      ensures !fdOpen ==> n == -1 && err == EBADF
      ensures fdOpen && answer.Again? && data != [] ==> n == -1 && err == EAGAIN
      ensures fdOpen && answer.Fail? ==> n == -1 && err == EIO
      ensures fdOpen && (answer.Sent? || (answer.Again? && data == [])) ==> n == Took(answer, |data|) && err == NoError
      ensures taken == old(taken) + if fdOpen then data[..Took(answer, |data|)] else []
    {
      if !fdOpen {
        return -1, EBADF;
      }
      match answer
      case Again =>
        if data == [] { return 0, NoError; }
        return -1, EAGAIN;
      case Fail => return -1, EIO;
      case Sent(_) =>
        n, err := Took(answer, |data|), NoError;
        taken := taken + data[..n];
    }

    method SysRead(input: Input) returns (data: seq<byte>, err: Errno)
      modifies this`received
      ensures !fdOpen ==> err == EBADF
      ensures fdOpen ==> err == if input.Got? then NoError else if input.NothingYet? then EAGAIN else EIO
      ensures data == if err == NoError then input.bytes else []
      ensures received == old(received) + data
    {
      if !fdOpen {
        return [], EBADF;
      }
      match input
      case NothingYet => return [], EAGAIN;
      case Broken => return [], EIO;
      case Got(bytes) =>
        data, err := bytes, NoError;
        received := received + data;
    }

    /** epoll_ctl with EPOLL_CTL_ADD fails on a registered descriptor. */
    method EpollAdd(events: Interest) returns (err: Errno)
      modifies this`interest
      ensures old(interest).Some? ==> err == EEXIST && interest == old(interest)
      ensures old(interest).None? ==> err == NoError && interest == Some(events)
    {
      if interest.Some? {
        return EEXIST;
      }
      interest := Some(events);
      return NoError;
    }

    /** epoll_ctl with EPOLL_CTL_MOD */
    method EpollMod(events: Interest)
      requires interest.Some?
      modifies this`interest
      ensures interest == Some(events)
    {
      interest := Some(events);
    }

    // -------------------------------------------------------------- closing

    /** One turn of the loop below; `more` is false when the kernel does not take anything. */
    method FlushOnce(turn: Turn) returns (more: bool)
      requires fdOpen && outBuffer != []
      modifies this`outBuffer, this`taken
      ensures more <==> turn.answer.Sent?
      ensures var n := Took(turn.answer, |Front(turn.iov, old(outBuffer))|);
        taken == old(taken) + old(outBuffer)[..n] && outBuffer == old(outBuffer)[n..]
    {
      var iov := Peek(turn.iov, outBuffer);
      TruncatedPrefix(turn.iov, outBuffer);
      if |iov| > IOV_MAX {
        iov := iov[..IOV_MAX];
      }
      var n, e := SysWrite(Concat(iov), turn.answer);
      if e != NoError {
        return false;
      }
      outBuffer := Discard(outBuffer, n);
      return true;
    }

    /** Sends what is buffered as long as the kernel takes it, and gives up on any error, EAGAIN included. */
    method FlushAll(turns: seq<Turn>)
      requires fdOpen
      modifies this`outBuffer, this`taken
      ensures outBuffer == Unsent(old(outBuffer), turns, 0)
      ensures taken + outBuffer == old(taken + outBuffer) && old(taken) <= taken
    {
      var i, more := 0, true;
      while outBuffer != [] && more
        invariant i <= |turns| && taken + outBuffer == old(taken + outBuffer) && old(taken) <= taken
        invariant Unsent(old(outBuffer), turns, 0) == if more then Unsent(outBuffer, turns, i) else outBuffer
        decreases more, |outBuffer|
      {
        UnsentTurn(outBuffer, turns, i);
        ghost var before, b := taken, outBuffer;
        more := FlushOnce(if i < |turns| then turns[i] else Turn([], Fail));
        FrontMoved(before, b, |b| - |outBuffer|);
        i := if more then i + 1 else i;
      }
    }

    /** Tries once to send the rest, then unregisters and closes the descriptor and drops all buffers. */
    method Close(turns: seq<Turn>)
      requires OutOk()
      modifies this
      ensures OutOk() && View() == Closed(old(View()), turns)
      ensures received == old(received) && delivered == old(delivered) && old(taken) <= taken
      ensures (inBuffer, buffer) == if old(isOpen) then ([], []) else old((inBuffer, buffer))
    {
      if !isOpen {
        return;
      }
      PendingIs(taken, outBuffer, View());
      if outBuffer != [] {
        FlushAll(turns);
      }
      interest, fdOpen := None, false;
      isOpen, buffer, inBuffer, outBuffer := false, [], [], [];
    }

    // -------------------------------------------------------------- writing

    /** Writes at once what the socket takes if nothing is waiting, and buffers the rest. */
    method Write(data: seq<byte>, answer: Answer) returns (n: int, err: Errno)
      requires OutOk()
      modifies this
      ensures OutOk() && View() == Wrote(old(View()), data, answer)
      ensures n == (if isOpen then |data| else -1) && err == NoError
      ensures received == old(received) && delivered == old(delivered) && old(taken) <= taken
      ensures (inBuffer, buffer) == if old(isOpen) && !isOpen then ([], []) else old((inBuffer, buffer))
    {
      if outBuffer != [] {
        outBuffer := outBuffer + data;
        promised := promised + data;
        return |data|, NoError;
      }
      n := WriteNow(data, answer);
      err := NoError;
    }

    /** The end of write when nothing is waiting. */
    method WriteNow(data: seq<byte>, answer: Answer) returns (n: int)
      requires OutOk() && outBuffer == []
      modifies this
      ensures OutOk() && View() == Wrote(old(View()), data, answer)
      ensures n == if isOpen then |data| else -1
      ensures received == old(received) && delivered == old(delivered) && old(taken) <= taken
      ensures (inBuffer, buffer) == if old(isOpen) && !isOpen then ([], []) else old((inBuffer, buffer))
    {
      var sent, e := SysWrite(data, answer);
      if e == EAGAIN {
        outBuffer := outBuffer + data;
        EpollMod(ReadWrite);
      } else if e != NoError {
        Close([]);
        return -1;
      } else if sent < |data| {
        outBuffer := outBuffer + data[sent..];
        EpollMod(ReadWrite);
      }
      promised := promised + data;
      return |data|;
    }

    // -------------------------------------------------------------- several slices at once

    /** Buffers what is left after `sent` bytes. */
    method KeepRest(data: array<seq<byte>>, sent: nat)
      requires interest.Some? && sent < |Concat(data[..])|
      modifies this`outBuffer, this`interest, data
      ensures outBuffer == old(outBuffer) + Concat(old(data[..]))[sent..] && interest == Some(ReadWrite)
    {
      var pos := Trim(data, sent);
      outBuffer := outBuffer + Concat(data[pos..]);
      EpollMod(ReadWrite);
    }

    /** The end of writev when nothing is waiting: `all` is the data of the slices. */
    method SendSlices(data: array<seq<byte>>, all: seq<byte>, answer: Answer) returns (n: int)
      requires OutOk() && outBuffer == [] && all == Concat(data[..])
      modifies this, data
      ensures OutOk() && View() == Wrote(old(View()), all, answer)
      ensures n == (if isOpen then |all| else -1)
      ensures received == old(received) && delivered == old(delivered) && old(taken) <= taken
      ensures (inBuffer, buffer) == if old(isOpen) && !isOpen then ([], []) else old((inBuffer, buffer))
    {
      var sent, e := SysWrite(all, answer);
      if e == EAGAIN {
        outBuffer := outBuffer + all;
        EpollMod(ReadWrite);
      } else if e != NoError {
        Close([]);
        return -1;
      } else if sent < |all| {
        KeepRest(data, sent);
      }
      promised := promised + all;
      return |all|;
    }

    /** Like Write for the concatenation of the slices; a slice that was sent in part is trimmed in place. */
    method Writev(data: array<seq<byte>>, answer: Answer) returns (n: int, err: Errno)
      requires OutOk()
      modifies this, data
      ensures OutOk() && View() == Wrote(old(View()), Concat(old(data[..])), answer)
      ensures n == (if isOpen then |Concat(old(data[..]))| else -1) && err == NoError
      ensures received == old(received) && delivered == old(delivered) && old(taken) <= taken
      ensures (inBuffer, buffer) == if old(isOpen) && !isOpen then ([], []) else old((inBuffer, buffer))
    {
      var all := Concat(data[..]);
      err := NoError;
      n := Total(data);
      if outBuffer != [] {
        outBuffer := outBuffer + all;
        promised := promised + all;
        return;
      }
      n := SendSlices(data, all, answer);
    }

    // -------------------------------------------------------------- the loop's and the pool's tasks

    /** asyncWrite: dropped without a word once the connection is closed. */
    method AsyncWrite(data: seq<byte>, answer: Answer)
      requires OutOk()
      modifies this
      ensures OutOk() && View() == Wrote(old(View()), data, answer)
      ensures received == old(received) && delivered == old(delivered) && old(taken) <= taken
      ensures (inBuffer, buffer) == if old(isOpen) && !isOpen then ([], []) else old((inBuffer, buffer))
    {
      if !isOpen {
        return;
      }
      var n, err := Write(data, answer);
    }

    method AsyncWritev(data: array<seq<byte>>, answer: Answer)
      requires OutOk()
      modifies this, data
      ensures OutOk() && View() == Wrote(old(View()), Concat(old(data[..])), answer)
      ensures received == old(received) && delivered == old(delivered) && old(taken) <= taken
      ensures (inBuffer, buffer) == if old(isOpen) && !isOpen then ([], []) else old((inBuffer, buffer))
    {
      if !isOpen {
        return;
      }
      var n, err := Writev(data, answer);
    }

    /** Offers the front of the buffer to the socket and discards what was taken. */
    method SendFront(split: seq<seq<byte>>, answer: Answer) returns (err: Errno)
      requires fdOpen && (outBuffer != [] || split != [])
      modifies this`outBuffer, this`taken
      ensures err == if answer.Fail? then EIO else if answer.Again? && old(outBuffer) != [] then EAGAIN else NoError
      ensures taken + outBuffer == old(taken + outBuffer)
      ensures taken == old(taken) + old(outBuffer)[..Took(answer, |Front(split, old(outBuffer))|)]
    {
      var iov := Peek(split, outBuffer);
      TruncatedPrefix(split, outBuffer);
      var n;
      if |iov| > 1 {
        if |iov| > IOV_MAX {
          iov := iov[..IOV_MAX];
        }
        n, err := SysWrite(Concat(iov), answer);
      } else {
        n, err := SysWrite(iov[0], answer);
      }
      FrontMoved(old(taken), outBuffer, if n < 0 then 0 else n);
      outBuffer := Discard(outBuffer, n);
    }

    /** Sends from the buffer when the socket is writable. With nothing buffered the first piece may be missing,
     and taking it panics. */
    method WriteToFd(split: seq<seq<byte>>, answer: Answer, turns: seq<Turn>) returns (panicked: bool)
      requires OutOk() && isOpen
      modifies this
      ensures OutOk() && (panicked <==> old(outBuffer) == [] && split == [])
      ensures View() == if panicked then old(View()) else Pushed(old(View()), split, answer, turns)
      ensures received == old(received) && delivered == old(delivered) && old(taken) <= taken
      ensures isOpen ==> taken == old(taken) + old(outBuffer)[..Took(answer, |Front(split, old(outBuffer))|)]
      ensures (inBuffer, buffer) == if isOpen then old((inBuffer, buffer)) else ([], [])
    {
      panicked := outBuffer == [] && split == [];
      if panicked {
        return;
      }
      PendingIs(taken, outBuffer, View());
      var err := SendFront(split, answer);
      if err == EAGAIN {
        return;
      }
      if err != NoError {
        Close(turns);
        return;
      }
      if outBuffer == [] {
        EpollMod(ReadOnly);
      }
    }

    // -------------------------------------------------------------- reading

    /** Copies first from the inbound buffer, then from the rest of the chunk. */
    method Read(p: array<byte>) returns (n: nat, err: Errno)
      modifies this`inBuffer, this`buffer, p
      ensures var m := Min(p.Length, |old(inBuffer)|);
        var k := Min(p.Length - m, |old(buffer)|);
        && n == m + k && p[..n] == old(inBuffer)[..m] + old(buffer)[..k] && p[n..] == old(p[n..])
        && inBuffer == old(inBuffer)[m..] && buffer == old(buffer)[k..]
      ensures err == if old(inBuffer) == [] && old(buffer) == [] && p.Length > 0 then EOF else NoError
    {
      err := NoError;
      if inBuffer == [] {
        n := CopyInto(p, 0, buffer);
        buffer := buffer[n..];
        if n == 0 && p.Length > 0 {
          err := EOF;
        }
        return;
      }
      n := CopyInto(p, 0, inBuffer);
      inBuffer := inBuffer[n..];
      if n == p.Length {
        return;
      }
      var m := CopyInto(p, n, buffer);
      n := n + m;
      buffer := buffer[m..];
    }

    /** The handler reads: while it runs on a chunk everything stays accounted for, and EOF says that
     nothing is pending. Between events the rest of the chunk is in the inbound buffer too, and a read
     that reaches it hands it out twice. */
    method HandlerRead(p: array<byte>) returns (n: nat, err: Errno)
      modifies this`inBuffer, this`buffer, this`delivered, p
      ensures n == Min(p.Length, |old(inBuffer) + old(buffer)|) && p[..n] == (old(inBuffer) + old(buffer))[..n]
      ensures delivered == old(delivered) + p[..n]
      ensures old(TrackOk()) ==> TrackOk()
      ensures old(TrackOk()) && isOpen && p.Length > 0 ==> (err == EOF <==> old(delivered) == received)
      ensures old(InOk()) && isOpen ==> (InOk() <==> p.Length <= |old(inBuffer)| || old(buffer) == [])
    {
      n, err := Read(p);
      delivered := delivered + p[..n];
      ghost var m := Min(p.Length, |old(inBuffer)|);
      ReadKeeps(received, old(delivered), old(inBuffer), old(buffer), m, n - m);
    }

    /** One call of the handler while it runs on a chunk. */
    method Act(action: Action)
      requires OutOk() && TrackOk()
      modifies this
      ensures OutOk() && TrackOk() && View() == ActedBy(old(View()), action)
      ensures received == old(received) && old(delivered) <= delivered
    {
      match action {
        case Reads(n) =>
          var p := new byte[n];
          var m, err := HandlerRead(p);
        case Writes(data, answer) =>
          var n, err := Write(data, answer);
        case Closes(turns) =>
          Close(turns);
      }
    }

    /** The handler's calls on a chunk that was just read. */
    method OnTrack(script: seq<Action>)
      requires OutOk() && TrackOk()
      modifies this
      ensures OutOk() && TrackOk() && View() == ActedAll(old(View()), script, |script|)
      ensures received == old(received) && old(delivered) <= delivered
    {
      var i := 0;
      while i < |script|
        invariant 0 <= i <= |script| && OutOk() && TrackOk() && View() == ActedAll(old(View()), script, i)
        invariant received == old(received) && old(delivered) <= delivered
      {
        Act(script[i]);
        i := i + 1;
      }
    }

    /** Shows a chunk to the handler, and keeps what the handler left. */
    method Track(data: seq<byte>, script: seq<Action>)
      requires OutOk() && isOpen && received == delivered + inBuffer + data
      modifies this
      ensures OutOk() && InOk() && View() == ActedAll(old(View()), script, |script|) && old(delivered) <= delivered
    {
      buffer := data;
      OnTrack(script);
      inBuffer := inBuffer + buffer;
    }

    /** The peer closed, or the socket failed. */
    method HangUp(turns: seq<Turn>)
      requires OutOk() && InOk()
      modifies this
      ensures OutOk() && InOk() && View() == Closed(old(View()), turns) && delivered == old(delivered)
    {
      Close(turns);
    }

    /** Reads a chunk, shows it to the handler, and keeps what the handler left. */
    method ReadFromFd(input: Input, script: seq<Action>, turns: seq<Turn>)
      requires OutOk() && InOk()
      modifies this
      ensures OutOk() && InOk() && View() == ReadEvent(old(View()), input, script, turns)
      ensures old(delivered) <= delivered
    {
      var data, err := SysRead(input);
      if err != NoError || data == [] {
        if err == EAGAIN {
          return;
        }
        HangUp(turns);
        return;
      }
      Track(data, script);
    }

    // -------------------------------------------------------------- opening, and the events of the loop

    /** Writes the greeting. The descriptor is registered already, so when some of the greeting is left
     over, adding the write interest fails, though it is there since the write. */
    method Open(greeting: Option<seq<byte>>, answer: Answer) returns (err: Errno)
      requires !isOpen && fdOpen && interest == Some(ReadOnly) && outBuffer == [] && inBuffer == [] && buffer == []
      requires taken == [] && received == [] && promised == [] && delivered == []
      modifies this
      ensures OutOk() && InOk()
      ensures View() == Opened(if greeting.Some? then greeting.value else [],
                               if greeting.Some? then answer else Sent(0))
      ensures err == if outBuffer != [] then EEXIST else NoError
    {
      isOpen := true;
      err := NoError;
      if greeting.Some? {
        var n, e := Write(greeting.value, answer);
        if e != NoError {
          return e;
        }
      }
      if outBuffer != [] {
        err := EpollAdd(WriteOnly);
      }
    }

    /** An event of the poller. The kernel reports only what the descriptor is registered for, and errors and
     hang-ups always; these select both handlers, also when nothing is buffered. */
    method HandleEvents(e: Events) returns (panicked: bool)
      requires OutOk() && InOk() && isOpen
      modifies this
      ensures OutOk() && InOk() && old(delivered) <= delivered
      ensures panicked <==> FindsNothing(e) && old(outBuffer) == []
      ensures View() == if panicked then old(View()) else Polled(old(View()), e)
      ensures isOpen && !panicked && !Readable(e) ==>
                taken == old(taken) +
                  if e.writable then old(outBuffer)[..Took(e.answer, |Front(e.split, old(outBuffer))|)] else []
    {
      panicked := false;
      if e.errored || (e.writable && interest == Some(ReadWrite)) {
        panicked := WriteToFd(e.split, e.answer, e.turns);
        if panicked {
          return;
        }
      }
      if Readable(e) {
        ReadFromFd(e.input, e.script, e.turns);
      }
    }
  }

  /** What the buffer holds is what waits according to the books. */
  lemma PendingIs(taken: seq<byte>, outBuffer: seq<byte>, s: Ledger)
    requires if s.isOpen then taken + outBuffer == s.written && s.sent == |taken| else outBuffer == []
    ensures Pending(s) == outBuffer
  {
    assert s.isOpen ==> (taken + outBuffer)[|taken|..] == outBuffer;
  }

  // ---------------------------------------------------------------- whole lives of a connection

  /** A connection's whole life, whatever the kernel answers. Its books are those of `Life`. While it is open, what the
   socket took and what is buffered is all that was written, and what was delivered and what is buffered is all that
   arrived; after it closed, the socket has a prefix of the one and the handler a prefix of the other.
   The descriptor is registered for writing exactly when something is buffered. It stays open as long as
   no call fails and nobody closes it. Only an error or hang-up on an open connection with nothing buffered
   can end it early, at step `done`, by a panic. */
  method Live(greeting: seq<byte>, first: Answer, steps: seq<Step>) returns (isOpen: bool, taken: seq<byte>,
        pending: seq<byte>, unread: seq<byte>, delivered: seq<byte>, interest: Option<Interest>, done: nat)
    ensures done <= |steps|
    ensures var s := Life(Opened(greeting, first), steps, done);
      isOpen == s.isOpen && |taken| == s.sent && |delivered| == s.delivered && taken <= s.written
      && delivered <= s.arrived
    ensures isOpen ==> taken + pending == greeting + Written(steps, done)
    ensures isOpen ==> delivered + unread == Arrived(steps, done)
    ensures isOpen ==> interest == Some(if pending == [] then ReadOnly else ReadWrite)
    ensures !isOpen ==>
              taken <= greeting + Written(steps, done) && delivered <= Arrived(steps, done) && interest == None
    ensures !first.Fail? && AllBenign(steps, done) ==> isOpen
    ensures done < |steps| <==> exists k :: 0 <= k < |steps| && PanicsAt(Opened(greeting, first), steps, k)
    ensures done < |steps| ==> PanicsAt(Opened(greeting, first), steps, done)
  {
    var c := new Conn();
    var err := c.Open(Some(greeting), first);
    done := PerformAll(c, Opened(greeting, first), steps);
    LifeOpened(greeting, first, steps, done);
    isOpen, taken, pending, unread, delivered := c.isOpen, c.taken, c.outBuffer, c.inBuffer, c.delivered;
    interest := c.interest;
  }

  /** Step k meets an open connection with nothing buffered, and panics on that. */
  predicate PanicsAt(s: Ledger, steps: seq<Step>, k: nat)
    requires k < |steps|
  {
    var u := Life(s, steps, k);
    u.isOpen && Pending(u) == [] && PanicsWhenEmpty(steps[k])
  }

  /** What the books say about a life from its opening on. */
  lemma LifeOpened(greeting: seq<byte>, first: Answer, steps: seq<Step>, k: nat)
    requires k <= |steps|
    ensures var u := Life(Opened(greeting, first), steps, k);
      && (if u.isOpen then u.written == greeting + Written(steps, k) && u.arrived == Arrived(steps, k)
          else u.written <= greeting + Written(steps, k) && u.arrived <= Arrived(steps, k))
      && (!first.Fail? && AllBenign(steps, k) ==> u.isOpen)
  {
    var s := Opened(greeting, first);
    OpenedIs(greeting, first, s);
    LifeAdds(s, steps, k);
    NoneMore(Arrived(steps, k), []);
    if !s.isOpen {
      ClosedForGood(s, steps, k);
    } else if AllBenign(steps, k) {
      LifeStaysOpen(s, steps, k);
    }
  }

  lemma OpenedIs(greeting: seq<byte>, first: Answer, s: Ledger)
    requires s == Opened(greeting, first)
    ensures s.isOpen == !first.Fail? && s.written == (if s.isOpen then greeting else []) && s.arrived == []
    ensures s.sent <= |s.written| && s.delivered == 0
  {
  }

  method PerformAll(c: Conn, ghost s: Ledger, steps: seq<Step>) returns (done: nat)
    requires c.OutOk() && c.InOk() && c.View() == s
    modifies c
    ensures done <= |steps| && c.OutOk() && c.InOk() && c.View() == Life(s, steps, done)
    ensures done < |steps| ==> PanicsAt(s, steps, done)
    ensures forall k :: 0 <= k < done ==> !PanicsAt(s, steps, k)
  {
    done := 0;
    var panicked := false;
    while done < |steps| && !panicked
      invariant 0 <= done <= |steps| && c.OutOk() && c.InOk() && c.View() == Life(s, steps, done)
      invariant forall k :: 0 <= k < done ==> !PanicsAt(s, steps, k)
      invariant panicked ==> done < |steps| && PanicsAt(s, steps, done)
      decreases |steps| - done, !panicked
    {
      panicked := Perform(c, steps[done]);
      done := if panicked then done else done + 1;
    }
  }

  method Perform(c: Conn, step: Step) returns (panicked: bool)
    requires c.OutOk() && c.InOk()
    modifies c
    ensures c.OutOk() && c.InOk()
    ensures panicked <==> old(c.isOpen) && Pending(old(c.View())) == [] && PanicsWhenEmpty(step)
    ensures c.View() == if panicked then old(c.View()) else Stepped(old(c.View()), step)
  {
    PendingIs(c.taken, c.outBuffer, c.View());
    panicked := false;
    match step {
      case Poll(e) =>
        if c.isOpen {
          panicked := c.HandleEvents(e);
        }
      case CallWrite(data, answer) =>
        var n, err := c.Write(data, answer);
      case CallWritev(slices, answer) =>
        var data := new seq<byte>[|slices|](k requires 0 <= k < |slices| => slices[k]);
        assert data[..] == slices;
        var n, err := c.Writev(data, answer);
      case TaskWrite(data, answer) =>
        c.AsyncWrite(data, answer);
      case TaskWritev(slices, answer) =>
        var data := new seq<byte>[|slices|](k requires 0 <= k < |slices| => slices[k]);
        assert data[..] == slices;
        c.AsyncWritev(data, answer);
      case CallClose(turns) =>
        c.Close(turns);
    }
  }

  /** A read of m bytes of the inbound buffer and k of the rest of the chunk. */
  lemma ReadKeeps(received: seq<byte>, delivered: seq<byte>, inBuffer: seq<byte>, buffer: seq<byte>, m: nat, k: nat)
    requires m <= |inBuffer| && k <= |buffer| && (k > 0 ==> m == |inBuffer|)
    ensures var now := delivered + (inBuffer[..m] + buffer[..k]);
      && (received == delivered + inBuffer + buffer ==> received == now + inBuffer[m..] + buffer[k..])
      && (received == delivered + inBuffer ==> (received == now + inBuffer[m..] <==> k == 0))
  {
    if k == 0 {
      assert delivered + inBuffer == delivered + (inBuffer[..m] + buffer[..k]) + inBuffer[m..];
    } else {
      assert delivered + inBuffer + buffer == delivered + (inBuffer[..m] + buffer[..k]) + inBuffer[m..] + buffer[k..];
    }
  }

  /** copy(p[at:], src) */
  method CopyInto(p: array<byte>, at: nat, src: seq<byte>) returns (n: nat)
    requires at <= p.Length
    modifies p
    ensures n == Min(p.Length - at, |src|)
    ensures p[..at] == old(p[..at]) && p[at..at + n] == src[..n] && p[at + n..] == old(p[at + n..])
  {
    n := Min(p.Length - at, |src|);
    forall k | 0 <= k < n {
      p[at + k] := src[k];
    }
  }

  /** The length of all slices together. */
  method Total(data: array<seq<byte>>) returns (n: nat)
    ensures n == |Concat(data[..])|
  {
    n := 0;
    for i := 0 to data.Length
      invariant n == |Concat(data[..i])|
    {
      assert data[..i + 1] == data[..i] + [data[i]];
      ConcatSnoc(data[..i], data[i]);
      n := n + |data[i]|;
    }
    assert data[..data.Length] == data[..];
  }

  /** Finds the slice where the first unsent byte is and cuts off what was sent of it. */
  method Trim(data: array<seq<byte>>, total: nat) returns (pos: nat)
    requires total < |Concat(data[..])|
    modifies data
    ensures pos < data.Length && Concat(data[pos..]) == Concat(old(data[..]))[total..]
    ensures forall k :: 0 <= k < data.Length && k != pos ==> data[k] == old(data[k])
  {
    var sent := total;
    pos := 0;
    var i := 0;
    assert data[0..] == data[..];
    while i < data.Length
      invariant 0 <= i <= data.Length && data[..] == old(data[..])
      invariant 0 <= sent < |Concat(data[i..])| && Concat(data[i..])[sent..] == Concat(old(data[..]))[total..]
    {
      var bn := |data[i]|;
      ghost var was, rest := data[i], data[i + 1..];
      ConcatFirst(data[i..]);
      assert data[i..][1..] == rest;
      if sent < bn {
        data[i] := data[i][sent..];
        pos := i;
        ConcatFirst(data[i..]);
        assert data[i..][1..] == rest;
        assert (was + Concat(rest))[sent..] == was[sent..] + Concat(rest);
        return;
      }
      assert (was + Concat(rest))[sent..] == Concat(rest)[sent - bn..];
      sent := sent - bn;
      i := i + 1;
    }
  }

  /** n bytes moved from the front of the buffer to the kernel. */
  lemma FrontMoved(taken: seq<byte>, b: seq<byte>, n: nat)
    requires n <= |b|
    ensures taken + b[..n] + b[n..] == taken + b
  {
  }
}
