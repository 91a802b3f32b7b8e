/** The serial connection: producers enqueue commands, and a single sender loop
    drains the queue in order, paces the bytes at 115200 baud, and performs
    the close / reopen / settle sequence that a baud-rate change requires.
    The device is seen only through the events the loop issues to it. */
module Dispatch {
  import opened Wrappers
  import opened OI

  /** What the sender loop does to the transport, in order. `Open` records an
      attempt to open the serial port and whether it succeeded. */
  datatype Event =
    | Write(data: seq<Byte>)
    | Sleep(micros: nat)
    | Close
    | Open(port: string, rate: nat, ok: bool)

  /** The rate at which bytes are written one at a time. */
  const PacedRate: nat := 115200

  /** The pause before each byte at the paced rate: 200 microseconds. */
  const ByteGap: nat := 200

  /** The pause after a reopen at a new rate: 100 milliseconds. */
  const SettleDelay: nat := 100_000

  // ---------------------------------------------------------------------
  // Writing one command's bytes

  /** The events of a paced write: each byte is preceded by a pause and
      written on its own. */
  function Paced(data: seq<Byte>): (r: seq<Event>)
    ensures |r| == 2 * |data|
    ensures forall i :: 0 <= i < |data| ==> r[2 * i] == Sleep(ByteGap) && r[2 * i + 1] == Write([data[i]])
    ensures forall e :: e in r ==> e.Write? || e == Sleep(ByteGap)
  {
    if data == [] then []
    else Paced(data[..|data| - 1]) + [Sleep(ByteGap), Write([data[|data| - 1]])]
  }

  /** The events by which `data` reaches the device at rate `baud`. */
  function DataEvents(baud: nat, data: seq<Byte>): (r: seq<Event>)
    ensures forall e :: e in r ==> e.Write? || e == Sleep(ByteGap)
  {
    if baud == PacedRate then Paced(data) else [Write(data)]
  }

  /** The bytes that reach the device, in order. */
  function Written(es: seq<Event>): seq<Byte>
  {
    if es == [] then []
    else (if es[0].Write? then es[0].data else []) + Written(es[1..])
  }

  lemma {:induction false} WrittenAppend(a: seq<Event>, b: seq<Event>)
    ensures Written(a + b) == Written(a) + Written(b)
  {
    if a != [] {
      assert (a + b)[0] == a[0];
      assert (a + b)[1..] == a[1..] + b;
      WrittenAppend(a[1..], b);
    } else {
      assert a + b == b;
    }
  }

  /** Pauses, closes and opens put no bytes on the wire. */
  lemma {:induction false} WrittenOnlyWrites(es: seq<Event>)
    ensures |es| == 0 ==> Written(es) == []
    ensures |es| == 2 && !es[0].Write? && es[1].Write? ==> Written(es) == es[1].data
    ensures (forall i :: 0 <= i < |es| ==> !es[i].Write?) ==> Written(es) == []
    decreases |es|
  {
    if es != [] {
      WrittenOnlyWrites(es[1..]);
      if |es| == 2 {
        assert es[1..][1..] == [];
        if !es[0].Write? && es[1].Write? {
          assert Written(es[1..]) == es[1].data + Written(es[1..][1..]);
        }
      }
    }
  }

  /** Pacing changes how the bytes are cut up, never which bytes are sent. */
  lemma {:induction false} PacedWritesData(data: seq<Byte>)
    ensures Written(Paced(data)) == data
  {
    if data != [] {
      var n := |data| - 1;
      PacedWritesData(data[..n]);
      WrittenAppend(Paced(data[..n]), [Sleep(ByteGap), Write([data[n]])]);
      WrittenOnlyWrites([Sleep(ByteGap), Write([data[n]])]);
      assert data == data[..n] + [data[n]];
    }
  }

  /** At any rate, the bytes written are the data; at the paced rate there are
      |data| single-byte writes each after a 200 microsecond pause; at any
      other rate one write and no pause. */
  lemma DataEventsSpec(baud: nat, data: seq<Byte>)
    ensures Written(DataEvents(baud, data)) == data
    ensures baud == PacedRate ==> |DataEvents(baud, data)| == 2 * |data|
    ensures baud == PacedRate ==> forall i :: 0 <= i < |data| ==>
      DataEvents(baud, data)[2 * i] == Sleep(ByteGap) && DataEvents(baud, data)[2 * i + 1] == Write([data[i]])
    ensures baud != PacedRate ==> DataEvents(baud, data) == [Write(data)]
  {
    if baud == PacedRate {
      PacedWritesData(data);
    } else {
      assert Written([Write(data)]) == data + Written([]);
    }
  }

  // ---------------------------------------------------------------------
  // The sender loop as a function of the queue

  /** What one run (or one step) of the sender loop leaves behind: the events
      it issued, the rate it ended at, and whether it is still alive (false
      once a reopen failed and the loop panicked). */
  datatype Outcome = Outcome(events: seq<Event>, baud: nat, ok: bool)

  /** The rate in effect after command `c` has been handled. */
  function NextBaud(baud: nat, c: Command): nat
  {
    if c.BaudCmd? then c.rate else baud
  }

  /** What follows a baud change's bytes: the device is closed, the port is
      reopened at the new rate, and, if that worked, the link settles. */
  function ReopenEvents(port: string, rate: nat, ok: bool): seq<Event>
  {
    if ok then [Close, Open(port, rate, true), Sleep(SettleDelay)] else [Close, Open(port, rate, false)]
  }

  /** The sender loop's handling of one command at rate `baud`. */
  function Step(baud: nat, port: string, c: Command, canOpen: (string, nat) -> bool): (r: Outcome)
    ensures r.baud == NextBaud(baud, c)
    ensures !r.ok ==> c.BaudCmd? && r.events != [] && r.events[|r.events| - 1] == Open(port, c.rate, false)
  {
    var sent := DataEvents(baud, Assemble(c));
    if c.Simple? then Outcome(sent, baud, true)
    else
      var ok := canOpen(port, c.rate);
      Outcome(sent + ReopenEvents(port, c.rate, ok), c.rate, ok)
  }

  /** The sender loop over the queue `cmds`, starting at rate `baud`, up to the
      end of the queue or the first failed reopen. */
  function Run(baud: nat, port: string, cmds: seq<Command>, canOpen: (string, nat) -> bool): (r: Outcome)
    ensures !r.ok ==> r.events != [] && r.events[|r.events| - 1].Open? && !r.events[|r.events| - 1].ok
    decreases |cmds|
  {
    if cmds == [] then Outcome([], baud, true)
    else
      var s := Step(baud, port, cmds[0], canOpen);
      if !s.ok then s
      else
        var rest := Run(s.baud, port, cmds[1..], canOpen);
        Outcome(s.events + rest.events, rest.baud, rest.ok)
  }

  /** One turn of the sender loop: if the first command's step leaves the
      loop alive, what remains is the run over the rest of the queue from the
      step's rate, after the step's events; otherwise the run is that step. */
  lemma RunUnfold(baud: nat, port: string, cmds: seq<Command>, canOpen: (string, nat) -> bool, before: seq<Event>)
    requires cmds != []
    ensures var s := Step(baud, port, cmds[0], canOpen);
      var rest := Run(s.baud, port, cmds[1..], canOpen);
      var all := Run(baud, port, cmds, canOpen);
      if s.ok then
        (before + s.events) + rest.events == before + all.events && rest.baud == all.baud && rest.ok == all.ok
      else
        all == s
  {
  }

  /** The wire form of a queue of commands: their encodings, in order. */
  function AssembleAll(cmds: seq<Command>): seq<Byte>
  {
    if cmds == [] then [] else Assemble(cmds[0]) + AssembleAll(cmds[1..])
  }

  /** The rate in effect after the commands `cmds`, starting from `baud`. */
  function BaudAfter(baud: nat, cmds: seq<Command>): nat
    decreases |cmds|
  {
    if cmds == [] then baud else BaudAfter(NextBaud(baud, cmds[0]), cmds[1..])
  }

  /** One command's bytes are its encoding, whatever happens after them. */
  lemma StepWritesCommand(baud: nat, port: string, c: Command, canOpen: (string, nat) -> bool)
    ensures Written(Step(baud, port, c, canOpen).events) == Assemble(c)
    ensures Step(baud, port, c, canOpen).baud == NextBaud(baud, c)
    ensures Step(baud, port, c, canOpen).ok <==> (c.BaudCmd? ==> canOpen(port, c.rate))
  {
    var sent := DataEvents(baud, Assemble(c));
    DataEventsSpec(baud, Assemble(c));
    if c.BaudCmd? {
      var tail := ReopenEvents(port, c.rate, canOpen(port, c.rate));
      WrittenAppend(sent, tail);
      WrittenOnlyWrites(tail);
    }
  }

  /** The loop survives exactly when every baud change on the queue can reopen
      the port at its new rate. */
  lemma {:induction false} RunAliveIff(baud: nat, port: string, cmds: seq<Command>, canOpen: (string, nat) -> bool)
    ensures Run(baud, port, cmds, canOpen).ok <==>
      forall k :: 0 <= k < |cmds| && cmds[k].BaudCmd? ==> canOpen(port, cmds[k].rate)
    decreases |cmds|
  {
    if cmds != [] {
      StepWritesCommand(baud, port, cmds[0], canOpen);
      RunAliveIff(NextBaud(baud, cmds[0]), port, cmds[1..], canOpen);
      assert forall k :: 1 <= k < |cmds| ==> cmds[k] == cmds[1..][k - 1];
    }
  }

  /** Ordering: over a run in which no reopen fails, the bytes at the device
      are the encodings of the queued commands in queue order, and the loop
      ends at the rate the commands leave in effect. */
  lemma {:induction false} RunWritesInOrder(baud: nat, port: string, cmds: seq<Command>, canOpen: (string, nat) -> bool)
    requires Run(baud, port, cmds, canOpen).ok
    ensures Written(Run(baud, port, cmds, canOpen).events) == AssembleAll(cmds)
    ensures Run(baud, port, cmds, canOpen).baud == BaudAfter(baud, cmds)
    decreases |cmds|
  {
    if cmds != [] {
      var s := Step(baud, port, cmds[0], canOpen);
      StepWritesCommand(baud, port, cmds[0], canOpen);
      RunWritesInOrder(s.baud, port, cmds[1..], canOpen);
      WrittenAppend(s.events, Run(s.baud, port, cmds[1..], canOpen).events);
    }
  }

  /** Command `k` is the first baud change on the queue whose reopen fails. */
  predicate FailsFirstAt(port: string, cmds: seq<Command>, canOpen: (string, nat) -> bool, k: int)
  {
    0 <= k < |cmds| && cmds[k].BaudCmd? && !canOpen(port, cmds[k].rate) &&
    forall j :: 0 <= j < k && cmds[j].BaudCmd? ==> canOpen(port, cmds[j].rate)
  }

  /** The first failing baud change of the tail is the first failing one of the
      whole queue when the head does not fail. */
  lemma FailsFirstAtShift(port: string, cmds: seq<Command>, canOpen: (string, nat) -> bool, k: int)
    requires cmds != [] && (cmds[0].BaudCmd? ==> canOpen(port, cmds[0].rate))
    requires FailsFirstAt(port, cmds[1..], canOpen, k)
    ensures FailsFirstAt(port, cmds, canOpen, k + 1)
  {
    assert cmds[k + 1] == cmds[1..][k];
    forall j | 0 <= j < k + 1 && cmds[j].BaudCmd?
      ensures canOpen(port, cmds[j].rate)
    {
      if j > 0 {
        assert cmds[j] == cmds[1..][j - 1];
      }
    }
  }

  lemma AssembleAllPrefix(cmds: seq<Command>, n: nat)
    requires 0 < n <= |cmds|
    ensures AssembleAll(cmds[..n]) == Assemble(cmds[0]) + AssembleAll(cmds[1..][..n - 1])
  {
    assert cmds[..n][0] == cmds[0];
    assert cmds[..n][1..] == cmds[1..][..n - 1];
  }

  /** The run from `baud` over `cmds` stopped at command `k`: it is the first
      baud change whose reopen fails, the bytes written are the encodings of
      the commands up to and including it, and the failed open is the last
      event. */
  predicate FailedAt(baud: nat, port: string, cmds: seq<Command>, canOpen: (string, nat) -> bool, k: int)
  {
    var es := Run(baud, port, cmds, canOpen).events;
    FailsFirstAt(port, cmds, canOpen, k) &&
    Written(es) == AssembleAll(cmds[..k + 1]) &&
    es != [] && es[|es| - 1] == Open(port, cmds[k].rate, false)
  }

  /** A failed reopen stops the loop: what reached the device is the encodings
      of the commands up to and including the failing baud change, every
      earlier baud change reopened, and the last event is the failed open. */
  lemma {:induction false} RunAbortsAtFailedReopen(baud: nat, port: string, cmds: seq<Command>, canOpen: (string, nat) -> bool)
    requires !Run(baud, port, cmds, canOpen).ok
    ensures Run(baud, port, cmds, canOpen).events != []
    ensures exists k :: FailedAt(baud, port, cmds, canOpen, k)
    decreases |cmds|
  {
    var s := Step(baud, port, cmds[0], canOpen);
    StepWritesCommand(baud, port, cmds[0], canOpen);
    if s.ok {
      var rest := Run(s.baud, port, cmds[1..], canOpen);
      assert Run(baud, port, cmds, canOpen).events == s.events + rest.events;
      RunAbortsAtFailedReopen(s.baud, port, cmds[1..], canOpen);
      var k :| FailedAt(s.baud, port, cmds[1..], canOpen, k);
      WrittenAppend(s.events, rest.events);
      AssembleAllPrefix(cmds, k + 2);
      FailsFirstAtShift(port, cmds, canOpen, k);
      assert FailedAt(baud, port, cmds, canOpen, k + 1);
    } else {
      AssembleAllPrefix(cmds, 1);
      assert cmds[1..][..0] == [];
      assert FailedAt(baud, port, cmds, canOpen, 0);
    }
  }

  /** Draining a queue in two parts leaves the same trace as draining it at
      once: what producers add while the loop runs changes nothing. */
  lemma {:induction false} RunAppend(baud: nat, port: string, xs: seq<Command>, ys: seq<Command>, canOpen: (string, nat) -> bool)
    ensures !Run(baud, port, xs, canOpen).ok ==> Run(baud, port, xs + ys, canOpen) == Run(baud, port, xs, canOpen)
    ensures Run(baud, port, xs, canOpen).ok ==>
      var a := Run(baud, port, xs, canOpen);
      var b := Run(a.baud, port, ys, canOpen);
      Run(baud, port, xs + ys, canOpen) == Outcome(a.events + b.events, b.baud, b.ok)
    decreases |xs|
  {
    if xs != [] {
      assert (xs + ys)[0] == xs[0];
      assert (xs + ys)[1..] == xs[1..] + ys;
      var s := Step(baud, port, xs[0], canOpen);
      if s.ok {
        RunAppend(s.baud, port, xs[1..], ys, canOpen);
        var a' := Run(s.baud, port, xs[1..], canOpen);
        if a'.ok {
          var b := Run(a'.baud, port, ys, canOpen);
          assert s.events + (a'.events + b.events) == (s.events + a'.events) + b.events;
        }
      }
    } else {
      assert xs + ys == ys;
    }
  }

  /** Only a baud change moves the rate: after a queue the rate is that of its
      last baud change, or the starting rate if it has none. */
  lemma {:induction false} BaudAfterIsLatestRate(baud: nat, cmds: seq<Command>)
    ensures (forall k :: 0 <= k < |cmds| ==> !cmds[k].BaudCmd?) ==> BaudAfter(baud, cmds) == baud
    ensures forall k :: 0 <= k < |cmds| && cmds[k].BaudCmd? && (forall j :: k < j < |cmds| ==> !cmds[j].BaudCmd?) ==>
      BaudAfter(baud, cmds) == cmds[k].rate
    decreases |cmds|
  {
    if cmds != [] {
      var tail := cmds[1..];
      BaudAfterIsLatestRate(NextBaud(baud, cmds[0]), tail);
      assert forall j :: 1 <= j < |cmds| ==> cmds[j] == tail[j - 1];
      forall k | 0 <= k < |cmds| && cmds[k].BaudCmd? && (forall j :: k < j < |cmds| ==> !cmds[j].BaudCmd?)
        ensures BaudAfter(baud, cmds) == cmds[k].rate
      {
        if k > 0 {
          assert tail[k - 1].BaudCmd? && forall j :: k - 1 < j < |tail| ==> !tail[j].BaudCmd?;
        } else {
          assert forall j :: 0 <= j < |tail| ==> !tail[j].BaudCmd?;
        }
      }
    }
  }

  /** The concatenation of a list of event blocks. */
  function Flatten(blocks: seq<seq<Event>>): seq<Event>
  {
    if blocks == [] then [] else blocks[0] + Flatten(blocks[1..])
  }

  /** The handling of each command as a block of events at the rate in effect
      when the loop reaches it: the rate left by the commands before it. */
  function Blocks(baud: nat, port: string, cmds: seq<Command>, canOpen: (string, nat) -> bool): (b: seq<seq<Event>>)
    ensures |b| == |cmds|
  {
    seq(|cmds|, i requires 0 <= i < |cmds| => Step(BaudAfter(baud, cmds[..i]), port, cmds[i], canOpen).events)
  }

  /** Over a run in which no reopen fails, the trace is the commands' blocks in
      queue order, each paced by the rate in effect when it is reached: a baud
      change is sent at the old rate and everything after it at the new one,
      and no block is split by another. */
  lemma {:induction false} RunIsBlocks(baud: nat, port: string, cmds: seq<Command>, canOpen: (string, nat) -> bool)
    requires Run(baud, port, cmds, canOpen).ok
    ensures Run(baud, port, cmds, canOpen).events == Flatten(Blocks(baud, port, cmds, canOpen))
    decreases |cmds|
  {
    if cmds != [] {
      var s := Step(baud, port, cmds[0], canOpen);
      RunIsBlocks(s.baud, port, cmds[1..], canOpen);
      BlocksUnfold(baud, port, cmds, canOpen);
      RunUnfold(baud, port, cmds, canOpen, []);
    }
  }

  /** The first block is the first command's step; the others are the blocks
      of the rest of the queue, from the rate that step leaves. */
  lemma BlocksUnfold(baud: nat, port: string, cmds: seq<Command>, canOpen: (string, nat) -> bool)
    requires cmds != []
    ensures var s := Step(baud, port, cmds[0], canOpen);
      var b := Blocks(baud, port, cmds, canOpen);
      b[0] == s.events && b[1..] == Blocks(s.baud, port, cmds[1..], canOpen)
  {
    var s := Step(baud, port, cmds[0], canOpen);
    var b := Blocks(baud, port, cmds, canOpen);
    var b' := Blocks(s.baud, port, cmds[1..], canOpen);
    assert cmds[..0] == [];
    forall i | 0 <= i < |b'|
      ensures b[1..][i] == b'[i]
    {
      assert cmds[..i + 1][1..] == cmds[1..][..i];
      assert BaudAfter(baud, cmds[..i + 1]) == BaudAfter(s.baud, cmds[1..][..i]);
      assert cmds[i + 1] == cmds[1..][i];
    }
  }

  // ---------------------------------------------------------------------
  // Device discipline

  /** Whether the device is open after the events `es`, starting from `open`. */
  function OpenAfter(open: bool, es: seq<Event>): bool
    decreases |es|
  {
    if es == [] then open
    else OpenAfter(if es[0].Close? then false else if es[0].Open? then es[0].ok else open, es[1..])
  }

  /** Every write goes to an open device, only an open device is closed, and
      only a closed one is opened. */
  predicate Disciplined(open: bool, es: seq<Event>)
    decreases |es|
  {
    if es == [] then true
    else match es[0]
      case Write(_) => open && Disciplined(open, es[1..])
      case Sleep(_) => Disciplined(open, es[1..])
      case Close => open && Disciplined(false, es[1..])
      case Open(_, _, ok) => !open && Disciplined(ok, es[1..])
  }

  lemma {:induction false} DisciplinedAppend(open: bool, a: seq<Event>, b: seq<Event>)
    ensures Disciplined(open, a + b) <==> Disciplined(open, a) && Disciplined(OpenAfter(open, a), b)
    ensures OpenAfter(open, a + b) == OpenAfter(OpenAfter(open, a), b)
    decreases |a|
  {
    if a != [] {
      assert (a + b)[0] == a[0];
      assert (a + b)[1..] == a[1..] + b;
      var next := if a[0].Close? then false else if a[0].Open? then a[0].ok else open;
      DisciplinedAppend(next, a[1..], b);
    } else {
      assert a + b == b;
    }
  }

  lemma {:induction false} PacedDisciplined(data: seq<Byte>)
    ensures Disciplined(true, Paced(data)) && OpenAfter(true, Paced(data))
    decreases |data|
  {
    if data != [] {
      var n := |data| - 1;
      PacedDisciplined(data[..n]);
      var t := [Sleep(ByteGap), Write([data[n]])];
      assert t[1..] == [Write([data[n]])];
      assert t[1..][1..] == [];
      assert Disciplined(true, t) && OpenAfter(true, t);
      DisciplinedAppend(true, Paced(data[..n]), t);
    }
  }

  lemma ReopenDisciplined(port: string, rate: nat, ok: bool)
    ensures Disciplined(true, ReopenEvents(port, rate, ok))
    ensures OpenAfter(true, ReopenEvents(port, rate, ok)) == ok
  {
    if ok {
      var t := [Close, Open(port, rate, true), Sleep(SettleDelay)];
      assert t[1..] == [Open(port, rate, true), Sleep(SettleDelay)];
      assert t[1..][1..] == [Sleep(SettleDelay)];
      assert t[1..][1..][1..] == [];
      assert Disciplined(true, t[1..][1..]) && OpenAfter(true, t[1..][1..]);
      assert Disciplined(false, t[1..]) && OpenAfter(false, t[1..]);
    } else {
      var t := [Close, Open(port, rate, false)];
      assert t[1..] == [Open(port, rate, false)];
      assert t[1..][1..] == [];
      assert Disciplined(false, t[1..]) && !OpenAfter(false, t[1..]);
    }
  }

  lemma {:induction false} StepDisciplined(baud: nat, port: string, c: Command, canOpen: (string, nat) -> bool)
    ensures Disciplined(true, Step(baud, port, c, canOpen).events)
    ensures OpenAfter(true, Step(baud, port, c, canOpen).events) == Step(baud, port, c, canOpen).ok
  {
    var sent := DataEvents(baud, Assemble(c));
    if baud == PacedRate {
      PacedDisciplined(Assemble(c));
    }
    assert Disciplined(true, sent) && OpenAfter(true, sent);
    if c.BaudCmd? {
      var ok := canOpen(port, c.rate);
      ReopenDisciplined(port, c.rate, ok);
      DisciplinedAppend(true, sent, ReopenEvents(port, c.rate, ok));
    }
  }

  /** The loop never writes to a closed device and never closes or opens it
      twice in a row; it ends with the device open exactly when it is still
      alive. */
  lemma {:induction false} RunDisciplined(baud: nat, port: string, cmds: seq<Command>, canOpen: (string, nat) -> bool)
    ensures Disciplined(true, Run(baud, port, cmds, canOpen).events)
    ensures OpenAfter(true, Run(baud, port, cmds, canOpen).events) == Run(baud, port, cmds, canOpen).ok
    decreases |cmds|
  {
    if cmds != [] {
      var s := Step(baud, port, cmds[0], canOpen);
      StepDisciplined(baud, port, cmds[0], canOpen);
      if s.ok {
        var rest := Run(s.baud, port, cmds[1..], canOpen);
        RunDisciplined(s.baud, port, cmds[1..], canOpen);
        DisciplinedAppend(true, s.events, rest.events);
      }
    }
  }

  /** The device's whole life, from the open in `Connect` through the sender
      loop and its final close: nothing is written to a closed device, it is
      never closed or opened twice in a row, and it is closed at the end. */
  lemma ConnectionLifecycle(port: string, initialBaud: nat, cmds: seq<Command>, canOpen: (string, nat) -> bool)
    ensures var o := Run(initialBaud, port, cmds, canOpen);
      var history := [Open(port, initialBaud, true)] + o.events + (if o.ok then [Close] else []);
      Disciplined(false, history) && !OpenAfter(false, history)
  {
    var o := Run(initialBaud, port, cmds, canOpen);
    var first := [Open(port, initialBaud, true)];
    var last: seq<Event> := if o.ok then [Close] else [];
    RunDisciplined(initialBaud, port, cmds, canOpen);
    assert first[1..] == [] && Disciplined(false, first) && OpenAfter(false, first);
    assert last != [] ==> last[1..] == [];
    assert Disciplined(o.ok, last) && !OpenAfter(o.ok, last);
    DisciplinedAppend(false, first, o.events);
    DisciplinedAppend(false, first + o.events, last);
  }

  /** A baud change from 115200 to 19200 followed by "Start": the change is
      sent paced, the device is closed and reopened at 19200, the link
      settles for 100 ms, and "Start" goes out as one burst. */
  lemma ReconfigurationScenario(port: string, canOpen: (string, nat) -> bool)
    requires canOpen(port, 19200)
    ensures Baud(19200) == Some(BaudCmd(129, [7], 19200))
    ensures Run(115200, port, [Baud(19200).value, Start()], canOpen) ==
      Outcome([Sleep(200), Write([129]), Sleep(200), Write([7]),
               Close, Open(port, 19200, true), Sleep(100_000), Write([128])], 19200, true)
  {
    var b := BaudCmd(129, [7], 19200);
    assert BaudRates[7] == 19200;
    var cmds := [b, Start()];
    assert Paced([129, 7]) == Paced([129]) + [Sleep(200), Write([7])];
    assert Paced([129]) == Paced([]) + [Sleep(200), Write([129])];
    assert cmds[1..] == [Start()] && cmds[1..][1..] == [];
  }

  // ---------------------------------------------------------------------
  // The connection

  class Connection {
    /** The serial device name. */
    var Port: string
    /** The current baud rate of the link. */
    var Baud: nat
    /** Commands sent but not yet taken by the sender loop, oldest first. */
    var queue: seq<Command>
    /** Whether the send queue has been closed. */
    var closed: bool
    /** Everything done to the device so far, oldest first. */
    var trace: seq<Event>

    constructor (port: string, initialBaud: nat)
      ensures Port == port && Baud == initialBaud
      ensures queue == [] && !closed && trace == [Event.Open(port, initialBaud, true)]
    {
      Port := port;
      Baud := initialBaud;
      queue := [];
      closed := false;
      trace := [Event.Open(port, initialBaud, true)];
    }

    /** Opens `port` at `initialBaud`; no connection if the port cannot be
        opened at that rate. */
    static method Connect(port: string, initialBaud: nat, canOpen: (string, nat) -> bool) returns (c: Connection?)
      ensures c == null <==> !canOpen(port, initialBaud)
      ensures c != null ==> fresh(c) && c.Port == port && c.Baud == initialBaud
      ensures c != null ==> c.queue == [] && !c.closed && c.trace == [Event.Open(port, initialBaud, true)]
    {
      if !canOpen(port, initialBaud) {
        return null;
      }
      c := new Connection(port, initialBaud);
    }

    /** Hands `cmd` to the sender loop. Sending on a closed queue is a Go
        panic, so callers must not. */
    method Send(cmd: Command)
      requires !closed
      modifies this`queue
      ensures queue == old(queue) + [cmd]
    {
      queue := queue + [cmd];
    }

    /** Hands the commands to the sender loop one by one, in order. */
    method SendMany(cmds: seq<Command>)
      requires !closed
      modifies this`queue
      ensures queue == old(queue) + cmds
    {
      var i := 0;
      while i < |cmds|
        invariant 0 <= i <= |cmds|
        invariant queue == old(queue) + cmds[..i]
      {
        Send(cmds[i]);
        assert cmds[..i + 1] == cmds[..i] + [cmds[i]];
        i := i + 1;
      }
    }

    /** Closes the send queue; the sender loop drains what is left and then
        closes the device. Closing twice is a Go panic, so callers must not. */
    method Close()
      requires !closed
      modifies this`closed
      ensures closed
    {
      closed := true;
    }

    /** Writes `data` to the device at the current rate: byte by byte after a
        200 microsecond pause each at 115200 baud, in one write otherwise. */
    method SendData(data: seq<Byte>)
      modifies this`trace
      ensures trace == old(trace) + DataEvents(Baud, data)
    {
      if Baud == PacedRate {
        var i := 0;
        while i < |data|
          invariant 0 <= i <= |data|
          invariant trace == old(trace) + Paced(data[..i])
        {
          trace := trace + [Sleep(ByteGap)];
          trace := trace + [Write([data[i]])];
          assert data[..i + 1][..i] == data[..i];
          i := i + 1;
        }
        assert data[..i] == data;
      } else {
        trace := trace + [Write(data)];
      }
    }

    /** The sender loop's body for one command: send its bytes at the current
        rate; for a baud change then close the device, switch `Baud`, reopen
        the port at the new rate and settle. `alive` is false when the reopen
        failed (the Go loop panics there). */
    method Handle(cmd: Command, canOpen: (string, nat) -> bool) returns (alive: bool)
      modifies this`Baud, this`trace
      ensures var s := Step(old(Baud), Port, cmd, canOpen);
        alive == s.ok && Baud == s.baud && trace == old(trace) + s.events
    {
      var data := Assemble(cmd);
      SendData(data);
      alive := true;
      if cmd.BaudCmd? {
        trace := trace + [Event.Close];
        Baud := cmd.rate;
        alive := canOpen(Port, Baud);
        trace := trace + [Event.Open(Port, Baud, alive)];
        if alive {
          trace := trace + [Sleep(SettleDelay)];
        }
      }
    }

    /** The sender loop, run once the queue has been closed: takes the queued
        commands in order and handles each one; when the queue is empty it
        closes the device. A failed reopen stops the loop at once (`ok`
        false), without the final close, leaving the commands after the
        failing one in the queue. */
    method Sender(canOpen: (string, nat) -> bool) returns (ok: bool)
      requires closed
      modifies this`Baud, this`queue, this`trace
      ensures var o := Run(old(Baud), Port, old(queue), canOpen);
        ok == o.ok && Baud == o.baud &&
        trace == old(trace) + o.events + (if o.ok then [Event.Close] else [])
      ensures ok ==> queue == []
      ensures !ok ==> exists k :: FailsFirstAt(Port, old(queue), canOpen, k) && queue == old(queue)[k + 1..]
    {
      ghost var total := Run(Baud, Port, queue, canOpen);
      ghost var taken := 0;
      while queue != []
        invariant Run(Baud, Port, queue, canOpen).baud == total.baud
        invariant Run(Baud, Port, queue, canOpen).ok == total.ok
        invariant trace + Run(Baud, Port, queue, canOpen).events == old(trace) + total.events
        invariant 0 <= taken <= |old(queue)| && queue == old(queue)[taken..]
        invariant forall j :: 0 <= j < taken && old(queue)[j].BaudCmd? ==> canOpen(Port, old(queue)[j].rate)
        decreases |queue|
      {
        var cmd := queue[0];
        RunUnfold(Baud, Port, queue, canOpen, trace);
        StepWritesCommand(Baud, Port, cmd, canOpen);
        queue := queue[1..];
        var alive := Handle(cmd, canOpen);
        taken := taken + 1;
        if !alive {
          assert FailsFirstAt(Port, old(queue), canOpen, taken - 1);
          return false;
        }
      }
      trace := trace + [Event.Close];
      ok := true;
    }
  }
}
