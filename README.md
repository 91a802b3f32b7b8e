# gocreate: the Open Interface command layer, in Dafny

This project models the core of `gocreate`, a Go library that drives an
iRobot Create over its Open Interface (OI) serial protocol, and proves
properties of that model. It has three parts:

- **`OI`** (`oi.dfy`, from `oi.go`): the command catalog. Each constructor,
  from `Start` to `PlaySong`, checks its parameters. On a violation it returns
  no command (Go's `nil`, here `Option.None`). Otherwise it returns a command
  whose wire form (`Assemble`) is its opcode byte followed by its payload.
  16-bit fields are two's-complement, high byte first. The model proves that
  each field decodes back to the value it encodes. A `Command` is either
  `Simple(opcode, payload)` or `BaudCmd(opcode, payload, rate)`.
- **`Dispatch`** (`dispatch.dfy`, from `connection.go`): the `Connection`
  class. It has the fields `Port` and `Baud`, the pending send queue, and a
  trace of what is done to the serial device: `Write(bytes)`, `Sleep(µs)`,
  `Close` and `Open(port, rate, ok)`. `SendData` writes one byte at a time at
  115200 baud, each byte after a 200 µs sleep; at any other rate it writes
  once. `Sender` drains the queue in order. A baud change is written at the
  old rate's pacing. Then the device is closed, `Baud` is switched, the port
  is reopened at the new rate and the link sleeps 100 ms. A failed reopen
  stops the loop, where the Go code panics. At the end of the queue the
  device is closed. Each method is proved against the specification
  functions `DataEvents`, `Step` and `Run`. The ordering, pacing,
  reconfiguration and device-discipline properties are proved as lemmas about
  those functions.
- **`Utils`** (`utils.dfy`, from `utils.go`): `Sequence`. It builds an
  arithmetic progression from `start` by `step` while a bound test against
  `stop` holds. The test is sign-aware for signed kinds and `< stop` for
  unsigned kinds. The result is `Nil`, a `Slice` or a `Panic`:
  - different kinds, an unsupported kind, or a `start` of a named type give
    `nil`;
  - a zero step panics in Go's division;
  - a capacity that `reflect.MakeSlice` refuses (negative, or more than the
    runtime will allocate) panics.
  
  The loops are proved against the recursive `Progression`.

`wrappers.dfy` holds the `Option` type.

Two behaviours of the Go code are kept as written:
- `Song` checks `byte(len(song))`, the note count modulo 256 (oi.go:266);
  see Findings.
- A failed reopen after a baud change panics (connection.go:63). The model
  stops the loop (`ok == false`) and does not recover.

One is excluded: closing a connection twice panics in Go (connection.go:88
closes a Go channel), so `Close` requires an open queue.

## Model

| member | source | states |
|---|---|---|
| `OI.Assemble` | oi.go:67-81 | the wire form is the opcode followed by the payload unchanged, so its length is 1 + \|payload\| |
| `OI.WordRoundTrip` | oi.go:169 | splitting an int16 into `(v >> 8) & 0xFF` and `v & 0xFF` loses nothing: a signed big-endian decode gives back `v` |
| `OI.WordSplitRoundTrip` | oi.go:169 | every pair of bytes is the split of exactly one int16, so an encoding is determined by the decoded values |
| `OI.Start` | oi.go:92-94 | encodes `[128]` |
| `OI.Safe` | oi.go:97-99 | encodes `[131]` |
| `OI.Full` | oi.go:102-104 | encodes `[132]` |
| `OI.BaudTableIsAscendingIndex` | oi.go:121-134 | the library's rate table knows exactly the twelve rates, in ascending order, and maps each to its position 0..11 |
| `OI.Baud` | oi.go:120-141 | succeeds iff the rate is one of the twelve; then it is a baud command with opcode 129 that carries the rate, with a one-byte payload that is the rate's index in the ascending list |
| `OI.Demo` | oi.go:145-151 | no command iff the demo number is above 9; otherwise `[136, demo]` |
| `OI.AbortDemo` | oi.go:154-156 | encodes `[136, 255]` |
| `OI.Drive` | oi.go:161-171 | no command iff velocity is outside [-500, 500] or radius outside [-2000, 2000]; otherwise opcode 137 and a payload that decodes as velocity then radius, 16-bit signed, high byte first |
| `OI.DriveStraight` | oi.go:175-182 | no command iff velocity is outside [-500, 500]; otherwise opcode 137, the velocity word, then the radius bytes `80 00` (the word -32768) |
| `OI.Spin` | oi.go:186-198 | no command iff velocity is outside [-500, 500]; otherwise opcode 137, the velocity word, then radius bytes `00 01` (word 1) counter-clockwise or `FF FF` (word -1) clockwise |
| `OI.DriveDirect` | oi.go:203-213 | no command iff either velocity is outside [-500, 500]; otherwise opcode 145 and a payload that decodes as right then left |
| `OI.Leds` | oi.go:216-226 | never fails; opcode 139, then a flag byte whose bit 3 is set iff `advance`, whose bit 1 is set iff `play` and whose other bits are clear, then colour and intensity verbatim |
| `OI.DigitalOutputs` | oi.go:230-237 | no command iff the bits exceed 7; otherwise `[147, bits]` |
| `OI.PwmLowSideDrivers` | oi.go:242-249 | no command iff any duty value exceeds 128; otherwise `[144, driver2, driver1, driver0]`, in reverse order |
| `OI.SendIr` | oi.go:255-258 | never fails; `[151, value]` |
| `OI.NoteBytes` | oi.go:271-274 | the note records are two bytes per note, tone then duration, in note order |
| `OI.Song` | oi.go:262-276 | no command iff the song number exceeds 15 or the length modulo 256 is outside 1..16; otherwise opcode 140, then the number and the length modulo 256, then each note's tone and duration in order, so the payload has 2 + 2·\|notes\| bytes |
| `OI.SongChecked` | oi.go:260-269 | the intended check: no command iff the number exceeds 15 or the list does not hold 1..16 notes; the count byte then equals the number of records and the payload has at most 34 bytes |
| `OI.SongCountWraps` | oi.go:266-267 | a 257-note song is accepted as written, with count byte 1 and 257 records, while the intended check refuses it |
| `OI.SongAgreesBelowWrap` | oi.go:266-269 | below 256 notes the written check and the intended one give the same result |
| `OI.PlaySong` | oi.go:280-287 | no command iff the song number exceeds 15; otherwise `[141, number]` |
| `OI.DriveExamples` | oi_test.go:59-83 | all six test encodings of `Drive`, and its rejections at velocity ±501 and radius ±2001 |
| `OI.DriveStraightExamples` | oi_test.go:85-104 | all five test encodings of `DriveStraight`, and its rejections at velocity ±501 |
| `OI.SpinExamples` | oi_test.go:106-124 | all four test encodings of `Spin`, both directions, and its rejections at velocity ±501 |
| `OI.DriveDirectExamples` | oi_test.go:126-148 | all four test encodings of `DriveDirect`, and its rejections at ±501 for either wheel |
| `OI.LedsExamples` | oi_test.go:150-155 | the golden LED encodings `[139, 08, 128, 128]` and `[139, 02, 0, 255]` |
| `Dispatch.Paced` | connection.go:39-43 | at 115200 baud a write of \|d\| bytes is 2·\|d\| events: for each byte in order, a 200 µs sleep and then a one-byte write |
| `Dispatch.DataEvents` | connection.go:38-47 | `sendData` only writes and, when paced, sleeps 200 µs: it never closes or opens the device. `DataEventsSpec` states the rest |
| `Dispatch.PacedWritesData` | connection.go:40-43 | pacing changes how the bytes are cut up, never which bytes reach the device |
| `Dispatch.DataEventsSpec` | connection.go:38-47 | at any rate the bytes written are exactly the data; at 115200 there are \|d\| one-byte writes, each after a 200 µs sleep; at any other rate there is one write of the data and no sleep |
| `Dispatch.Step` | connection.go:51-67 | one turn of the loop: the rate afterwards is the command's rate for a baud command and unchanged otherwise; a turn fails only on a baud command, and then its last event is the failed reopen at that rate. `StepWritesCommand` states the bytes it writes |
| `Dispatch.Run` | connection.go:50-69 | the loop over the queue: a failed run's last event is a failed open. `RunAliveIff`, `RunWritesInOrder`, `RunAbortsAtFailedReopen`, `RunAppend`, `RunIsBlocks` and `RunDisciplined` state the rest |
| `Dispatch.StepWritesCommand` | connection.go:50-68 | handling one command writes exactly its encoding; only a baud command changes the rate, to its own rate; handling fails only on a baud command whose reopen fails |
| `Dispatch.RunAliveIff` | connection.go:55-64 | the loop survives the queue iff every baud command on it can reopen the port at its rate |
| `Dispatch.RunWritesInOrder` | connection.go:50-56 | over a run with no failed reopen, the bytes at the device are the concatenated encodings of the queued commands in queue order, and the final rate is the one the commands leave in effect |
| `Dispatch.RunAbortsAtFailedReopen` | connection.go:59-64 | a failed run stopped at the first baud command whose reopen fails; the bytes written are the encodings up to and including it; the failed open is the last event, so nothing more is written and there is no final close |
| `Dispatch.RunAppend` | connection.go:50-69 | draining the queue in two parts leaves the same trace, rate and outcome as draining it at once; after a failure, later commands change nothing |
| `Dispatch.BaudAfterIsLatestRate` | connection.go:52-59 | after a queue the rate is that of its last baud command, or the starting rate if it has none |
| `Dispatch.Blocks` | connection.go:50-68 | one block of events per queued command, in queue order |
| `Dispatch.RunIsBlocks` | connection.go:50-68 | over a run with no failed reopen, the trace is the commands' blocks in order, each handled at the rate left by the commands before it; a baud command is sent at the old rate's pacing and every later command at the new one |
| `Dispatch.ReopenDisciplined` | connection.go:57-65 | the close-then-reopen of a baud change acts on an open device and leaves it open iff the reopen worked |
| `Dispatch.RunDisciplined` | connection.go:49-69 | the loop writes only to an open device, never closes or opens it twice in a row, and leaves it open iff it is still alive |
| `Dispatch.ConnectionLifecycle` | connection.go:25-71 | from the open in `Connect` to the final close, nothing is written to a closed device, the device is never closed twice in a row, and it ends closed |
| `Dispatch.ReconfigurationScenario` | connection.go:55-67 | a baud change from 115200 to 19200 followed by `Start` gives: paced `129`, `7`, then close, reopen at 19200, a 100 ms sleep, then `128` in one burst |
| `Dispatch.Connection.Connect` | connection.go:25-36 | no connection iff the port cannot be opened at the initial rate; otherwise `Port` and `Baud` are the arguments, the queue is empty and open, and the trace is the one successful open |
| `Dispatch.Connection.constructor` | connection.go:33 | the connection record built after a successful open |
| `Dispatch.Connection.Send` | connection.go:75-77 | appends the command to the end of the queue |
| `Dispatch.Connection.SendMany` | connection.go:80-84 | appends the commands to the queue in order, as successive `Send` calls do |
| `Dispatch.Connection.Close` | connection.go:87-89 | closes the queue |
| `Dispatch.Connection.SendData` | connection.go:38-47 | appends exactly `DataEvents(Baud, data)` to the trace and changes nothing else |
| `Dispatch.Connection.Handle` | connection.go:51-68 | the loop body for one command: the trace, the rate and the alive flag become those of `Step` at the old rate |
| `Dispatch.Connection.Sender` | connection.go:49-72 | the trace grows by `Run` over the queue, then one final close iff no reopen failed; `Baud` ends at `Run`'s rate; the queue is empty on success; after a failed reopen it holds exactly the commands after the first baud command whose reopen fails |
| `Utils.Progression` | utils.go:109-111 | the values the loop appends: every one passes the bound test. `ProgressionTerms`, `ProgressionMonotone` and `ProgressionLength` state the rest |
| `Utils.Capacity` | utils.go:39-52 | the capacity Go computes is always a 64-bit `int`; `CapacityNoWrap` and `CapacityExamples` state its value |
| `Utils.CapacityNoWrap` | utils.go:39-52 | for every input on which nothing wraps, the capacity is \|stop - start\| / \|step\|, the number of whole steps from `start` to `stop` in either direction. This covers signed kinds whose difference fits 64 bits, and unsigned kinds with `start <= stop` and a quotient below 2^63 |
| `Utils.CapacityExamples` | utils.go:39-52 | (0, 10, 2) and (0, 10, -2) give capacity 5. `int64` (0, MinInt64, 1) gives MinInt64 because the negation wraps, so the allocation panics. (0, 2^50, -1) gives 2^50, whose 8-byte elements exceed the 2^48-byte limit. Unsigned (1, 0, 1) wraps to -1 |
| `Utils.ProgressionTerms` | utils.go:109-111 | element k of the progression is start + k·step and passes the bound test; start + \|P\|·step, the first value left out, fails it; a step pointing away from `stop` gives no elements |
| `Utils.ProgressionMonotone` | utils.go:109-111 | the progression strictly increases for a positive step and strictly decreases for a negative step |
| `Utils.ProgressionLength` | utils.go:109-113 | every start + k·step with k at or past the length fails the bound test, so the length is the number of k for which the test holds |
| `Utils.SignedSequence` | utils.go:27-37 | the signed loop, with the test `> stop` for a negative step and `< stop` otherwise, returns exactly the progression |
| `Utils.UnsignedSequence` | utils.go:44-50 | the unsigned loop, with the test `< stop` and no look at the sign of the step, returns exactly the progression |
| `Utils.Sequence` | utils.go:14-114 | `nil` iff the kinds differ, the kind is unsupported, or `start` has a named type and no panic came first. A panic iff the kinds agree on an integer kind and the step is zero or `MakeSlice` refuses the capacity. Otherwise a slice holding the progression, each element of `start`'s kind and representable in it |
| `Utils.ProgressionExamples` | utils_test.go:9-25 | the progressions of the library's examples: 0..9, 5..9, 0..8 by 2, 0..-8 by -2, and nothing for `(0, 10, -2)` |
| `Utils.SequenceExamples` | utils_test.go:8-26 | `Sequence` on the library's own test calls. `int` 0..9; `byte` 5..9; `uintptr` 0..8 by 2; `int16` 0..-8 by -2; `nil` for mismatched kinds (`int`, `byte`, `int`); an empty slice for `(0, 10, -2)` |

## Left out

- `Channel()` and `Timeout()` (oi.go:71-89) are constants (`nil`, 0) with no behaviour. They are not modelled.
- Goroutines and the unbuffered channel are not modelled. The queue is a sequence consumed first-in first-out, and `Send` never blocks. `Dispatch.RunAppend` shows that draining in parts gives the same trace as draining at once.
- Dispatch.Connection.Sender: requires the queue to be closed. It models the whole life of the goroutine, which ends only after `Close`.
- Dispatch.Connection.Send: requires an open queue, because sending on a closed Go channel panics. `Close` likewise requires an open queue, because closing twice panics.
- Dispatch.Connection.Send: takes a `Command`, never a missing one. In Go, sending the `nil` that a constructor returns for a bad parameter is accepted, and the sender's `cmd.Assemble()` (connection.go:51) then panics and ends the loop. That panic is not modelled.
- `serial.OpenPort` and the device are not modelled beyond trace events. Whether an open succeeds is the input `canOpen(port, rate)`. Write errors are ignored by the source, and the model treats writes as always succeeding.
- `time.Sleep` is recorded as a `Sleep` event only, with no real time. `fmt.Printf` logging is left out.
- The panic on a failed reopen is modelled as `Sender` returning `false` and stopping. Process termination is not modelled.
- The float branches of `Sequence` (utils.go:53-69) are left out because they are floating-point. `Utils.Sequence` requires that a common kind is not a float kind.
- The reflection mechanics of `Sequence` are replaced by a `Value(kind, n, named)` record. All unsupported kinds are one kind, `Other`.
- Utils.Sequence: when the loop is reached, it requires that the first value left out fits the kind. Otherwise Go's `SetInt`/`SetUint` wraps and the loop may not end, which a terminating model cannot express.
- The allocation limit `MaxAlloc` is 2^48 bytes, the Go runtime's limit on 64-bit platforms with 48-bit heap addresses. Other platforms and running out of memory below that limit are not modelled.
- Integers are unbounded. Baud rates are `nat` rather than 64-bit `uint`, which does not matter for a table lookup. Drive parameters are restricted to the `int16` range by their type.

## Findings

| source | as written | input that shows it | evidently intended | confidence | as-written member | corrected member |
|---|---|---|---|---|---|---|
| oi.go:266-267 | `Song` checks `byte(len(song))`, the length modulo 256, against 1..16 | song number 0 with 257 notes: accepted, count byte 1, 257 records sent | refuse lists of more than 16 notes ("Each song can be up to 16 notes long", oi.go:261) | not executed; follows from the code | `OI.SongCountWraps` | `OI.SongChecked` |
