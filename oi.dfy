/** The iRobot Create Open Interface (OI) command catalog: every constructor
    validates its parameters and either yields no command (Go's `nil`) or a
    command whose wire form is its opcode byte followed by its payload. */
module OI {
  import opened Wrappers

  /** A Go `byte`. */
  type Byte = b: int | 0 <= b < 0x100

  /** A Go `int16`. */
  type Int16 = v: int | -0x8000 <= v < 0x8000

  /** The two command kinds of the library: an ordinary command, and the
      baud-rate change, which also carries the rate the link switches to. */
  datatype Command =
    | Simple(opcode: Byte, payload: seq<Byte>)
    | BaudCmd(opcode: Byte, payload: seq<Byte>, rate: nat)

  /** A MIDI-style note: a tone and a duration in 1/64 s. */
  datatype Note = Note(tone: Byte, duration: Byte)

  /** The serial string a command stands for: its opcode, then its payload
      unchanged. */
  function Assemble(c: Command): (r: seq<Byte>)
    ensures |r| == 1 + |c.payload|
    ensures r[0] == c.opcode && r[1..] == c.payload
  {
    [c.opcode] + c.payload
  }

  // ---------------------------------------------------------------------
  // 16-bit two's-complement fields, high byte first

  /** `byte((v >> 8) & 0xFF)` for an int16 `v`. */
  function HighByte(v: Int16): Byte
  {
    (v % 0x1_0000) / 0x100
  }

  /** `byte(v & 0xFF)` for an int16 `v`. */
  function LowByte(v: Int16): Byte
  {
    v % 0x100
  }

  /** Reads a big-endian pair of bytes back as a signed 16-bit value; the
      decoder the device applies to every 16-bit field. */
  function Word(hi: Byte, lo: Byte): Int16
  {
    var u := hi * 0x100 + lo;
    if u < 0x8000 then u else u - 0x1_0000
  }

  /** Splitting an int16 into its high and low byte loses nothing. */
  lemma {:induction false} WordRoundTrip(v: Int16)
    ensures Word(HighByte(v), LowByte(v)) == v
  {
    var u := v % 0x1_0000;
    assert u == if v < 0 then v + 0x1_0000 else v;
    assert LowByte(v) == u % 0x100;
    assert HighByte(v) * 0x100 + LowByte(v) == u;
  }

  /** Every pair of bytes is the split of exactly one int16. */
  lemma {:induction false} WordSplitRoundTrip(hi: Byte, lo: Byte)
    ensures HighByte(Word(hi, lo)) == hi && LowByte(Word(hi, lo)) == lo
  {
    var u := hi * 0x100 + lo;
    assert Word(hi, lo) % 0x1_0000 == u;
    assert u / 0x100 == hi && u % 0x100 == lo;
  }

  /** `p` holds exactly two 16-bit fields, `a` then `b`, high byte first. */
  predicate EncodesWords(p: seq<Byte>, a: Int16, b: Int16)
  {
    |p| == 4 && Word(p[0], p[1]) == a && Word(p[2], p[3]) == b
  }

  /** The velocity limits of the drive commands, in mm/s. */
  predicate VelocityOk(v: Int16)
  {
    -500 <= v <= 500
  }

  /** The radius limits of `Drive`, in mm. */
  predicate RadiusOk(r: Int16)
  {
    -2000 <= r <= 2000
  }

  // ---------------------------------------------------------------------
  // Mode commands

  /** "Start": initialise the OI. */
  function Start(): (c: Command)
    ensures c.Simple? && Assemble(c) == [128]
  {
    Simple(128, [])
  }

  /** "Safe": enter Safe mode. */
  function Safe(): (c: Command)
    ensures c.Simple? && Assemble(c) == [131]
  {
    Simple(131, [])
  }

  /** "Full": enter Full control mode. */
  function Full(): (c: Command)
    ensures c.Simple? && Assemble(c) == [132]
  {
    Simple(132, [])
  }

  // ---------------------------------------------------------------------
  // Baud

  /** The supported OI baud rates, in ascending order; a rate's position in
      this list is its code on the wire. */
  const BaudRates: seq<nat> :=
    [300, 600, 1200, 2400, 4800, 9600, 14400, 19200, 28800, 38400, 57600, 115200]

  /** The library's own lookup table from rate to code. */
  const BaudCodes: map<nat, Byte> :=
    map[300 := 0, 600 := 1, 1200 := 2, 2400 := 3, 4800 := 4, 9600 := 5,
        14400 := 6, 19200 := 7, 28800 := 8, 38400 := 9, 57600 := 10, 115200 := 11]

  /** The lookup table and the ascending list agree: the table knows exactly
      the listed rates, and maps each to its position. */
  lemma BaudTableIsAscendingIndex()
    ensures BaudCodes.Keys == set r | r in BaudRates
    ensures forall k :: 0 <= k < |BaudRates| ==> BaudCodes[BaudRates[k]] == k
    ensures forall j, k :: 0 <= j < k < |BaudRates| ==> BaudRates[j] < BaudRates[k]
  {
  }

  /** "Baud": switch the link to `rate`; no command unless `rate` is one of the
      twelve supported rates. */
  function Baud(rate: nat): (r: Option<Command>)
    ensures r.Some? <==> rate in BaudRates
    ensures r.Some? ==> r.value.BaudCmd? && r.value.rate == rate
    ensures r.Some? ==> r.value.opcode == 129 && |r.value.payload| == 1
    ensures r.Some? ==> r.value.payload[0] < |BaudRates| && BaudRates[r.value.payload[0]] == rate
  {
    BaudTableIsAscendingIndex();
    if rate in BaudCodes then Some(BaudCmd(129, [BaudCodes[rate]], rate)) else None
  }

  // ---------------------------------------------------------------------
  // Demos

  /** "Demo": run built-in demo `demo` (0 "Cover" to 9 "Banjo"). */
  function Demo(demo: Byte): (r: Option<Command>)
    ensures r.None? <==> demo > 9
    ensures r.Some? ==> r.value.Simple? && Assemble(r.value) == [136, demo]
  {
    if demo > 9 then None else Some(Simple(136, [demo]))
  }

  /** "Demo" with the abort code 255. */
  function AbortDemo(): (c: Command)
    ensures c.Simple? && Assemble(c) == [136, 255]
  {
    Simple(136, [255])
  }

  // ---------------------------------------------------------------------
  // Drive commands

  /** "Drive": velocity in mm/s and turn radius in mm. */
  function Drive(velocity: Int16, radius: Int16): (r: Option<Command>)
    ensures r.None? <==> !VelocityOk(velocity) || !RadiusOk(radius)
    ensures r.Some? ==> r.value.Simple? && r.value.opcode == 137
    ensures r.Some? ==> EncodesWords(r.value.payload, velocity, radius)
  {
    if !VelocityOk(velocity) then None
    else if !RadiusOk(radius) then None
    else
      WordRoundTrip(velocity);
      WordRoundTrip(radius);
      Some(Simple(137, [HighByte(velocity), LowByte(velocity), HighByte(radius), LowByte(radius)]))
  }

  /** "Drive" in a straight line: the radius field is the special word 0x8000. */
  function DriveStraight(velocity: Int16): (r: Option<Command>)
    ensures r.None? <==> !VelocityOk(velocity)
    ensures r.Some? ==> r.value.Simple? && r.value.opcode == 137
    ensures r.Some? ==> EncodesWords(r.value.payload, velocity, -0x8000)
    ensures r.Some? ==> r.value.payload[2..] == [0x80, 0x00]
  {
    if !VelocityOk(velocity) then None
    else
      WordRoundTrip(velocity);
      Some(Simple(137, [HighByte(velocity), LowByte(velocity), 0x80, 0x00]))
  }

  /** "Drive" turning on the spot: radius word 1 counter-clockwise, -1 clockwise. */
  function Spin(velocity: Int16, clockwise: bool): (r: Option<Command>)
    ensures r.None? <==> !VelocityOk(velocity)
    ensures r.Some? ==> r.value.Simple? && r.value.opcode == 137
    ensures r.Some? ==> EncodesWords(r.value.payload, velocity, if clockwise then -1 else 1)
    ensures r.Some? ==> r.value.payload[2..] == if clockwise then [0xFF, 0xFF] else [0x00, 0x01]
  {
    if !VelocityOk(velocity) then None
    else
      var high: Byte, low: Byte := if clockwise then 0xFF else 0x00, if clockwise then 0xFF else 0x01;
      WordRoundTrip(velocity);
      Some(Simple(137, [HighByte(velocity), LowByte(velocity), high, low]))
  }

  /** "Drive Direct": right wheel velocity first, then left. */
  function DriveDirect(right: Int16, left: Int16): (r: Option<Command>)
    ensures r.None? <==> !VelocityOk(right) || !VelocityOk(left)
    ensures r.Some? ==> r.value.Simple? && r.value.opcode == 145
    ensures r.Some? ==> EncodesWords(r.value.payload, right, left)
  {
    if !VelocityOk(right) then None
    else if !VelocityOk(left) then None
    else
      WordRoundTrip(right);
      WordRoundTrip(left);
      Some(Simple(145, [HighByte(right), LowByte(right), HighByte(left), LowByte(left)]))
  }

  // ---------------------------------------------------------------------
  // LEDs and outputs

  /** The eight bits of `b`, least significant first. */
  function Bits(b: Byte): (s: seq<bool>)
    ensures |s| == 8
  {
    [b % 2 == 1, b / 2 % 2 == 1, b / 4 % 2 == 1, b / 8 % 2 == 1,
     b / 16 % 2 == 1, b / 32 % 2 == 1, b / 64 % 2 == 1, b / 128 % 2 == 1]
  }

  /** "LEDs": the flag byte has bit 3 for the Advance LED and bit 1 for the
      Play LED, then the power LED's colour and intensity. */
  function Leds(advance: bool, play: bool, powerColour: Byte, powerIntensity: Byte): (c: Command)
    ensures c.Simple? && c.opcode == 139 && |c.payload| == 3
    ensures Bits(c.payload[0]) == [false, play, false, advance, false, false, false, false]
    ensures c.payload[1..] == [powerColour, powerIntensity]
  {
    var bits: bv8 := (if advance then 1 << 3 else 0) | (if play then 1 << 1 else 0);
    Simple(139, [bits as Byte, powerColour, powerIntensity])
  }

  /** "Digital Outputs": the three low bits drive the three output pins. */
  function DigitalOutputs(bits: Byte): (r: Option<Command>)
    ensures r.None? <==> bits > 7
    ensures r.Some? ==> r.value.Simple? && Assemble(r.value) == [147, bits]
  {
    if bits > 0x07 then None else Some(Simple(147, [bits]))
  }

  /** "PWM Low Side Drivers": duty cycles 0..128, sent driver 2 first. */
  function PwmLowSideDrivers(driver0: Byte, driver1: Byte, driver2: Byte): (r: Option<Command>)
    ensures r.None? <==> driver0 > 128 || driver1 > 128 || driver2 > 128
    ensures r.Some? ==> r.value.Simple? && Assemble(r.value) == [144, driver2, driver1, driver0]
  {
    if driver0 > 128 || driver1 > 128 || driver2 > 128 then None
    else Some(Simple(144, [driver2, driver1, driver0]))
  }

  /** "Send IR": any byte value. */
  function SendIr(value: Byte): (c: Command)
    ensures c.Simple? && Assemble(c) == [151, value]
  {
    Simple(151, [value])
  }

  // ---------------------------------------------------------------------
  // Songs

  /** The note records of a song, two bytes each: tone then duration. */
  function NoteBytes(notes: seq<Note>): (r: seq<Byte>)
    ensures |r| == 2 * |notes|
    ensures forall i :: 0 <= i < |notes| ==> r[2 * i] == notes[i].tone && r[2 * i + 1] == notes[i].duration
  {
    if notes == [] then []
    else [notes[0].tone, notes[0].duration] + NoteBytes(notes[1..])
  }

  /** The count byte of a song: Go's `byte(len(song))`, the length modulo 256. */
  function CountByte(n: nat): Byte
  {
    n % 0x100
  }

  /** "Song": program song `number` (0..15). The count byte is checked, not the
      length of the note list itself, so the list passes when its length
      modulo 256 is in 1..16. */
  function Song(number: Byte, song: seq<Note>): (r: Option<Command>)
    ensures r.None? <==> number > 15 || CountByte(|song|) < 1 || CountByte(|song|) > 16
    ensures r.Some? ==> r.value.Simple? && r.value.opcode == 140
    ensures r.Some? ==> |r.value.payload| == 2 + 2 * |song|
    ensures r.Some? ==> r.value.payload[..2] == [number, CountByte(|song|)]
    ensures r.Some? ==> forall i :: 0 <= i < |song| ==>
      r.value.payload[2 + 2 * i] == song[i].tone && r.value.payload[3 + 2 * i] == song[i].duration
  {
    if number > 15 then None
    else
      var length := CountByte(|song|);
      if length < 1 || length > 16 then None
      else Some(Simple(140, [number, length] + NoteBytes(song)))
  }

  /** The song check as intended: the note list itself holds 1..16 notes. */
  function SongChecked(number: Byte, song: seq<Note>): (r: Option<Command>)
    ensures r.None? <==> number > 15 || |song| < 1 || |song| > 16
    ensures r.Some? ==> r.value.Simple? && r.value.opcode == 140
    ensures r.Some? ==> |r.value.payload| >= 2 && r.value.payload[1] == |song|
    ensures r.Some? ==> |r.value.payload| == 2 + 2 * r.value.payload[1]
    ensures r.Some? ==> |r.value.payload| <= 34
  {
    if number > 15 || |song| < 1 || |song| > 16 then None
    else Some(Simple(140, [number, |song|] + NoteBytes(song)))
  }

  /** As written, `Song` accepts 257 notes: it announces one note and then
      sends 257 records. The corrected check refuses the same list. */
  lemma {:induction false} SongCountWraps(song: seq<Note>)
    requires |song| == 257
    ensures Song(0, song).Some?
    ensures Song(0, song).value.payload[1] == 1
    ensures |Song(0, song).value.payload| == 2 + 2 * 257
    ensures SongChecked(0, song).None?
  {
    assert CountByte(|song|) == 1;
  }

  /** Where the two checks meet, they agree: on lists of at most 255 notes the
      count byte is the length, so `Song` and `SongChecked` coincide. */
  lemma {:induction false} SongAgreesBelowWrap(number: Byte, song: seq<Note>)
    requires |song| < 0x100
    ensures Song(number, song) == SongChecked(number, song)
  {
    assert CountByte(|song|) == |song|;
  }

  /** "Play Song": play song `number` (0..15). */
  function PlaySong(number: Byte): (r: Option<Command>)
    ensures r.None? <==> number > 15
    ensures r.Some? ==> r.value.Simple? && Assemble(r.value) == [141, number]
  {
    if number > 15 then None else Some(Simple(141, [number]))
  }

  // ---------------------------------------------------------------------
  // The library's own test vectors (oi_test.go)

  lemma DriveExamples()
    ensures Drive(500, -2000) == Some(Simple(137, [0x01, 0xF4, 0xF8, 0x30]))
    ensures Drive(-500, 2000) == Some(Simple(137, [0xFE, 0x0C, 0x07, 0xD0]))
    ensures Drive(0, 0) == Some(Simple(137, [0x00, 0x00, 0x00, 0x00]))
    ensures Drive(-27, 309) == Some(Simple(137, [0xFF, 0xE5, 0x01, 0x35]))
    ensures Drive(400, 1100) == Some(Simple(137, [0x01, 0x90, 0x04, 0x4C]))
    ensures Drive(400, -1100) == Some(Simple(137, [0x01, 0x90, 0xFB, 0xB4]))
    ensures Drive(501, 0).None? && Drive(-501, 0).None? && Drive(0, 2001).None? && Drive(0, -2001).None?
  {
  }

  lemma DriveStraightExamples()
    ensures DriveStraight(500) == Some(Simple(137, [0x01, 0xF4, 0x80, 0x00]))
    ensures DriveStraight(-500) == Some(Simple(137, [0xFE, 0x0C, 0x80, 0x00]))
    ensures DriveStraight(0) == Some(Simple(137, [0x00, 0x00, 0x80, 0x00]))
    ensures DriveStraight(-27) == Some(Simple(137, [0xFF, 0xE5, 0x80, 0x00]))
    ensures DriveStraight(400) == Some(Simple(137, [0x01, 0x90, 0x80, 0x00]))
    ensures DriveStraight(501).None? && DriveStraight(-501).None?
  {
    assert HighByte(500) == 0x01 && LowByte(500) == 0xF4;
    assert HighByte(-500) == 0xFE && LowByte(-500) == 0x0C;
    assert HighByte(0) == 0x00 && LowByte(0) == 0x00;
    assert HighByte(-27) == 0xFF && LowByte(-27) == 0xE5;
    assert HighByte(400) == 0x01 && LowByte(400) == 0x90;
  }

  lemma SpinExamples()
    ensures Spin(200, false) == Some(Simple(137, [0x00, 0xC8, 0x00, 0x01]))
    ensures Spin(-200, false) == Some(Simple(137, [0xFF, 0x38, 0x00, 0x01]))
    ensures Spin(200, true) == Some(Simple(137, [0x00, 0xC8, 0xFF, 0xFF]))
    ensures Spin(-200, true) == Some(Simple(137, [0xFF, 0x38, 0xFF, 0xFF]))
    ensures Spin(501, true).None? && Spin(-501, true).None?
  {
    assert HighByte(200) == 0x00 && LowByte(200) == 0xC8;
    assert HighByte(-200) == 0xFF && LowByte(-200) == 0x38;
  }

  lemma DriveDirectExamples()
    ensures DriveDirect(200, -200) == Some(Simple(145, [0x00, 0xC8, 0xFF, 0x38]))
    ensures DriveDirect(0, 0) == Some(Simple(145, [0x00, 0x00, 0x00, 0x00]))
    ensures DriveDirect(200, 100) == Some(Simple(145, [0x00, 0xC8, 0x00, 0x64]))
    ensures DriveDirect(500, -500) == Some(Simple(145, [0x01, 0xF4, 0xFE, 0x0C]))
    ensures DriveDirect(501, 0).None? && DriveDirect(-501, 0).None?
    ensures DriveDirect(0, 501).None? && DriveDirect(0, -501).None?
  {
    assert HighByte(200) == 0x00 && LowByte(200) == 0xC8;
    assert HighByte(-200) == 0xFF && LowByte(-200) == 0x38;
    assert HighByte(0) == 0x00 && LowByte(0) == 0x00;
    assert HighByte(100) == 0x00 && LowByte(100) == 0x64;
    assert HighByte(500) == 0x01 && LowByte(500) == 0xF4;
    assert HighByte(-500) == 0xFE && LowByte(-500) == 0x0C;
  }

  lemma LedsExamples()
    ensures Assemble(Leds(true, false, 128, 128)) == [139, 0x08, 128, 128]
    ensures Assemble(Leds(false, true, 0, 255)) == [139, 0x02, 0, 255]
  {
  }
}
