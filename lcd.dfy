/** The character-LCD driver: an HD44780-style controller wired to PORTD in 4-bit mode,
    with the data lines on PD4-PD7 and the control lines RS (PD0), RW (PD1) and EN (PD2).
    The driver's only effect is the sequence of values it writes to PORTD; the controller
    side of the bus is modelled by a decoder that recovers the bytes it latches. */
module Lcd {
  import opened CText
  import opened Seqs

  /** Register select: clear for an instruction, set for character data. */
  const RS: bv8 := 0x01
  /** Read/write select: clear for a write to the controller. */
  const RW: bv8 := 0x02
  /** Enable strobe: the controller samples the bus when it falls. */
  const EN: bv8 := 0x04

  /** A display row `lcd_gotoxy` can address. */
  type Row = y: int | 1 <= y <= 4 witness 1

  /** DDRAM address of the first column of display rows 1 to 4, with the Set-DDRAM bit. */
  const LineStart: seq<int> := [0x80, 0xC0, 0x94, 0xD4]

  /** The instructions `lcd_init` sends, in order: return home (which also selects the
      4-bit interface), function set for two lines and a 5x7 font, display on with the
      cursor shown, clear display. */
  const InitInstructions: seq<Transfer> :=
    [Transfer(false, 0x02), Transfer(false, 0x28), Transfer(false, 0x0E), Transfer(false, 0x01)]

  /** One byte the controller received: an instruction (`rs` false) or character data. */
  datatype Transfer = Transfer(rs: bool, value: bv8)

  /** One nibble the controller sampled at a falling edge of EN: the RS line and the
      four data lines PD4-PD7. */
  datatype Sample = Sample(rs: bool, nibble: bv8)

  // ---------------------------------------------------------------------------
  // The driver side: what `lcd_command` and `lcd_data` put on PORTD.

  /** One half of a transfer, as the successive values of PORTD: the data lines are
      assigned (`lines`, which leaves the control bits clear), RS is set or cleared, RW
      is cleared, EN is raised and lowered again. */
  function Half(lines: bv8, rs: bool): (h: seq<bv8>)
    ensures |h| == 5 && h[0] == lines
    ensures h[3] & EN != 0 && h[4] & EN == 0
    ensures h[3] & RW == 0 && (h[3] & RS != 0) == rs
  {
    var w0 := lines;
    var w1 := if rs then w0 | RS else w0 & !RS;
    var w2 := w1 & !RW;
    var w3 := w2 | EN;
    var w4 := w3 & !EN;
    [w0, w1, w2, w3, w4]
  }

  /** What each half puts on the bus: the data lines never change, RW stays clear, EN is
      high only at the fourth write, and RS is as requested from the second write on. */
  lemma HalfShape(lines: bv8, rs: bool)
    requires lines & 0x0F == 0
    ensures |Half(lines, rs)| == 5
    ensures forall i :: 0 <= i < 5 ==> Half(lines, rs)[i] & 0xF0 == lines
    ensures forall i :: 0 <= i < 5 ==> Half(lines, rs)[i] & RW == 0
    ensures forall i :: 0 <= i < 5 ==> (Half(lines, rs)[i] & EN != 0 <==> i == 3)
    ensures (Half(lines, rs)[3] & RS != 0) == rs
    ensures !rs ==> forall i :: 0 <= i < 5 ==> Half(lines, rs)[i] & RS == 0
  {
    var h := Half(lines, rs);
    assert h[0] == lines;
    assert h[1] == if rs then lines | RS else lines;
    assert h[2] == h[1];
    assert h[3] == h[1] | EN;
    assert h[4] == h[1];
  }

  /** Every PORTD value one call of `lcd_command` (`rs` false) or `lcd_data` (`rs` true)
      writes for `value`: the high nibble first, then `value << 4`, which an 8-bit port
      truncates to the low nibble moved up onto PD4-PD7. */
  function BusWrites(value: bv8, rs: bool): (w: seq<bv8>)
    ensures |w| == 10
    ensures forall i :: 0 <= i < |w| ==> w[i] & RW == 0
    ensures forall i :: 0 <= i < |w| ==> (w[i] & EN != 0 <==> i == 3 || i == 8)
    ensures w[3] & 0xF0 == value & 0xF0
    ensures w[8] & 0xF0 == (value & 0x0F) << 4
    ensures (w[3] & RS != 0) == rs && (w[8] & RS != 0) == rs
    ensures !rs ==> forall i :: 0 <= i < |w| ==> w[i] & RS == 0
  {
    assert (value << 4) & 0x0F == 0 && (value << 4) == (value & 0x0F) << 4;
    HalfShape(value & 0xF0, rs);
    HalfShape(value << 4, rs);
    Half(value & 0xF0, rs) + Half(value << 4, rs)
  }

  // ---------------------------------------------------------------------------
  // The controller side: how an HD44780 in 4-bit mode reads the bus.

  /** Whether EN falls between two consecutive PORTD values. */
  predicate Falls(before: bv8, after: bv8)
  {
    before & EN != 0 && after & EN == 0
  }

  /** The nibbles the controller samples from a sequence of PORTD values: one at every
      falling edge of EN, taken from the value on the bus while EN was high. */
  function Samples(w: seq<bv8>): seq<Sample>
    decreases |w|
  {
    if |w| < 2 then []
    else
      var before, after := w[|w| - 2], w[|w| - 1];
      Samples(w[..|w| - 1]) +
      (if Falls(before, after) then [Sample(before & RS != 0, before >> 4)] else [])
  }

  /** The bytes the controller assembles from its samples: in 4-bit mode every two
      nibbles form one byte, high nibble first, and the first nibble's RS decides the
      register. */
  function Assemble(s: seq<Sample>): (t: seq<Transfer>)
    ensures |t| == |s| / 2
    decreases |s|
  {
    if |s| < 2 then []
    else [Transfer(s[0].rs, (s[0].nibble << 4) | s[1].nibble)] + Assemble(s[2..])
  }

  /** Every byte the controller has received from a sequence of PORTD values. */
  function Received(w: seq<bv8>): seq<Transfer>
  {
    Assemble(Samples(w))
  }

  /** The bus is at rest: EN is low (or nothing has been written yet). */
  predicate AtRest(w: seq<bv8>)
  {
    w == [] || w[|w| - 1] & EN == 0
  }

  /** Nothing before a point where EN is low can pair with an edge after it. */
  lemma {:induction false} SamplesAppend(w: seq<bv8>, u: seq<bv8>)
    requires AtRest(w)
    ensures Samples(w + u) == Samples(w) + Samples(u)
    decreases |u|
  {
    if u == [] {
      assert w + u == w;
    } else if |u| == 1 {
      if w != [] {
        assert (w + u)[..|w + u| - 1] == w;
        assert !Falls((w + u)[|w + u| - 2], (w + u)[|w + u| - 1]);
      }
    } else {
      var u' := u[..|u| - 1];
      assert (w + u)[..|w + u| - 1] == w + u';
      assert (w + u)[|w + u| - 2] == u[|u| - 2] && (w + u)[|w + u| - 1] == u[|u| - 1];
      var edge := if Falls(u[|u| - 2], u[|u| - 1]) then [Sample(u[|u| - 2] & RS != 0, u[|u| - 2] >> 4)] else [];
      assert Samples(u) == Samples(u') + edge;
      assert Samples(w + u) == Samples(w + u') + edge;
      SamplesAppend(w, u');
      Associative(Samples(w), Samples(u'), edge);
    }
  }

  /** Pairing nibbles commutes with concatenation at a byte boundary. */
  lemma {:induction false} AssembleAppend(s: seq<Sample>, r: seq<Sample>)
    requires |s| % 2 == 0
    ensures Assemble(s + r) == Assemble(s) + Assemble(r)
    decreases |s|
  {
    if s == [] {
      assert s + r == r;
    } else {
      assert (s + r)[2..] == s[2..] + r;
      AssembleAppend(s[2..], r);
    }
  }

  /** The controller samples exactly one nibble from each half of a transfer. */
  lemma HalfSamples(lines: bv8, rs: bool)
    requires lines & 0x0F == 0
    ensures Samples(Half(lines, rs)) == [Sample(rs, lines >> 4)]
  {
    var w := Half(lines, rs);
    HalfShape(lines, rs);
    var w1, w2, w3, w4 := w[..1], w[..2], w[..3], w[..4];
    assert w2[..1] == w1 && w3[..2] == w2 && w4[..3] == w3 && w[..4] == w4;
    assert Samples(w1) == [];
    assert Samples(w2) == [];
    assert Samples(w3) == [];
    assert Samples(w4) == [];
    assert Samples(w) == [Sample(rs, w[3] >> 4)];
  }

  /** Splitting a byte into the two nibbles the bus carries, and joining them again. */
  lemma NibbleSplit(value: bv8)
    ensures (value & 0xF0) & 0x0F == 0 && (value << 4) & 0x0F == 0
    ensures (value & 0xF0) >> 4 == value >> 4
    ensures (value << 4) >> 4 == value & 0x0F
    ensures ((value >> 4) << 4) | (value & 0x0F) == value
  {
  }

  /** The controller samples the high nibble, then the low nibble, of one transfer, and
      the bus is at rest afterwards. */
  lemma BusWritesSamples(value: bv8, rs: bool)
    ensures AtRest(BusWrites(value, rs))
    ensures Samples(BusWrites(value, rs)) == [Sample(rs, value >> 4), Sample(rs, value & 0x0F)]
  {
    NibbleSplit(value);
    var hi, lo := Half(value & 0xF0, rs), Half(value << 4, rs);
    HalfSamples(value & 0xF0, rs);
    HalfSamples(value << 4, rs);
    HalfShape(value & 0xF0, rs);
    SamplesAppend(hi, lo);
  }

  /** Round trip of the 4-bit protocol: whatever `lcd_command` or `lcd_data` sends is
      received as exactly that one byte, in the right register. */
  lemma BusWritesReceived(w: seq<bv8>, value: bv8, rs: bool)
    requires AtRest(w) && |Samples(w)| % 2 == 0
    ensures AtRest(w + BusWrites(value, rs))
    ensures |Samples(w + BusWrites(value, rs))| % 2 == 0
    ensures Received(w + BusWrites(value, rs)) == Received(w) + [Transfer(rs, value)]
  {
    var u := BusWrites(value, rs);
    BusWritesSamples(value, rs);
    SamplesAppend(w, u);
    NibbleSplit(value);
    var s := Samples(u);
    assert Assemble(s) == [Transfer(rs, value)];
    AssembleAppend(Samples(w), s);
  }

  // ---------------------------------------------------------------------------
  // What the instruction bytes mean to an HD44780

  /** An HD44780 instruction, as the controller reads an instruction byte. */
  datatype Instruction =
    | NoOp
    | ClearDisplay
    | ReturnHome
    | EntryModeSet(increment: bool, shift: bool)
    | DisplayControl(displayOn: bool, cursorOn: bool, blinkOn: bool)
    | CursorShift(shiftDisplay: bool, right: bool)
    | FunctionSet(eightBit: bool, twoLines: bool, tallFont: bool)
    | SetCgramAddress(cgram: int)
    | SetDdramAddress(ddram: int)

  // Instruction bytes are decoded as `UChar` values rather than `bv8`: the address
  // `lcd_gotoxy` sends is computed in `int` (see `Address`), and stating its meaning on
  // `bv8` would need int/bv8 conversions, which the solver handles poorly.

  /** Whether bit `k` of a byte is set. */
  predicate Bit(b: UChar, k: nat)
    requires k < 8
  {
    (b / [1, 2, 4, 8, 16, 32, 64, 128][k]) % 2 == 1
  }

  /** The instruction an instruction byte encodes: its highest set bit selects the
      instruction and the bits below it are the instruction's arguments. */
  function Decode(b: UChar): Instruction
  {
    if b >= 0x80 then SetDdramAddress(b - 0x80)
    else if b >= 0x40 then SetCgramAddress(b - 0x40)
    else if b >= 0x20 then FunctionSet(Bit(b, 4), Bit(b, 3), Bit(b, 2))
    else if b >= 0x10 then CursorShift(Bit(b, 3), Bit(b, 2))
    else if b >= 0x08 then DisplayControl(Bit(b, 2), Bit(b, 1), Bit(b, 0))
    else if b >= 0x04 then EntryModeSet(Bit(b, 1), Bit(b, 0))
    else if b >= 0x02 then ReturnHome
    else if b == 0x01 then ClearDisplay
    else NoOp
  }

  /** `lcd_init` leaves the controller homed, in 4-bit mode with two lines and the small
      font, with the display and an unblinking cursor on, and cleared. */
  lemma InitConfigures()
    ensures forall i :: 0 <= i < |InitInstructions| ==> !InitInstructions[i].rs
    ensures |InitInstructions| == 4
    ensures Decode(InitInstructions[0].value as int) == ReturnHome
    ensures Decode(InitInstructions[1].value as int) == FunctionSet(false, true, false)
    ensures Decode(InitInstructions[2].value as int) == DisplayControl(true, true, false)
    ensures Decode(InitInstructions[3].value as int) == ClearDisplay
  {
  }

  /** The Set-DDRAM-address instruction `lcd_gotoxy` sends for column `x` of row `y`: the
      row's line start plus `x - 1`, computed in `int` and stored into an unsigned char,
      so it wraps modulo 256. */
  function Address(x: int, y: int): (a: UChar)
    requires 0 <= x < 256 && 1 <= y <= 4
    ensures LineStart[y - 1] + x - 1 < 256 ==> a == LineStart[y - 1] + x - 1
    ensures LineStart[y - 1] + x - 1 >= 256 ==> a == LineStart[y - 1] + x - 1 - 256
  {
    (LineStart[y - 1] + x - 1) % 256
  }

  /** The DDRAM offset at which row `y` of a four-line, 20-column display begins. */
  function RowOffset(y: int): int
    requires 1 <= y <= 4
  {
    [0x00, 0x40, 0x14, 0x54][y - 1]
  }

  /** On a 20x4 display every on-screen position gives a Set-DDRAM instruction (bit 7
      set, so at least 0x80) whose low seven bits are that position's own DDRAM address,
      and distinct positions give distinct instructions. */
  lemma AddressOnScreen(x: int, y: int, x': int, y': int)
    requires 1 <= x <= 20 && 1 <= y <= 4
    requires 1 <= x' <= 20 && 1 <= y' <= 4
    ensures 0x80 <= Address(x, y)
    ensures Address(x, y) - 0x80 == RowOffset(y) + x - 1
    ensures Address(x, y) == Address(x', y') ==> x == x' && y == y'
  {
  }

  /** For an on-screen position the byte `lcd_gotoxy` sends is a Set-DDRAM-address
      instruction for that position's DDRAM address. */
  lemma GotoXYDecodes(x: int, y: int)
    requires 1 <= x <= 20 && 1 <= y <= 4
    ensures Decode(Address(x, y)) == SetDdramAddress(RowOffset(y) + x - 1)
  {
  }

  /** The bytes `lcd_print` sends for a string: one data transfer per character. */
  function Text(s: seq<char>): (t: seq<Transfer>)
    ensures |t| == |s|
    ensures forall i :: 0 <= i < |s| ==> t[i] == Transfer(true, Byte(s[i]))
    decreases |s|
  {
    if s == [] then [] else Text(s[..|s| - 1]) + [Transfer(true, Byte(s[|s| - 1]))]
  }

  /** The display controller as the firmware drives it: PORTD and the record of every
      value written to it. */
  class Display {
    /** The current value of PORTD. */
    var port: bv8
    /** Every value written to PORTD, oldest first. */
    var writes: seq<bv8>
    /** Every byte the controller has received so far: what it decodes from `writes`. */
    ghost var Sent: seq<Transfer>

    /** The bus is between transfers: EN is low and a whole number of bytes was sent. */
    ghost predicate Valid()
      reads this
    {
      port & EN == 0 && AtRest(writes) && |Samples(writes)| % 2 == 0 &&
      (writes != [] ==> port == writes[|writes| - 1]) &&
      Sent == Received(writes)
    }

    /** PORTD as it comes out of reset: zero, nothing written. */
    constructor ()
      ensures Valid() && port == 0 && writes == [] && Sent == []
    {
      port := 0;
      writes := [];
      Sent := [];
    }

    /** One write to PORTD. */
    method Put(v: bv8)
      modifies this`port, this`writes
      ensures port == v && writes == old(writes) + [v]
    {
      port := v;
      writes := writes + [v];
    }

    /** One half of a transfer: assign the data lines, set or clear RS, clear RW, then
        raise and lower EN. */
    method Strobe(lines: bv8, rs: bool)
      modifies this`port, this`writes
      ensures port == Half(lines, rs)[4]
      ensures writes == old(writes) + Half(lines, rs)
    {
      Put(lines);
      ghost var w0 := port;
      if rs {
        Put(port | RS);
      } else {
        Put(port & !RS);
      }
      ghost var w1 := port;
      Put(port & !RW);
      ghost var w2 := port;
      Put(port | EN);
      ghost var w3 := port;
      Put(port & !EN);
      ghost var w4 := port;
      AppendFive(old(writes), w0, w1, w2, w3, w4);
      assert [w0, w1, w2, w3, w4] == Half(lines, rs);
    }

    /** One byte over the 4-bit bus, high nibble first, with RS as given: the body that
        `lcd_command` and `lcd_data` share. */
    method Send(byte: bv8, rs: bool)
      requires Valid()
      modifies this
      ensures Valid()
      ensures writes == old(writes) + BusWrites(byte, rs)
      ensures Sent == old(Sent) + [Transfer(rs, byte)]
    {
      Strobe(byte & 0xF0, rs);
      Strobe(byte << 4, rs);
      assert BusWrites(byte, rs) == Half(byte & 0xF0, rs) + Half(byte << 4, rs);
      Associative(old(writes), Half(byte & 0xF0, rs), Half(byte << 4, rs));
      BusWritesReceived(old(writes), byte, rs);
      Sent := Sent + [Transfer(rs, byte)];
    }

    /** Sends an instruction byte over the 4-bit bus. */
    method Command(cmd: bv8)
      requires Valid()
      modifies this
      ensures Valid()
      ensures writes == old(writes) + BusWrites(cmd, false)
      ensures Sent == old(Sent) + [Transfer(false, cmd)]
    {
      Send(cmd, false);
    }

    /** Sends a character byte over the 4-bit bus. */
    method Data(data: bv8)
      requires Valid()
      modifies this
      ensures Valid()
      ensures writes == old(writes) + BusWrites(data, true)
      ensures Sent == old(Sent) + [Transfer(true, data)]
    {
      Send(data, true);
    }

    /** Moves the cursor to column `x` of row `y`. */
    method GotoXY(x: int, y: int)
      requires Valid() && 0 <= x < 256 && 1 <= y <= 4
      modifies this
      ensures Valid()
      ensures Sent == old(Sent) + [Transfer(false, Address(x, y) as bv8)]
    {
      Command(Address(x, y) as bv8);
    }

    /** Configures the controller: the four instructions of `InitInstructions`. */
    method Init()
      requires Valid()
      modifies this
      ensures Valid()
      ensures Sent == old(Sent) + InitInstructions
    {
      Command(0x02);
      Command(0x28);
      Command(0x0E);
      Command(0x01);
    }

    /** Writes the characters of a C string, stopping at its NUL. */
    method Print(s: seq<char>)
      requires Valid()
      modifies this
      ensures Valid()
      ensures Sent == old(Sent) + Text(CStr(s))
    {
      var i := 0;
      while i < |s| && s[i] != NUL
        invariant 0 <= i <= |s|
        invariant forall j :: 0 <= j < i ==> s[j] != NUL
        invariant Valid()
        invariant Sent == old(Sent) + Text(s[..i])
      {
        Data(Byte(s[i]));
        assert s[..i + 1][..i] == s[..i];
        i := i + 1;
      }
      CStrUpTo(s, i);
    }
  }
}
