/** The body of the firmware's main loop: the code-entry state machine that keeps the
    entered digits, echoes them on row 2 of the display, and on submit drives the gate
    output PC0 (bit 0 of PORTC). */
module Entry {
  import opened CText
  import Lcd
  import opened Seqs

  /** The code that sets the gate output. */
  const FullGateCode: seq<char> := "1234"
  /** The code that clears the gate output. */
  const HalfGateCode: seq<char> := "4321"

  /** The five-character input buffer with every entry NUL. */
  const Cleared: seq<char> := [NUL, NUL, NUL, NUL, NUL]

  const Prompt: seq<char> := "Enter Code:"
  const Accepted: seq<char> := "Code Accepted"
  const Incorrect: seq<char> := "Incorrect Code"
  /** What the clear key writes over the entered characters. */
  const ShortBlank: seq<char> := "    "
  /** What a submit writes over its status message. */
  const LongBlank: seq<char> := "                "

  /** A call into the display driver. */
  datatype LcdCall = GotoXY(x: UChar, y: Lcd.Row) | PutChar(c: char) | PutString(s: seq<char>)

  /** The bytes the controller receives for one driver call. */
  function Sends(c: LcdCall): seq<Lcd.Transfer>
  {
    match c
    case GotoXY(x, y) => [Lcd.Transfer(false, Lcd.Address(x, y) as bv8)]
    case PutChar(ch) => [Lcd.Transfer(true, Byte(ch))]
    case PutString(s) => Lcd.Text(CStr(s))
  }

  /** The bytes the controller receives for a sequence of driver calls. */
  function Transfers(calls: seq<LcdCall>): seq<Lcd.Transfer>
    decreases |calls|
  {
    if calls == [] then [] else Transfers(calls[..|calls| - 1]) + Sends(calls[|calls| - 1])
  }

  /** The bytes for two runs of driver calls, one after the other, are the bytes of the
      first run followed by those of the second. */
  lemma {:induction false} TransfersAppend(a: seq<LcdCall>, b: seq<LcdCall>)
    ensures Transfers(a + b) == Transfers(a) + Transfers(b)
    decreases |b|
  {
    if b == [] {
      assert a + b == a;
    } else {
      var b' := b[..|b| - 1];
      assert (a + b)[..|a + b| - 1] == a + b';
      TransfersAppend(a, b');
      Associative(Transfers(a), Transfers(b'), Sends(b[|b| - 1]));
    }
  }

  /** The bytes of one driver call. */
  lemma TransfersOfOne(a: LcdCall)
    ensures Transfers([a]) == Sends(a)
  {
    assert [a][..0] == [];
  }

  lemma TransfersOfTwo(a: LcdCall, b: LcdCall)
    ensures Transfers([a, b]) == Sends(a) + Sends(b)
  {
    assert [a, b] == [a] + [b];
    TransfersAppend([a], [b]);
    TransfersOfOne(a);
    TransfersOfOne(b);
  }

  lemma TransfersOfThree(a: LcdCall, b: LcdCall, c: LcdCall)
    ensures Transfers([a, b, c]) == Sends(a) + Sends(b) + Sends(c)
  {
    assert [a, b, c] == [a, b] + [c];
    TransfersAppend([a, b], [c]);
    TransfersOfTwo(a, b);
    TransfersOfOne(c);
  }

  lemma TransfersOfFour(a: LcdCall, b: LcdCall, c: LcdCall, d: LcdCall)
    ensures Transfers([a, b, c, d]) == Sends(a) + Sends(b) + Sends(c) + Sends(d)
  {
    assert [a, b, c, d] == [a, b, c] + [d];
    TransfersAppend([a, b, c], [d]);
    TransfersOfThree(a, b, c);
    TransfersOfOne(d);
  }

  // ---------------------------------------------------------------------------
  // Gate control

  /** The outcome of comparing a submitted code with the two known codes. */
  datatype Verdict = OpenFull | OpenHalf | Rejected

  /** Compares the submitted string with the full code first, then the half code, each
      as `strcmp` does: equal characters and equal length. */
  function Evaluate(entered: seq<char>): (v: Verdict)
    ensures v != Rejected ==> |entered| == 4
  {
    if entered == FullGateCode then OpenFull
    else if entered == HalfGateCode then OpenHalf
    else Rejected
  }

  /** PORTC after the verdict: PC0 set on the full code, cleared on the half code, and
      nothing changed on a rejected code. */
  function Gate(portC: bv8, v: Verdict): (g: bv8)
    ensures g & 0xFE == portC & 0xFE
    ensures v == OpenFull ==> g & 1 == 1
    ensures v == OpenHalf ==> g & 1 == 0
    ensures v == Rejected ==> g == portC
  {
    match v
    case OpenFull => portC | 1
    case OpenHalf => portC & !1
    case Rejected => portC
  }

  /** The status message shown for a verdict. */
  function Message(v: Verdict): seq<char>
  {
    if v == Rejected then Incorrect else Accepted
  }

  /** The driver calls a submit makes: the verdict's message at column 1 of row 2, then
      sixteen blanks over it. */
  function VerdictCalls(v: Verdict): seq<LcdCall>
  {
    [GotoXY(1, 2), PutString(Message(v)), GotoXY(1, 2), PutString(LongBlank)]
  }

  /** A submit's second print erases its first: the message is printed whole (it holds
      no NUL), and the blanks printed after it from the same column are at least as
      many as its characters. */
  lemma BlankingCoversMessage(v: Verdict)
    ensures VerdictCalls(v)[0] == VerdictCalls(v)[2] == GotoXY(1, 2)
    ensures NUL !in Message(v) && NUL !in LongBlank
    ensures 0 < |Message(v)| <= |LongBlank|
    ensures forall i :: 0 <= i < |LongBlank| ==> LongBlank[i] == ' '
  {
  }

  // ---------------------------------------------------------------------------
  // The state machine, as a function of the state

  /** The loop's state: the next display column and buffer slot (1-based), the
      five-character buffer, and PORTC. */
  datatype State = State(position: nat, code: seq<char>, portC: bv8)

  /** The shape every state has: a position from 1 to 5 and a five-character buffer. */
  predicate WellFormed(s: State)
  {
    1 <= s.position <= 5 && |s.code| == 5
  }

  /** The buffer invariant: the slots before the position hold the entered characters,
      none of them NUL, and every slot from the position on is NUL. */
  predicate Inv(s: State)
  {
    WellFormed(s) &&
    (forall i :: 0 <= i < s.position - 1 ==> s.code[i] != NUL) &&
    (forall i :: s.position - 1 <= i < 5 ==> s.code[i] == NUL)
  }

  /** The code entered so far: the C string the buffer holds. */
  function Entered(s: State): seq<char>
    requires WellFormed(s)
  {
    CStr(s.code)
  }

  /** The state after a key, and the driver calls it makes. */
  datatype Outcome = Outcome(next: State, calls: seq<LcdCall>)

  /** The state at the top of the loop: position 1, an all-NUL buffer, PC0 low. */
  function Start(portC: bv8): (s: State)
    ensures Inv(s) && Entered(s) == [] && s.portC & 1 == 0
  {
    State(1, Cleared, portC & !1)
  }

  /** One pass of the loop with a key that is not NUL. 'A' with something entered is
      backspace, 'C' clears, 'D' submits; any other key, and 'A' with nothing entered,
      is stored while fewer than four characters are entered and dropped otherwise. */
  function Step(s: State, key: char): (o: Outcome)
    requires WellFormed(s) && key != NUL
    ensures WellFormed(o.next)
    ensures key != 'D' ==> o.next.portC == s.portC
  {
    var p := s.position;
    if key == 'A' && p > 1 then
      Outcome(State(p - 1, s.code[p - 2 := NUL], s.portC),
              [GotoXY((p - 1), 2), PutChar(' '), GotoXY((p - 1), 2)])
    else if key == 'C' then
      Outcome(State(1, Cleared, s.portC), [GotoXY(1, 2), PutString(ShortBlank)])
    else if key == 'D' then
      var v := Evaluate(CStr(s.code[p - 1 := NUL]));
      Outcome(State(1, Cleared, Gate(s.portC, v)), VerdictCalls(v))
    else if p <= 4 then
      Outcome(State(p + 1, s.code[p - 1 := key], s.portC),
              [GotoXY(p, 2), PutChar(key)])
    else
      Outcome(s, [])
  }

  /** The loop over a finite run of scan results: a NUL (no key pressed) changes nothing. */
  function Run(s: State, keys: seq<char>): (r: State)
    requires WellFormed(s)
    ensures WellFormed(r)
    decreases |keys|
  {
    if keys == [] then s
    else Run(if keys[0] == NUL then s else Step(s, keys[0]).next, keys[1..])
  }

  // ---------------------------------------------------------------------------
  // Properties of the state machine

  /** Under the invariant the entered code is exactly the slots before the position, so
      its length is `position - 1`. */
  lemma EnteredIsPrefix(s: State)
    requires Inv(s)
    ensures Entered(s) == s.code[..s.position - 1]
    ensures |Entered(s)| == s.position - 1
  {
    CStrUpTo(s.code, s.position - 1);
  }

  /** Every key keeps the buffer invariant. */
  lemma StepKeepsInv(s: State, key: char)
    requires Inv(s) && key != NUL
    ensures Inv(Step(s, key).next)
  {
  }

  /** Any run of scan results keeps the buffer invariant. */
  lemma {:induction false} RunKeepsInv(s: State, keys: seq<char>)
    requires Inv(s)
    ensures Inv(Run(s, keys))
    decreases |keys|
  {
    if keys != [] {
      var s' := if keys[0] == NUL then s else Step(s, keys[0]).next;
      if keys[0] != NUL {
        StepKeepsInv(s, keys[0]);
      }
      RunKeepsInv(s', keys[1..]);
    }
  }

  /** A key that is stored goes into the next slot and onto the next column of row 2;
      nothing else in the buffer changes. 'A' is stored this way when nothing is entered. */
  lemma AppendKey(s: State, key: char)
    requires Inv(s) && key != NUL && key != 'C' && key != 'D'
    requires key == 'A' ==> s.position == 1
    requires s.position <= 4
    ensures Step(s, key).next == State(s.position + 1, s.code[s.position - 1 := key], s.portC)
    ensures Entered(Step(s, key).next) == Entered(s) + [key]
    ensures Step(s, key).calls == [GotoXY(s.position, 2), PutChar(key)]
  {
    var n := Step(s, key).next;
    StepKeepsInv(s, key);
    EnteredIsPrefix(s);
    EnteredIsPrefix(n);
    assert n.code[..n.position - 1] == s.code[..s.position - 1] + [key];
  }

  /** With four characters entered, any key other than 'A', 'C' and 'D' is dropped: no
      state change and no display output. */
  lemma DropWhenFull(s: State, key: char)
    requires WellFormed(s) && s.position == 5
    requires key != NUL && key != 'A' && key != 'C' && key != 'D'
    ensures Step(s, key) == Outcome(s, [])
  {
  }

  /** Backspace removes the last entered character, from the buffer and from the display
      (a blank is written over it and the cursor is put back on its column). */
  lemma Backspace(s: State)
    requires Inv(s) && s.position > 1
    ensures Step(s, 'A').next == State(s.position - 1, s.code[s.position - 2 := NUL], s.portC)
    ensures Entered(Step(s, 'A').next) == Entered(s)[..|Entered(s)| - 1]
    ensures Step(s, 'A').calls ==
      [GotoXY((s.position - 1), 2), PutChar(' '), GotoXY((s.position - 1), 2)]
  {
    var n := Step(s, 'A').next;
    StepKeepsInv(s, 'A');
    EnteredIsPrefix(s);
    EnteredIsPrefix(n);
    assert n.code[..n.position - 1] == s.code[..s.position - 1][..s.position - 2];
  }

  /** Clear empties the buffer and blanks the first four columns of row 2, whatever
      the state was. */
  lemma ClearResets(s: State)
    requires WellFormed(s)
    ensures Step(s, 'C') == Outcome(State(1, Cleared, s.portC), [GotoXY(1, 2), PutString(ShortBlank)])
    ensures Inv(Step(s, 'C').next) && Entered(Step(s, 'C').next) == []
  {
  }

  /** Submit compares the entered code, drives PC0 by the verdict, shows the verdict's
      message on row 2 and then blanks it, and leaves an empty buffer. */
  lemma Submit(s: State)
    requires Inv(s)
    ensures Step(s, 'D') ==
      Outcome(State(1, Cleared, Gate(s.portC, Evaluate(Entered(s)))),
              [GotoXY(1, 2), PutString(Message(Evaluate(Entered(s)))), GotoXY(1, 2), PutString(LongBlank)])
    ensures Inv(Step(s, 'D').next) && Entered(Step(s, 'D').next) == []
  {
    assert s.code[s.position - 1 := NUL] == s.code;
  }

  /** What a submit does to the gate output: set on "1234", cleared on "4321", unchanged
      otherwise, with no other PORTC bit touched; a match needs exactly four characters. */
  lemma SubmitGate(s: State)
    requires Inv(s)
    ensures Step(s, 'D').next.portC & 0xFE == s.portC & 0xFE
    ensures Entered(s) == FullGateCode ==> Step(s, 'D').next.portC & 1 == 1
    ensures Entered(s) == HalfGateCode ==> Step(s, 'D').next.portC & 1 == 0
    ensures Entered(s) != FullGateCode && Entered(s) != HalfGateCode ==>
      Step(s, 'D').next.portC == s.portC
    ensures Entered(s) == FullGateCode || Entered(s) == HalfGateCode ==> s.position == 5
  {
    Submit(s);
    EnteredIsPrefix(s);
  }

  /** Running two runs of scan results one after the other is running their
      concatenation. */
  lemma {:induction false} RunAppend(s: State, a: seq<char>, b: seq<char>)
    requires WellFormed(s)
    ensures Run(s, a + b) == Run(Run(s, a), b)
    decreases |a|
  {
    if a == [] {
      assert a + b == b;
    } else {
      assert (a + b)[1..] == a[1..] + b;
      RunAppend(if a[0] == NUL then s else Step(s, a[0]).next, a[1..], b);
    }
  }

  /** Keys that are neither special nor NUL, while they fit, are entered in order. */
  lemma {:induction false} RunEnters(s: State, keys: seq<char>)
    requires Inv(s) && s.position - 1 + |keys| <= 4
    requires forall i :: 0 <= i < |keys| ==> keys[i] !in {NUL, 'A', 'C', 'D'}
    ensures Inv(Run(s, keys))
    ensures Entered(Run(s, keys)) == Entered(s) + keys
    ensures Run(s, keys).position == s.position + |keys|
    ensures Run(s, keys).portC == s.portC
    decreases |keys|
  {
    if keys == [] {
    } else {
      var n := Step(s, keys[0]).next;
      AppendKey(s, keys[0]);
      StepKeepsInv(s, keys[0]);
      RunEnters(n, keys[1..]);
      assert keys == [keys[0]] + keys[1..];
      Associative(Entered(s), [keys[0]], keys[1..]);
    }
  }

  /** Entering "1234" and submitting sets the gate output. */
  lemma FullCodeOpens(s: State)
    requires Inv(s) && s.position == 1
    ensures Run(s, "1234D").portC & 1 == 1
    ensures Run(s, "1234D").portC & 0xFE == s.portC & 0xFE
    ensures Inv(Run(s, "1234D")) && Entered(Run(s, "1234D")) == []
  {
    EnteredIsPrefix(s);
    RunAppend(s, "1234", "D");
    RunEnters(s, "1234");
    Submit(Run(s, "1234"));
    SubmitGate(Run(s, "1234"));
  }

  /** Entering "4321" and submitting clears the gate output. */
  lemma HalfCodeCloses(s: State)
    requires Inv(s) && s.position == 1
    ensures Run(s, "4321D").portC & 1 == 0
    ensures Run(s, "4321D").portC & 0xFE == s.portC & 0xFE
    ensures Inv(Run(s, "4321D")) && Entered(Run(s, "4321D")) == []
  {
    EnteredIsPrefix(s);
    RunAppend(s, "4321", "D");
    RunEnters(s, "4321");
    Submit(Run(s, "4321"));
    SubmitGate(Run(s, "4321"));
  }

  /** A wrong four-character code leaves the gate output as it was. */
  lemma WrongCodeKeepsGate(s: State)
    requires Inv(s) && s.position == 1
    ensures Run(s, "1111D").portC == s.portC
    ensures Inv(Run(s, "1111D")) && Entered(Run(s, "1111D")) == []
  {
    EnteredIsPrefix(s);
    RunAppend(s, "1111", "D");
    RunEnters(s, "1111");
    var t := Run(s, "1111");
    var e := Entered(t);
    assert e == "1111";
    assert e[0] == '1' && FullGateCode[3] == '4' && HalfGateCode[0] == '4';
    assert e != FullGateCode && e != HalfGateCode;
    Submit(t);
  }

  /** "12", backspace, submit: the backspace removed the '2', so "1" is submitted and
      rejected, and the gate output is unchanged. */
  lemma BackspaceThenSubmit(s: State)
    requires Inv(s) && s.position == 1
    ensures Run(s, "12AD").portC == s.portC
    ensures Inv(Run(s, "12AD")) && Entered(Run(s, "12AD")) == []
  {
    EnteredIsPrefix(s);
    RunAppend(s, "12", "AD");
    RunEnters(s, "12");
    var t := Run(s, "12");
    Backspace(t);
    var u := Step(t, 'A').next;
    assert Entered(u) == "1";
    assert Run(t, "AD") == Run(u, "D");
    Submit(u);
  }

  // ---------------------------------------------------------------------------
  // The state machine as the firmware runs it: locals of `main` updated in place

  /** Initialises the display and writes `text` from column 1 of row 1. */
  method ShowPrompt(display: Lcd.Display, text: seq<char>)
    requires display.Valid()
    modifies display
    ensures display.Valid()
    ensures display.Sent == old(display.Sent) + Lcd.InitInstructions + Transfers([GotoXY(1, 1), PutString(text)])
  {
    display.Init();
    ghost var s1 := display.Sent;
    display.GotoXY(1, 1);
    display.Print(text);
    TransfersOfTwo(GotoXY(1, 1), PutString(text));
    Associative(s1, Sends(GotoXY(1, 1)), Sends(PutString(text)));
  }

  /** A five-slot buffer whose slots are all NUL holds `Cleared`. */
  lemma ClearedBuffer(a: array<char>)
    requires a.Length == 5 && forall i :: 0 <= i < 5 ==> a[i] == NUL
    ensures a[..] == Cleared
  {
  }

  /** The variables of `main` that the loop updates: `position`, the `inputCode` buffer
      and PORTC, with the display they drive. */
  class Panel {
    var position: nat
    const inputCode: array<char>
    var portC: bv8
    const lcd: Lcd.Display

    ghost predicate Valid()
      reads this, inputCode, lcd
    {
      inputCode.Length == 5 && 1 <= position <= 5 && lcd.Valid()
    }

    /** The state these variables hold. */
    function Snapshot(): State
      reads this, inputCode
    {
      State(position, inputCode[..], portC)
    }

    /** The start of `main`: the display is initialised and shows the prompt on row 1,
        PC0 is driven low, the position is 1 and the buffer all NUL. */
    constructor (display: Lcd.Display, portC0: bv8)
      requires display.Valid()
      modifies display
      ensures Valid() && lcd == display && fresh(inputCode)
      ensures Snapshot() == Start(portC0)
      ensures lcd.Sent == old(display.Sent) + Lcd.InitInstructions + Transfers([GotoXY(1, 1), PutString(Prompt)])
    {
      ShowPrompt(display, Prompt);
      lcd := display;
      portC := portC0 & !1;
      position := 1;
      inputCode := new char[5](_ => NUL);
      new;
      ClearedBuffer(inputCode);
    }

    /** Sets every slot of the buffer to NUL. */
    method ClearCode()
      requires inputCode.Length == 5
      modifies inputCode
      ensures inputCode[..] == Cleared
    {
      for i := 0 to 5
        invariant forall j :: 0 <= j < i ==> inputCode[j] == NUL
      {
        inputCode[i] := NUL;
      }
    }

    /** Backspace: the position moves back, the last entered slot becomes NUL, and a
        blank is written over its column of row 2, leaving the cursor there. */
    method EraseLast()
      requires Valid() && position > 1
      modifies this, inputCode, lcd
      ensures Valid()
      ensures Snapshot() == State(old(position) - 1, old(inputCode[..])[old(position) - 2 := NUL], portC)
      ensures portC == old(portC)
      ensures lcd.Sent == old(lcd.Sent) +
        Transfers([GotoXY(position, 2), PutChar(' '), GotoXY(position, 2)])
    {
      position := position - 1;
      inputCode[position - 1] := NUL;
      Overwrite(position, ' ');
    }

    /** A character at column `x` of row 2, with the cursor moved back onto it. */
    method Overwrite(x: int, ch: char)
      requires lcd.Valid() && 0 <= x < 256
      modifies lcd
      ensures lcd.Valid()
      ensures lcd.Sent == old(lcd.Sent) + Transfers([GotoXY(x, 2), PutChar(ch), GotoXY(x, 2)])
    {
      ghost var s0 := lcd.Sent;
      lcd.GotoXY(x, 2);
      lcd.Data(Byte(ch));
      lcd.GotoXY(x, 2);
      ghost var a, b := Sends(GotoXY(x, 2)), Sends(PutChar(ch));
      TransfersOfThree(GotoXY(x, 2), PutChar(ch), GotoXY(x, 2));
      Associative(s0, a, b);
      Associative(s0, a + b, a);
    }

    /** Clear: the position returns to 1, the buffer becomes all NUL, and four blanks are
        written from column 1 of row 2. */
    method ClearAll()
      requires Valid()
      modifies this, inputCode, lcd
      ensures Valid()
      ensures Snapshot() == State(1, Cleared, old(portC))
      ensures lcd.Sent == old(lcd.Sent) + Transfers([GotoXY(1, 2), PutString(ShortBlank)])
    {
      position := 1;
      ClearCode();
      PrintFromStart(ShortBlank);
    }

    /** A string written from column 1 of row 2. */
    method PrintFromStart(text: seq<char>)
      requires lcd.Valid()
      modifies lcd
      ensures lcd.Valid()
      ensures lcd.Sent == old(lcd.Sent) + Transfers([GotoXY(1, 2), PutString(text)])
    {
      ghost var s0 := lcd.Sent;
      lcd.GotoXY(1, 2);
      lcd.Print(text);
      TransfersOfTwo(GotoXY(1, 2), PutString(text));
      Associative(s0, Sends(GotoXY(1, 2)), Sends(PutString(text)));
    }

    /** Submit: the buffer is NUL-terminated at the position and compared with the two
        codes; the verdict's message is shown on row 2 and then blanked, PC0 follows the
        verdict, and the position and buffer are reset. */
    method SubmitCode()
      requires Valid()
      modifies this, inputCode, lcd
      ensures Valid()
      ensures Snapshot() == State(1, Cleared, Gate(old(portC), Evaluate(CStr(old(inputCode[..])[old(position) - 1 := NUL]))))
      ensures lcd.Sent == old(lcd.Sent) +
        Transfers(VerdictCalls(Evaluate(CStr(old(inputCode[..])[old(position) - 1 := NUL]))))
    {
      inputCode[position - 1] := NUL;
      assert inputCode[..] == old(inputCode[..])[old(position) - 1 := NUL];
      var v := Evaluate(CStr(inputCode[..]));
      ShowVerdict(v);
      position := 1;
      DriveGate(v);
      ClearCode();
    }

    /** PC0 set on the full code, cleared on the half code, untouched otherwise. */
    method DriveGate(v: Verdict)
      modifies this`portC
      ensures portC == Gate(old(portC), v)
    {
      if v == OpenFull {
        portC := portC | 1;
      } else if v == OpenHalf {
        portC := portC & !1;
      }
    }

    /** The display side of a submit: the verdict's message, then sixteen blanks over
        it, each from column 1 of row 2. */
    method ShowVerdict(v: Verdict)
      requires lcd.Valid()
      modifies lcd
      ensures lcd.Valid()
      ensures lcd.Sent == old(lcd.Sent) + Transfers(VerdictCalls(v))
    {
      ShowTwice(Message(v), LongBlank);
    }

    /** Two strings in turn, each from column 1 of row 2. */
    method ShowTwice(first: seq<char>, second: seq<char>)
      requires lcd.Valid()
      modifies lcd
      ensures lcd.Valid()
      ensures lcd.Sent == old(lcd.Sent) + Transfers([GotoXY(1, 2), PutString(first), GotoXY(1, 2), PutString(second)])
    {
      ghost var s0 := lcd.Sent;
      lcd.GotoXY(1, 2);
      lcd.Print(first);
      lcd.GotoXY(1, 2);
      lcd.Print(second);
      ghost var a, b, c, d := Sends(GotoXY(1, 2)), Sends(PutString(first)), Sends(GotoXY(1, 2)), Sends(PutString(second));
      TransfersOfFour(GotoXY(1, 2), PutString(first), GotoXY(1, 2), PutString(second));
      Associative(s0, a, b);
      Associative(s0, a + b, c);
      Associative(s0, a + b + c, d);
    }

    /** A stored key: it goes into the slot at the position, is shown at that column of
        row 2, and the position advances. */
    method Append(key: char)
      requires Valid() && position <= 4
      modifies this, inputCode, lcd
      ensures Valid()
      ensures Snapshot() == State(old(position) + 1, old(inputCode[..])[old(position) - 1 := key], old(portC))
      ensures lcd.Sent == old(lcd.Sent) + Transfers([GotoXY(old(position), 2), PutChar(key)])
    {
      inputCode[position - 1] := key;
      ghost var s0 := lcd.Sent;
      lcd.GotoXY(position, 2);
      lcd.Data(Byte(key));
      TransfersOfTwo(GotoXY(position, 2), PutChar(key));
      Associative(s0, Sends(GotoXY(position, 2)), Sends(PutChar(key)));
      position := position + 1;
    }

    /** One pass of the loop with a key that is not NUL: the variables move to the state
        `Step` gives, and the controller receives the bytes of the driver calls it lists. */
    method HandleKey(key: char)
      requires Valid() && key != NUL
      modifies this, inputCode, lcd
      ensures Valid()
      ensures Snapshot() == Step(old(Snapshot()), key).next
      ensures lcd.Sent == old(lcd.Sent) + Transfers(Step(old(Snapshot()), key).calls)
    {
      ghost var s := Snapshot();
      ghost var p := position;
      if key == 'A' && position > 1 {
        assert Step(s, key) == Outcome(State(p - 1, s.code[p - 2 := NUL], s.portC),
                                       [GotoXY(p - 1, 2), PutChar(' '), GotoXY(p - 1, 2)]);
        EraseLast();
      } else if key == 'C' {
        assert Step(s, key) == Outcome(State(1, Cleared, s.portC), [GotoXY(1, 2), PutString(ShortBlank)]);
        ClearAll();
      } else if key == 'D' {
        ghost var v := Evaluate(CStr(s.code[p - 1 := NUL]));
        assert Step(s, key) == Outcome(State(1, Cleared, Gate(s.portC, v)), VerdictCalls(v));
        SubmitCode();
      } else if position <= 4 {
        assert Step(s, key) == Outcome(State(p + 1, s.code[p - 1 := key], s.portC), [GotoXY(p, 2), PutChar(key)]);
        Append(key);
      } else {
        assert Step(s, key) == Outcome(s, []);
      }
    }
  }
}
