# Keypad gate controller: a Dafny model

This project models the firmware of an ATmega328 gate controller. The firmware reads a
4x4 matrix keypad, shows the code being typed on a character LCD, and drives output PC0
when a known code is submitted. All of it is in `Code/main.c`. The model has four
modules:

- `CText` (`ctext.dfy`): C strings as the firmware handles them. A string ends at its
  first NUL (`CStr`). A `char` is one byte (`Byte`).
- `Lcd` (`lcd.dfy`): the LCD driver. `Display` is a class holding PORTD and the record
  of every value written to it. Its methods `Command`, `Data`, `GotoXY`, `Init` and
  `Print` are `lcd_command`, `lcd_data`, `lcd_gotoxy`, `lcd_init` and `lcd_print`. The
  bit-level writes of the 4-bit protocol are the function `BusWrites`. Their partner is
  a model of the controller side of the bus, `Samples` and `Assemble`, which latches the
  data lines at each falling edge of EN and pairs the nibbles into bytes. The ghost
  field `Display.Sent` is what that decoder recovers from the writes, and every driver
  method states how `Sent` grows. Between calls, EN is low and the bus is at rest. `Decode` reads an instruction byte the way an HD44780
  does.
- `Keypad` (`keypad.dfy`): `keypadScan` as a method with the source's two nested loops.
  It takes the four PINB readings, one for each row driven low. Its result is specified
  by `Scans`: NUL when no key reads low, and otherwise the legend of the first pressed
  key in row-major order of `"123A456B789C*0#D"`.
- `Entry` (`entry.dfy`): the body of `main`'s loop. `Step` is one pass as a function on
  a `State`, which holds `position`, the five-character `inputCode` and PORTC. `Step`
  also lists the driver calls the pass makes. `Run` folds `Step` over a finite run of
  scan results. The class `Panel` holds the same variables as fields and an `array`.
  Its method `HandleKey` does one pass in place and is proved to match `Step`, both in
  its new state and in the bytes the display receives.
- `Seqs` (`seqs.dfy`): two regrouping lemmas for sequence concatenation.

Two behaviours of the code worth noting:

- 'A' is the backspace key, but with nothing entered (`position == 1`) it is not one.
  It falls through to the last branch and is stored as a character. See `Entry.AppendKey`, which allows `key ==
  'A'` exactly when `position == 1`.
- `lcd_gotoxy` does not clamp the row. `firstCharAdr[y - 1]` is out of bounds for rows
  outside 1 to 4. The model requires `1 <= y <= 4`, and every call in the firmware meets
  that.

## Model

| member | source | states |
|---|---|---|
| CText.CStr | Code/main.c:189-194 | the string a buffer holds is the prefix before its first NUL; it contains no NUL, and the buffer has a NUL right after it unless it ends there |
| Lcd.Half | Code/main.c:156-161 | one half is five PORTD writes: the first puts `lines` on the port, EN is high at the fourth write and low at the fifth, and while EN is high RW is clear and RS is as requested |
| Lcd.HalfShape | Code/main.c:156-161 | one half of a transfer keeps the data lines fixed, keeps RW clear, raises EN at the fourth write only, and has RS as requested while EN is high |
| Lcd.BusWrites | Code/main.c:155-187 | `lcd_command`/`lcd_data` make ten PORTD writes; EN is high exactly at writes 4 and 9, carrying the high nibble and then the low nibble on PD4-PD7; RW is always clear; RS is clear throughout for a command and set at both strobes for data |
| Lcd.SamplesAppend | Code/main.c:155-187 | once EN is low, later writes cannot form an edge with earlier ones: the controller's samples of a concatenation are the samples of each part |
| Lcd.AssembleAppend | Code/main.c:155-187 | pairing nibbles into bytes commutes with concatenation at a byte boundary |
| Lcd.HalfSamples | Code/main.c:156-161 | the controller samples exactly one nibble, with the right RS, from each half |
| Lcd.BusWritesSamples | Code/main.c:155-187 | one transfer yields the high-nibble sample and then the low-nibble sample, and leaves EN low |
| Lcd.BusWritesReceived | Code/main.c:155-187 | round trip of the 4-bit protocol: after the writes for `value`, the controller has received exactly one more byte, `value`, in the register RS selects |
| Lcd.Display.Put | Code/main.c:156 | one `ctrl = …` write: PORTD takes the value and the record of writes grows by it |
| Lcd.Display.Strobe | Code/main.c:156-161 | PORTD's new writes are exactly one half: data lines, RS, RW clear, EN up, EN down |
| Lcd.Display.Send | Code/main.c:155-187 | the writes grow by `BusWrites(byte, rs)` and the bytes received grow by that one byte; the bus stays at rest |
| Lcd.Display.Command | Code/main.c:155-170 | an instruction byte is written over the bus and received as an instruction |
| Lcd.Display.Data | Code/main.c:172-187 | a character byte is written over the bus and received as data |
| Lcd.InitConfigures | Code/main.c:144-153 | the four initialisation bytes are instructions: return home, function set (4-bit, two lines, small font), display on with an unblinking cursor, clear |
| Lcd.Display.Init | Code/main.c:144-153 | the controller receives those four instructions, in order |
| Lcd.Address | Code/main.c:139-140 | the byte `lcd_gotoxy` sends is `firstCharAdr[y - 1] + x - 1` stored into an unsigned char: that sum when it is below 256, and the sum less 256 otherwise |
| Lcd.AddressOnScreen | Code/main.c:138-142 | for every on-screen column and row of a 20x4 display, the byte sent has bit 7 set and the rest is that position's DDRAM address; distinct positions give distinct bytes |
| Lcd.GotoXYDecodes | Code/main.c:138-142 | the byte for an on-screen position decodes as Set-DDRAM-address for that position |
| Lcd.Display.GotoXY | Code/main.c:138-142 | the controller receives one instruction, the address byte for column x of row y |
| Lcd.Text | Code/main.c:189-194 | the bytes for a string are one data byte per character, in order |
| Lcd.Display.Print | Code/main.c:189-194 | the loop sends each character up to the first NUL as data, and nothing else |
| Keypad.KeypadScan | Code/main.c:121-135 | returns NUL iff no key reads low; otherwise it returns the legend of the first low key in row-major order, which is one of the sixteen legends |
| Keypad.ScanDeterministic | Code/main.c:121-135 | the readings fix the result: two results that meet the scan's specification are equal |
| Keypad.ScanSinglePress | Code/main.c:121-135 | with exactly one key down, the scan returns that key's legend |
| Entry.Evaluate | Code/main.c:76-87 | a code is accepted only if it has exactly four characters |
| Entry.Gate | Code/main.c:86-96 | the full code sets PC0, the half code clears it, and a rejected code leaves PORTC unchanged; no other PORTC bit changes |
| Entry.BlankingCoversMessage | Code/main.c:78-102 | a submit's calls (`VerdictCalls`) print the verdict's `Message` at column 1 of row 2 and then sixteen blanks from the same place; the message has no NUL, so it is printed whole, and it is no longer than the blanks, so they erase it |
| Entry.Start | Code/main.c:53-56 | the loop starts with PC0 low, position 1, an all-NUL buffer and nothing entered |
| Entry.Step | Code/main.c:60-112 | a pass keeps the position in 1..5 and the buffer at five slots; only 'D' changes PORTC |
| Entry.Run | Code/main.c:59-115 | any run of scan results keeps the position in 1..5 and the buffer at five slots |
| Entry.EnteredIsPrefix | Code/main.c:55-56 | under the buffer invariant, the entered code is the slots before `position`, so its length is `position - 1` |
| Entry.StepKeepsInv | Code/main.c:60-112 | every key keeps the invariant: entered slots are not NUL, and every slot from `position` on is NUL |
| Entry.RunKeepsInv | Code/main.c:59-115 | any run of scan results keeps that invariant |
| Entry.AppendKey | Code/main.c:108-111 | a stored key goes into the next slot and is echoed at that column of row 2; the entered code grows by that key; 'A' is stored when nothing is entered |
| Entry.DropWhenFull | Code/main.c:108 | with four characters entered, an ordinary key changes nothing and writes nothing |
| Entry.Backspace | Code/main.c:62-67 | backspace drops the last entered character, blanks its column and puts the cursor back on it |
| Entry.ClearResets | Code/main.c:68-74 | clear empties the buffer, returns to column 1 and blanks four columns of row 2, from any state |
| Entry.Submit | Code/main.c:75-107 | submit compares the entered code, drives the gate by the verdict, shows the verdict's message and then blanks it, and empties the buffer |
| Entry.SubmitGate | Code/main.c:75-107 | on submit, "1234" sets PC0, "4321" clears it, and anything else leaves PORTC as it was; no other bit changes; a match needs four characters entered |
| Entry.RunAppend | Code/main.c:59-115 | running two runs one after the other is running their concatenation |
| Entry.RunEnters | Code/main.c:108-111 | ordinary keys that fit are entered in order and advance the position by their number |
| Entry.FullCodeOpens | Code/main.c:77-86 | from an empty entry, typing "1234" then 'D' sets PC0, changes no other PORTC bit and leaves an empty entry |
| Entry.HalfCodeCloses | Code/main.c:87-96 | from an empty entry, typing "4321" then 'D' clears PC0, changes no other PORTC bit and leaves an empty entry |
| Entry.WrongCodeKeepsGate | Code/main.c:97-104 | from an empty entry, typing "1111" then 'D' leaves PORTC unchanged |
| Entry.BackspaceThenSubmit | Code/main.c:62-107 | "12", backspace, submit submits "1", which is rejected, so PORTC is unchanged |
| Entry.ShowPrompt | Code/main.c:40-44 | the controller receives the initialisation instructions, then the address of row 1, column 1, then the prompt's characters |
| Entry.Panel.constructor | Code/main.c:40-56 | after start-up the variables hold `Start`, and the display has received the start-up bytes |
| Entry.Panel.ClearCode | Code/main.c:70-72 | every slot of the buffer is NUL |
| Entry.Panel.EraseLast | Code/main.c:62-67 | position decremented, that slot set to NUL, PORTC unchanged, and the display receives the three calls backspace makes |
| Entry.Panel.Overwrite | Code/main.c:65-67 | the display receives the cursor move, the character, and the same cursor move again |
| Entry.Panel.ClearAll | Code/main.c:68-74 | position 1, buffer all NUL, PORTC unchanged, and the display receives the blanking of row 2 |
| Entry.Panel.PrintFromStart | Code/main.c:73-74 | the display receives the move to column 1 of row 2, then the string |
| Entry.Panel.SubmitCode | Code/main.c:75-107 | the new state is `Start`-like with PORTC driven by the verdict on the entered code, and the display receives the verdict's calls |
| Entry.Panel.ShowVerdict | Code/main.c:78-82 | the display receives the verdict's message at row 2 and then sixteen blanks over it |
| Entry.Panel.ShowTwice | Code/main.c:98-102 | the display receives two strings in turn, each from column 1 of row 2 |
| Entry.Panel.DriveGate | Code/main.c:86 | PORTC becomes `Gate` of its old value and the verdict |
| Entry.Panel.Append | Code/main.c:108-111 | the key is stored in the slot at the position, the position advances, PORTC is unchanged, and the display receives the cursor move and the key |
| Entry.Panel.HandleKey | Code/main.c:60-112 | one pass of the loop in place: the new variables are `Step`'s next state, and the display receives exactly the bytes of `Step`'s driver calls |

## Left out

- Delays (`_delay_ms`, `_delay_us`) do not change any modelled state, so they are left out.
- Register direction setup is left out: `DDRD`, `DDRB`, `DDRC`, the row outputs and the column pull-ups. The keypad rows being driven is not modelled either; `KeypadScan` takes the PINB value read while each row is low.
- KeypadScan reads PINB once per row. The source re-reads it for every column; the model assumes the readings are stable during one row.
- Print reads the string as ordinary memory. `lcd_print` reads every string with `pgm_read_byte`, which addresses flash. The prompt is stored in flash (`PSTR`), but the loop's strings ("    ", "Code Accepted", "Incorrect Code", the sixteen blanks) live in RAM. What those calls actually send depends on the chip's flash contents at those addresses, so it is not modelled.
- The loop never ends; the model has `HandleKey` for one pass and `Run` for a finite run of scan results.
- `codeIndex` is declared and never used, so it is not modelled.
- `position` is a `uint8_t`, but it is modelled as a `nat` that is proved to stay in 1..5, so it never wraps.
- Byte: Dafny's `char` is wider than AVR's; the model keeps its low eight bits, which is what the 8-bit `char` holds for every character the firmware uses.
- The display's screen contents (DDRAM, cursor movement) are not modelled. What is modelled is the sequence of bytes the controller receives and what an instruction byte means (`Decode`).
- The decoder assumes the controller is already in 4-bit mode when the first nibble arrives. The power-on 8-bit state and the HD44780's reset-by-instruction sequence are not modelled.
- Lcd.Display.GotoXY: rows outside 1..4 are excluded by a precondition, because the source indexes past `firstCharAdr` for them.
