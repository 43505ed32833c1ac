/** The 4x4 matrix keypad on PORTB: rows on PB0-PB3 (outputs, strobed low one at a time),
    columns on PB4-PB7 (inputs with pull-ups, so a pressed key reads low). */
module Keypad {
  import opened CText

  /** The key legends in row-major order: row `r`, column `c` is `Keys[r * 4 + c]`. */
  const Keys: seq<char> := "123A456B789C*0#D"

  /** Whether bit `bit` of a PINB reading is low. */
  predicate Low(pin: bv8, bit: nat)
    requires bit < 8
  {
    pin & (1 << bit) == 0
  }

  /** Whether key `k` (0 to 15, row-major) reads as pressed: while its row is driven low,
      its column line, PINB bit `4 + k % 4`, reads low in that row's reading. */
  predicate Pressed(pins: seq<bv8>, k: nat)
    requires |pins| == 4 && k < 16
  {
    Low(pins[k / 4], 4 + k % 4)
  }

  /** What a scan must return for these readings: NUL exactly when no key reads as
      pressed, and otherwise the legend of the first pressed key in row-major order. */
  ghost predicate Scans(pins: seq<bv8>, key: char)
    requires |pins| == 4
  {
    (key == NUL <==> forall k :: 0 <= k < 16 ==> !Pressed(pins, k)) &&
    (key != NUL ==>
      exists k :: 0 <= k < 16 && Pressed(pins, k) && key == Keys[k] &&
        forall j :: 0 <= j < k ==> !Pressed(pins, j))
  }

  /** One call of `keypadScan`, given the PINB value read while each of the four rows was
      driven low. Rows are scanned in order and, within a row, columns PB4 to PB7; the
      first low column decides the key. With no column low on any row it returns NUL. */
  method KeypadScan(pins: seq<bv8>) returns (key: char)
    requires |pins| == 4
    ensures Scans(pins, key)
    ensures key == NUL || key in Keys
  {
    var row := 0;
    while row < 4
      invariant 0 <= row <= 4
      invariant forall j :: 0 <= j < row * 4 ==> !Pressed(pins, j)
    {
      var col := 4;
      while col < 8
        invariant 4 <= col <= 8
        invariant forall j :: 0 <= j < row * 4 + (col - 4) ==> !Pressed(pins, j)
      {
        KeyCodeSplits(row, col);
        if Low(pins[row], col) {
          var keyCode := row * 4 + (col - 4);
          FirstPressed(pins, keyCode);
          key := Keys[keyCode];
          return;
        }
        col := col + 1;
      }
      row := row + 1;
    }
    key := NUL;
  }

  /** Key `row * 4 + (col - 4)` is in row `row` and on column line `col`. */
  lemma KeyCodeSplits(row: nat, col: nat)
    requires row < 4 && 4 <= col < 8
    ensures (row * 4 + (col - 4)) / 4 == row && 4 + (row * 4 + (col - 4)) % 4 == col
  {
  }

  /** The first key in row-major order that reads as pressed decides the scan. */
  lemma FirstPressed(pins: seq<bv8>, k: nat)
    requires |pins| == 4 && k < 16 && Pressed(pins, k)
    requires forall j :: 0 <= j < k ==> !Pressed(pins, j)
    ensures Scans(pins, Keys[k]) && Keys[k] in Keys
  {
    assert Keys[k] != NUL;
  }

  /** The scan is determined by the readings: two results that both meet `Scans` agree. */
  lemma ScanDeterministic(pins: seq<bv8>, a: char, b: char)
    requires |pins| == 4 && Scans(pins, a) && Scans(pins, b)
    ensures a == b
  {
    if a != NUL {
      var i :| 0 <= i < 16 && Pressed(pins, i) && a == Keys[i] &&
        forall j :: 0 <= j < i ==> !Pressed(pins, j);
      var k :| 0 <= k < 16 && Pressed(pins, k) && b == Keys[k] &&
        forall j :: 0 <= j < k ==> !Pressed(pins, j);
    }
  }

  /** With exactly one key down, the scan returns that key's legend. */
  lemma ScanSinglePress(pins: seq<bv8>, k: nat, key: char)
    requires |pins| == 4 && k < 16 && Scans(pins, key)
    requires Pressed(pins, k) && forall j :: 0 <= j < 16 && j != k ==> !Pressed(pins, j)
    ensures key == Keys[k]
  {
    var i :| 0 <= i < 16 && Pressed(pins, i) && key == Keys[i] &&
      forall j :: 0 <= j < i ==> !Pressed(pins, j);
  }
}
