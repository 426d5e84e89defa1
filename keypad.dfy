/** The PIN keypad: a buffer of at most four digits, a delete key, and a check that runs
    whenever the PIN changes and either signals unlock or flags an error and clears the PIN.
    The DOORNA keypad waits 200 ms before signalling and 400 ms before clearing; here the check
    takes effect at once. */
module Keypad {

  const PinLength: nat := 4
  const Passcode: string := "0000"
  /** The key layout, row by row; "" is an empty slot and "del" the delete key. */
  const Keys: seq<string> := ["1", "2", "3", "4", "5", "6", "7", "8", "9", "", "0", "del"]

  datatype Pad = Pad(pin: string, error: bool)

  /** A pad and whether unlock was signalled on the way to it. */
  datatype PadStep = PadStep(pad: Pad, unlock: bool)

  predicate IsDigit(c: char) { '0' <= c <= '9' }

  predicate AllDigits(s: string) {
    forall i :: 0 <= i < |s| ==> IsDigit(s[i])
  }

  /** What every reachable pad satisfies: at most four digits, and four only when they are the
      passcode (a wrong four-digit PIN is cleared at once). */
  predicate Valid(p: Pad) {
    |p.pin| <= PinLength && AllDigits(p.pin) && (|p.pin| == PinLength ==> p.pin == Passcode)
  }

  /** The check that runs after the PIN changes. */
  function Check(p: Pad): (r: PadStep)
    ensures |p.pin| == PinLength && p.pin == Passcode ==> r == PadStep(p, true)
    ensures |p.pin| == PinLength && p.pin != Passcode ==> r == PadStep(Pad("", true), false)
    ensures |p.pin| != PinLength ==> r == PadStep(p, false)
  {
    if |p.pin| == PinLength then
      if p.pin == Passcode then PadStep(p, true) else PadStep(Pad("", true), false)
    else PadStep(p, false)
  }

  /** handlePress: a key is appended, and the error cleared, only while the PIN is shorter
      than four; then the check runs. A press on a full PIN changes nothing. */
  function Press(p: Pad, num: string): (r: PadStep)
    ensures |p.pin| >= PinLength ==> r == PadStep(p, false)
    ensures r.unlock <==> |p.pin| < PinLength && p.pin + num == Passcode
    ensures r.unlock ==> r.pad == Pad(Passcode, false)
    ensures |p.pin| < PinLength && |p.pin + num| != PinLength ==> r == PadStep(Pad(p.pin + num, false), false)
    ensures |p.pin| < PinLength && |p.pin + num| == PinLength && p.pin + num != Passcode ==>
              r == PadStep(Pad("", true), false)
  {
    if |p.pin| < PinLength then Check(Pad(p.pin + num, false)) else PadStep(p, false)
  }

  /** All but the last character; the empty string stays empty. */
  function DropLast(s: string): (r: string)
    ensures s == [] ==> r == []
    ensures s != [] ==> r + [s[|s| - 1]] == s
  {
    if s == [] then [] else s[..|s| - 1]
  }

  /** handleDelete: drop the last digit and clear the error. */
  function Delete(p: Pad): (r: PadStep)
    ensures |DropLast(p.pin)| != PinLength ==> r == PadStep(Pad(DropLast(p.pin), false), false)
    ensures Valid(p) ==> r == PadStep(Pad(DropLast(p.pin), false), false)
  {
    Check(Pad(DropLast(p.pin), false))
  }

  /** A tap on one of the layout's slots. */
  function Tap(p: Pad, key: string): PadStep {
    if key == "" then PadStep(p, false)
    else if key == "del" then Delete(p)
    else Press(p, key)
  }

  /** Every slot of the layout is a single digit, the empty slot or the delete key, and every
      digit from 0 to 9 has its key. */
  lemma LayoutKeys()
    ensures forall k :: k in Keys ==> k == "" || k == "del" || (|k| == 1 && IsDigit(k[0]))
    ensures forall c :: IsDigit(c) ==> [c] in Keys
  {
    forall c | IsDigit(c) ensures [c] in Keys {
      var i := if c == '0' then 10 else (c as int) - ('1' as int);
      assert Keys[i] == [c];
    }
  }

  /** Pressing a digit keeps the pad valid: the PIN grows by that digit while shorter than four,
      and a four-digit PIN other than the passcode is cleared. */
  lemma PressDigitKeepsValid(p: Pad, d: string)
    requires Valid(p) && |d| == 1 && IsDigit(d[0])
    ensures Valid(Press(p, d).pad)
  {
    if |p.pin| < PinLength {
      var q := p.pin + d;
      assert AllDigits(q) by {
        forall i | 0 <= i < |q| ensures IsDigit(q[i]) {
          if i >= |p.pin| {
            assert q[i] == d[0];
          } else {
            assert q[i] == p.pin[i];
          }
        }
      }
    }
  }

  /** Deleting keeps the pad valid. */
  lemma DeleteKeepsValid(p: Pad)
    requires Valid(p)
    ensures Valid(Delete(p).pad)
  {
    if p.pin != [] {
      var q := DropLast(p.pin);
      assert q == p.pin[..|p.pin| - 1];
      assert forall i :: 0 <= i < |q| ==> q[i] == p.pin[i];
    }
  }

  /** Tapping any slot of the layout keeps the pad valid: the PIN never grows past four digits. */
  lemma TapKeepsValid(p: Pad, key: string)
    requires Valid(p) && key in Keys
    ensures Valid(Tap(p, key).pad)
  {
    LayoutKeys();
    if key == "del" {
      DeleteKeepsValid(p);
    } else if key != "" {
      PressDigitKeepsValid(p, key);
    }
  }

  /** The pad after a sequence of taps, and whether unlock was signalled along the way. */
  function TapAll(p: Pad, keys: seq<string>): PadStep
    decreases |keys|
  {
    if keys == [] then PadStep(p, false)
    else
      var first := Tap(p, keys[0]);
      var rest := TapAll(first.pad, keys[1..]);
      PadStep(rest.pad, first.unlock || rest.unlock)
  }

  /** However the keys are tapped, the pad stays valid. */
  lemma {:induction false} TapAllKeepsValid(p: Pad, keys: seq<string>)
    requires Valid(p)
    requires forall i :: 0 <= i < |keys| ==> keys[i] in Keys
    ensures Valid(TapAll(p, keys).pad)
    decreases |keys|
  {
    if keys != [] {
      TapKeepsValid(p, keys[0]);
      TapAllKeepsValid(Tap(p, keys[0]).pad, keys[1..]);
    }
  }

  /** Entering 0 0 0 0 on a fresh keypad signals unlock; 1 2 3 4 flags the error and leaves an
      empty PIN. */
  lemma PinEntryExamples()
    ensures TapAll(Pad("", false), ["0", "0", "0", "0"]).unlock
    ensures TapAll(Pad("", false), ["1", "2", "3", "4"]) == PadStep(Pad("", true), false)
  {
    assert Tap(Pad("", false), "0") == PadStep(Pad("0", false), false);
    assert Tap(Pad("0", false), "0") == PadStep(Pad("00", false), false);
    assert Tap(Pad("00", false), "0") == PadStep(Pad("000", false), false);
    assert Tap(Pad("000", false), "0").unlock;
    assert Tap(Pad("", false), "1") == PadStep(Pad("1", false), false);
    assert Tap(Pad("1", false), "2") == PadStep(Pad("12", false), false);
    assert Tap(Pad("12", false), "3") == PadStep(Pad("123", false), false);
    assert ("123" + "4")[0] != Passcode[0];
    assert Tap(Pad("123", false), "4") == PadStep(Pad("", true), false);
  }

  /** The keypad component's state: the PIN and the error flag. */
  class Keypad {
    var pin: string
    var error: bool

    function Snapshot(): Pad
      reads this
    {
      Pad(pin, error)
    }

    constructor ()
      ensures Snapshot() == Pad("", false)
    {
      pin, error := "", false;
    }

    /** The effect on the PIN, run after every change of it. */
    method CheckPin() returns (unlock: bool)
      modifies this
      ensures PadStep(Snapshot(), unlock) == Check(old(Snapshot()))
    {
      unlock := false;
      if |pin| == PinLength {
        if pin == Passcode {
          unlock := true;
        } else {
          error := true;
          pin := "";
        }
      }
    }

    method HandlePress(num: string) returns (unlock: bool)
      modifies this
      ensures PadStep(Snapshot(), unlock) == Press(old(Snapshot()), num)
    {
      unlock := false;
      if |pin| < PinLength {
        pin := pin + num;
        error := false;
        unlock := CheckPin();
      }
    }

    method HandleDelete() returns (unlock: bool)
      modifies this
      ensures PadStep(Snapshot(), unlock) == Delete(old(Snapshot()))
    {
      pin := DropLast(pin);
      error := false;
      unlock := CheckPin();
    }

    /** A tap on a slot of the layout: the empty slot has no handler. */
    method HandleTap(key: string) returns (unlock: bool)
      modifies this
      ensures PadStep(Snapshot(), unlock) == Tap(old(Snapshot()), key)
    {
      unlock := false;
      if key == "del" {
        unlock := HandleDelete();
      } else if key != "" {
        unlock := HandlePress(key);
      }
    }
  }
}
