/** The decoy calculator shown in shadow mode. Its only state is the text
    on the display; a key press clears, replaces or extends that text, and a
    hidden code typed on it calls the unlock callback. No arithmetic is
    ever done: operator keys are just more text. */
module Calculator {

  /** The sixteen buttons, in the order the keypad lays them out. */
  const Keypad: seq<string> :=
    ["7", "8", "9", "/", "4", "5", "6", "*", "1", "2", "3", "-", "C", "0", "=", "+"]

  const UnlockCode: string := "7701"

  /** The four presses that spell the code. */
  const CodeKeys: seq<string> := ["7", "7", "0", "1"]

  /** The display after pressing `key` on display `d`. */
  function Next(d: string, key: string): string {
    if key == "C" then "0"
    else if d == "0" then key
    else d + key
  }

  /** The unlock check, made on the display as it was before the press. */
  predicate Unlocks(d: string, key: string) {
    d + key == UnlockCode
  }

  /** Each keypad button is one character long. */
  lemma KeypadKeysAreSingle(key: string)
    requires key in Keypad
    ensures |key| == 1
  {
  }

  /** 'C' always shows "0" and never unlocks. */
  lemma ClearResets(d: string)
    ensures Next(d, "C") == "0"
    ensures !Unlocks(d, "C")
  {
    assert (d + "C")[|d + "C"| - 1] == 'C';
  }

  /** With a one-character key, the check passes exactly when the display
      shows "770" and the key is '1'. */
  lemma UnlockNeeds(d: string, key: string)
    requires |key| == 1
    ensures Unlocks(d, key) <==> d == "770" && key == "1"
  {
    if Unlocks(d, key) {
      assert |d| == 3;
      assert d == (d + key)[..3];
      assert key == (d + key)[3..];
    }
  }

  /** For a one-character key, checking the display before the press
      against the code is the same as checking the display after it: the
      whole display takes part, so text already shown stays in front of
      the code. */
  lemma UnlockIsDisplayAfter(d: string, key: string)
    requires |key| == 1
    ensures Unlocks(d, key) <==> Next(d, key) == UnlockCode
  {
    UnlockNeeds(d, key);
  }

  /** So for a keypad key, only '1' on a display of "770" unlocks. */
  lemma UnlockExactly(d: string, key: string)
    requires key in Keypad
    ensures Unlocks(d, key) <==> d == "770" && key == "1"
  {
    KeypadKeysAreSingle(key);
    UnlockNeeds(d, key);
  }

  /** A non-empty display stays non-empty under any keypad key. */
  lemma DisplayNeverEmpty(d: string, key: string)
    requires d != "" && key in Keypad
    ensures Next(d, key) != ""
  {
    KeypadKeysAreSingle(key);
  }

  /** The display and the unlock calls produced by a run of presses. */
  datatype Trace = Trace(display: string, unlocks: seq<bool>)

  /** Presses `keys` in order, starting from display `d`: the final display
      and, for each press, whether it fired the unlock callback. */
  function Run(d: string, keys: seq<string>): (t: Trace)
    ensures |t.unlocks| == |keys|
    decreases |keys|
  {
    if keys == [] then Trace(d, [])
    else
      var rest := Run(Next(d, keys[0]), keys[1..]);
      Trace(rest.display, [Unlocks(d, keys[0])] + rest.unlocks)
  }

  predicate FromKeypad(keys: seq<string>) {
    forall k :: 0 <= k < |keys| ==> keys[k] in Keypad
  }

  /** Starting from a non-empty display, no run of keypad presses ever
      leaves the display empty. */
  lemma {:induction false} RunNeverEmpty(d: string, keys: seq<string>)
    requires d != "" && FromKeypad(keys)
    ensures Run(d, keys).display != ""
    decreases |keys|
  {
    if keys != [] {
      DisplayNeverEmpty(d, keys[0]);
      RunNeverEmpty(Next(d, keys[0]), keys[1..]);
    }
  }

  /** From the initial display, typing the code unlocks once, on the last
      press. */
  lemma SecretFromInitial()
    ensures Run("0", CodeKeys).unlocks == [false, false, false, true]
  {
    assert Next("0", "7") == "7";
    assert Next("7", "7") == "77";
    assert Next("77", "0") == "770";
    assert Unlocks("770", "1");
  }

  /** Whatever the display shows, 'C' followed by the code unlocks once, on
      the last press. */
  lemma SecretAfterClear(d: string)
    ensures Run(d, ["C"] + CodeKeys).unlocks == [false, false, false, false, true]
  {
    ClearResets(d);
    assert (["C"] + CodeKeys)[1..] == CodeKeys;
    SecretFromInitial();
  }

  /** If the display already shows other text, typing the code does not
      unlock: the check sees that text in front of the code. */
  lemma SecretBlockedByText(d: string)
    requires d != "" && d != "0"
    ensures forall k :: 0 <= k < 4 ==> !Run(d, CodeKeys).unlocks[k]
  {
    var d1 := d + "7";
    var d2 := d1 + "7";
    var d3 := d2 + "0";
    assert !Unlocks(d3, "1") by {
      UnlockNeeds(d3, "1");
      assert |d3| >= 4;
    }
    StepOnText(d, "7");
    StepOnText(d1, "7");
    StepOnText(d2, "0");
    assert CodeKeys[1..] == ["7", "0", "1"] && CodeKeys[2..] == ["0", "1"] && CodeKeys[3..] == ["1"];
    assert Run(d3, ["1"]).unlocks == [false];
    assert Run(d2, ["0", "1"]).unlocks == [false, false];
    assert Run(d1, ["7", "0", "1"]).unlocks == [false, false, false];
  }

  /** On a display that is not "0", a digit other than '1' is appended and
      does not unlock. */
  lemma StepOnText(d: string, key: string)
    requires d != "" && d != "0" && (key == "7" || key == "0")
    ensures Next(d, key) == d + key && !Unlocks(d, key)
  {
    UnlockNeeds(d, key);
  }

  /** The text of a run of keys, one after another. */
  function Concat(keys: seq<string>): string {
    if keys == [] then "" else keys[0] + Concat(keys[1..])
  }

  /** Keys that are typed as text: not empty and not 'C'. */
  predicate TextKeys(keys: seq<string>) {
    forall k :: 0 <= k < |keys| ==> keys[k] != "" && keys[k] != "C"
  }

  /** No arithmetic: without 'C', a display that is not "0" just shows the
      keys typed after it, operators included, as text. (Every keypad key
      other than 'C' is a text key.) */
  lemma {:induction false} KeysShownAsText(d: string, keys: seq<string>)
    requires d != "" && d != "0" && TextKeys(keys)
    ensures Run(d, keys).display == d + Concat(keys)
    decreases |keys|
  {
    if keys != [] {
      var d' := AppendStep(d, keys);
      KeysShownAsText(d', keys[1..]);
      assert d' + Concat(keys[1..]) == d + (keys[0] + Concat(keys[1..]));
    }
  }

  /** One text key on a display that is not "0": it is appended, the
      display stays neither empty nor "0", and the rest are text keys. */
  lemma AppendStep(d: string, keys: seq<string>) returns (d': string)
    requires d != "" && d != "0" && TextKeys(keys) && keys != []
    ensures d' == Next(d, keys[0]) == d + keys[0]
    ensures d' != "" && d' != "0" && TextKeys(keys[1..])
    ensures Run(d, keys).display == Run(d', keys[1..]).display
  {
    d' := d + keys[0];
    assert keys[0] != "C";
    assert |d'| >= 2;
    assert forall k :: 0 <= k < |keys| - 1 ==> keys[1..][k] == keys[k + 1];
  }

  /** The calculator screen: one display field, "0" at first. */
  class Calculator {
    var display: string

    constructor ()
      ensures display == "0"
    {
      display := "0";
    }

    /** A button press: 'C' resets, a "0" display is replaced, anything
        else is appended; returns whether the unlock callback fired, which
        is decided on the display as it was before the press. */
    method Press(key: string) returns (unlocked: bool)
      modifies this
      ensures key == "C" ==> display == "0"
      ensures key != "C" && old(display) == "0" ==> display == key
      ensures key != "C" && old(display) != "0" ==> display == old(display) + key
      ensures unlocked <==> old(display) + key == UnlockCode
      ensures display == Next(old(display), key) && unlocked == Unlocks(old(display), key)
    {
      var before := display;
      if key == "C" {
        display := "0";
      } else if display == "0" {
        display := key;
      } else {
        display := display + key;
      }
      unlocked := before + key == UnlockCode;
    }
  }

  /** A caller's view: typing the code on a fresh calculator unlocks on the
      fourth press and not before. */
  method TypeCodeOnFreshCalculator() returns (fired: seq<bool>)
    ensures fired == [false, false, false, true]
  {
    var c := new Calculator();
    var a := c.Press("7");
    var b := c.Press("7");
    var z := c.Press("0");
    var u := c.Press("1");
    fired := [a, b, z, u];
  }
}
