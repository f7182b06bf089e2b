/** The event objects a widget emits for browser mouse and key events: the
    modifier list, the pressed-buttons list decoded from the browser's bit
    mask, the button number remapped to 1 = left, 2 = right, 3 = middle,
    and the key name. */
module InputEvents {
  import opened Wrappers
  import Text

  /** The modifier flags of a browser mouse or key event. */
  datatype ModifierFlags = ModifierFlags(alt: bool, shift: bool, ctrl: bool, meta: bool)

  /** The modifier names in the order the event lists them. */
  const ModifierNames: seq<string> := ["Alt", "Shift", "Ctrl", "Meta"]

  /** Whether the modifier of a name is held down. */
  predicate Held(f: ModifierFlags, name: string)
  {
    (name == "Alt" && f.alt) || (name == "Shift" && f.shift)
    || (name == "Ctrl" && f.ctrl) || (name == "Meta" && f.meta)
  }

  /** The names, in their order, whose modifier is held down. */
  function HeldNames(names: seq<string>, f: ModifierFlags): (r: seq<string>)
    ensures |r| <= |names|
    ensures forall m :: m in r <==> m in names && Held(f, m)
  {
    if names == [] then []
    else (if Held(f, names[0]) then [names[0]] else []) + HeldNames(names[1..], f)
  }

  /** The `modifiers` list of a mouse or key event. */
  function Modifiers(f: ModifierFlags): (r: seq<string>)
  {
    HeldNames(ModifierNames, f)
  }

  /** The list names exactly the modifiers held down. */
  lemma ModifiersHeld(f: ModifierFlags)
    ensures "Alt" in Modifiers(f) <==> f.alt
    ensures "Shift" in Modifiers(f) <==> f.shift
    ensures "Ctrl" in Modifiers(f) <==> f.ctrl
    ensures "Meta" in Modifiers(f) <==> f.meta
    ensures forall m :: m in Modifiers(f) ==> m in ModifierNames
  {
  }

  /** Each modifier name is held exactly when its own flag is set. */
  lemma HeldByName(f: ModifierFlags)
    ensures Held(f, "Alt") == f.alt && Held(f, "Shift") == f.shift
    ensures Held(f, "Ctrl") == f.ctrl && Held(f, "Meta") == f.meta
  {
    assert "Alt"[0] != "Shift"[0] && "Alt"[0] != "Ctrl"[0] && "Alt"[0] != "Meta"[0];
    assert "Shift"[0] != "Ctrl"[0] && "Shift"[0] != "Meta"[0] && "Ctrl"[0] != "Meta"[0];
  }

  /** HeldNames of a list with a first name: that name if held, then the
      rest. */
  lemma HeldNamesCons(n: string, rest: seq<string>, f: ModifierFlags)
    ensures HeldNames([n] + rest, f) == (if Held(f, n) then [n] else []) + HeldNames(rest, f)
  {
    assert ([n] + rest)[1..] == rest;
  }

  /** The last three steps of ModifiersInOrder, one name at a time. */
  lemma HeldMeta(f: ModifierFlags)
    ensures HeldNames(["Meta"], f) == if f.meta then ["Meta"] else []
  {
    HeldByName(f);
    HeldNamesCons("Meta", [], f);
    assert ["Meta"] + [] == ["Meta"];
  }

  lemma HeldCtrl(f: ModifierFlags)
    ensures HeldNames(["Ctrl", "Meta"], f) == (if f.ctrl then ["Ctrl"] else []) + HeldNames(["Meta"], f)
  {
    HeldByName(f);
    HeldNamesCons("Ctrl", ["Meta"], f);
    assert ["Ctrl"] + ["Meta"] == ["Ctrl", "Meta"];
  }

  lemma HeldShift(f: ModifierFlags)
    ensures HeldNames(["Shift", "Ctrl", "Meta"], f)
      == (if f.shift then ["Shift"] else []) + HeldNames(["Ctrl", "Meta"], f)
  {
    HeldByName(f);
    HeldNamesCons("Shift", ["Ctrl", "Meta"], f);
    assert ["Shift"] + ["Ctrl", "Meta"] == ["Shift", "Ctrl", "Meta"];
  }

  lemma HeldAlt(f: ModifierFlags)
    ensures Modifiers(f) == (if f.alt then ["Alt"] else []) + HeldNames(["Shift", "Ctrl", "Meta"], f)
  {
    HeldByName(f);
    HeldNamesCons("Alt", ["Shift", "Ctrl", "Meta"], f);
    assert ["Alt"] + ["Shift", "Ctrl", "Meta"] == ModifierNames;
  }

  /** The list holds each held modifier once, in the order Alt, Shift, Ctrl,
      Meta. */
  lemma ModifiersInOrder(f: ModifierFlags)
    ensures Modifiers(f) ==
      (if f.alt then ["Alt"] else []) + ((if f.shift then ["Shift"] else []) +
      ((if f.ctrl then ["Ctrl"] else []) + (if f.meta then ["Meta"] else [])))
  {
    HeldMeta(f);
    HeldCtrl(f);
    HeldShift(f);
    HeldAlt(f);
  }

  // ---- buttons ----

  /** The binary digit of a bit. */
  function Digit(b: nat): char
    requires b < 2
  {
    if b == 1 then '1' else '0'
  }

  /** `n.toString(2)`: the binary numeral of `n`, most significant digit
      first, "0" for zero. */
  function Binary(n: nat): (r: string)
    ensures |r| >= 1
    ensures n >= 2 ==> |r| >= 2
  {
    if n < 2 then [Digit(n)] else Binary(n / 2) + [Digit(n % 2)]
  }

  /** The reverse of a string. */
  function Reverse(s: string): (r: string)
    ensures |r| == |s|
    ensures forall i :: 0 <= i < |s| ==> r[i] == s[|s| - 1 - i]
  {
    if s == [] then [] else Reverse(s[1..]) + [s[0]]
  }

  /** Bit `i` of `n`, counted from the least significant bit: the reference
      meaning of a button mask. */
  function Bit(n: nat, i: nat): bool
  {
    if i == 0 then n % 2 == 1 else Bit(n / 2, i - 1)
  }

  /** The buttons (1 to 5) whose entry in the mask, from index `i` on, is
      the character '1'. */
  function MaskButtons(mask: string, i: nat): (r: seq<nat>)
    requires i <= 5
    ensures forall k :: 0 <= k < |r| ==> i < r[k] <= 5
    ensures forall k, l :: 0 <= k < l < |r| ==> r[k] < r[l]
    ensures forall b :: b in r <==> i < b <= 5 && b - 1 < |mask| && mask[b - 1] == '1'
    decreases 5 - i
  {
    if i == 5 then []
    else (if i < |mask| && mask[i] == '1' then [i + 1] else []) + MaskButtons(mask, i + 1)
  }

  /** The `buttons` list of a mouse event. With a non-zero `buttons` mask
      the reversed binary numeral of the mask is read; otherwise the
      fallback reads a one-element list holding the numeral of `button`,
      whose first entry is the character '1' only for button 1. */
  function ButtonsPressed(buttons: nat, button: nat): (r: seq<nat>)
  {
    if buttons != 0 then MaskButtons(Reverse(Binary(buttons)), 0)
    else if Binary(button) == "1" then [1]
    else []
  }

  /** The binary numeral agrees with the bits: position `i` of the reversed
      numeral is '1' exactly when bit `i` is set, and bits past its end are
      clear. */
  lemma {:induction false} BinaryBits(n: nat, i: nat)
    ensures i < |Binary(n)| ==> (Reverse(Binary(n))[i] == '1' <==> Bit(n, i))
    ensures i >= |Binary(n)| ==> !Bit(n, i)
    decreases n
  {
    var s := Binary(n);
    if n < 2 {
      if i > 0 {
        ZeroBits(n / 2, i - 1);
      }
    } else {
      var hi := Binary(n / 2);
      assert s == hi + [Digit(n % 2)];
      if i == 0 {
        assert Reverse(s)[0] == s[|s| - 1];
      } else {
        BinaryBits(n / 2, i - 1);
        if i < |s| {
          assert Reverse(s)[i] == s[|s| - 1 - i] == hi[|hi| - 1 - (i - 1)];
          assert Reverse(hi)[i - 1] == hi[|hi| - 1 - (i - 1)];
        }
      }
    }
  }

  /** Every bit of zero is clear. */
  lemma {:induction false} ZeroBits(n: nat, i: nat)
    requires n == 0
    ensures !Bit(n, i)
  {
    if i > 0 {
      ZeroBits(n / 2, i - 1);
    }
  }

  /** With a non-zero mask, button `b` is reported exactly when `b` is
      between 1 and 5 and bit `b - 1` of the mask is set. */
  lemma ButtonsFromMask(buttons: nat, button: nat)
    requires buttons != 0
    ensures forall b :: b in ButtonsPressed(buttons, button) <==> 1 <= b <= 5 && Bit(buttons, b - 1)
  {
    var mask := Reverse(Binary(buttons));
    assert ButtonsPressed(buttons, button) == MaskButtons(mask, 0);
    forall i: nat | i < 5
      ensures i < |mask| && mask[i] == '1' <==> Bit(buttons, i)
    {
      BinaryBits(buttons, i);
    }
  }

  /** The numeral of a number is "1" only for the number one. */
  lemma BinaryIsOne(n: nat)
    ensures Binary(n) == "1" <==> n == 1
  {
    if n == 0 {
      assert Binary(n)[0] == '0';
    }
  }

  /** Without a mask, the fallback reports button 1 exactly when the
      browser's `button` is 1, and nothing otherwise. */
  lemma ButtonsFallback(button: nat)
    ensures ButtonsPressed(0, button) == if button == 1 then [1] else []
  {
    BinaryIsOne(button);
  }

  /** What the `buttons` list reports, with and without a mask. */
  lemma ButtonsMeaning(buttons: nat, button: nat)
    ensures buttons != 0 ==> forall b :: b in ButtonsPressed(buttons, button) <==> 1 <= b <= 5 && Bit(buttons, b - 1)
    ensures buttons == 0 ==> ButtonsPressed(buttons, button) == if button == 1 then [1] else []
  {
    if buttons != 0 {
      ButtonsFromMask(buttons, button);
    } else {
      ButtonsFallback(button);
    }
  }

  /** Behaviour as written, on browsers without `buttons`: the fallback
      reads the browser's numbering (1 = middle) where the event uses its
      own (1 = left), so a middle-button event (browser `button` 1,
      remapped to button 3) lists button 1, the left button, as pressed.
      The fallback serves one old WebKit build only. */
  lemma MiddleButtonReportsLeft()
    ensures ButtonRemap(1) == Some(3)
    ensures ButtonsPressed(0, 1) == [1]
  {
    ButtonsFallback(1);
  }

  /** The browser's button number (0 left, 1 middle, 2 right, 3 back,
      4 forward) remapped to 1 left, 2 right, 3 middle, 4, 5; any other
      number has no entry (undefined). */
  function ButtonRemap(button: int): (r: Option<nat>)
    ensures r.Some? <==> 0 <= button <= 4
    ensures r.Some? ==> 1 <= r.value <= 5
  {
    if button == 0 then Some(1)
    else if button == 1 then Some(3)
    else if button == 2 then Some(2)
    else if button == 3 then Some(4)
    else if button == 4 then Some(5)
    else None
  }

  /** The browser's number of each button 1 to 5: the inverse of the
      remapping. */
  function BrowserButton(k: int): (a: int)
    requires 1 <= k <= 5
    ensures 0 <= a <= 4
  {
    if k == 1 then 0 else if k == 2 then 2 else if k == 3 then 1 else k - 1
  }

  /** The remapping is a one-to-one correspondence between the five browser
      buttons and the buttons 1 to 5. */
  lemma ButtonRemapRoundTrip()
    ensures forall k :: 1 <= k <= 5 ==> ButtonRemap(BrowserButton(k)) == Some(k)
    ensures forall a :: 0 <= a <= 4 ==> BrowserButton(ButtonRemap(a).value) == a
  {
  }

  // ---- mouse events ----

  /** The fields of a browser mouse event the button decoding reads. */
  datatype MouseInput = MouseInput(button: nat, buttons: nat, flags: ModifierFlags)

  /** The button fields of a mouse event as emitted: `button` is absent
      (undefined) for a browser button number without an entry. */
  datatype MouseEvent = MouseEvent(button: Option<nat>, buttons: seq<nat>, modifiers: seq<string>)

  /** The button and modifier fields of the event `mouse_down` and
      `mouse_up` emit. */
  function CreateMouseEvent(e: MouseInput): (r: MouseEvent)
    ensures r.button == ButtonRemap(e.button)
    ensures e.buttons != 0 ==> forall b :: b in r.buttons <==> 1 <= b <= 5 && Bit(e.buttons, b - 1)
    ensures e.buttons == 0 ==> r.buttons == if e.button == 1 then [1] else []
    ensures r.modifiers == Modifiers(e.flags)
  {
    ButtonsMeaning(e.buttons, e.button);
    MouseEvent(ButtonRemap(e.button), ButtonsPressed(e.buttons, e.button), Modifiers(e.flags))
  }

  // ---- key events ----

  /** The fields of a browser key event the widget reads. */
  datatype KeyInput = KeyInput(key: string, code: string, flags: ModifierFlags)

  /** A key event as emitted. */
  datatype KeyEvent = KeyEvent(key: string, modifiers: seq<string>)

  /** The key names of older browsers mapped to the standard ones. */
  function Alias(key: string): (r: string)
    ensures r != "Esc" && r != "Del"
    ensures key != "Esc" && key != "Del" ==> r == key
  {
    if key == "Esc" then "Escape" else if key == "Del" then "Delete" else key
  }

  /** The key name of a key event: the event's `key`; for a browser that
      leaves it empty, the key derived from `code` (`KeyA` is "a", or "A"
      while Shift is held; `Digit1` is "1"); then the older names
      replaced by the standard ones. */
  function KeyName(e: KeyInput): (r: string)
    ensures e.key != "" ==> r == Alias(e.key)
    ensures e.key == "" && e.code == "" ==> r == ""
    ensures e.key == "" && "Key" <= e.code ==>
      r == Alias(if e.flags.shift then e.code[3..] else Text.Lower(e.code[3..]))
    ensures e.key == "" && !("Key" <= e.code) && "Digit" <= e.code ==> r == Alias(e.code[5..])
    ensures e.key == "" && e.code != "" && !("Key" <= e.code) && !("Digit" <= e.code) ==> r == Alias(e.code)
    ensures r != "Esc" && r != "Del"
  {
    ModifiersHeld(e.flags);
    var mods := Modifiers(e.flags);
    var key :=
      if e.key == "" && e.code != "" then
        if "Key" <= e.code then
          (if "Shift" !in mods then Text.Lower(e.code[3..]) else e.code[3..])
        else if "Digit" <= e.code then e.code[5..]
        else e.code
      else e.key;
    Alias(key)
  }

  /** The key events `key_down`, `key_up` and `key_press`. */
  function CreateKeyEvent(e: KeyInput): (r: KeyEvent)
    ensures r.key == KeyName(e) && r.modifiers == Modifiers(e.flags)
  {
    KeyEvent(KeyName(e), Modifiers(e.flags))
  }

  /** A letter code read in place of a missing key gives the letter in
      lower case, or as is while Shift is held. */
  lemma LetterCode(c: char, flags: ModifierFlags)
    requires 'A' <= c <= 'Z'
    ensures KeyName(KeyInput("", "Key" + [c], flags)) == if flags.shift then [c] else [(c as int + 32) as char]
  {
    var code := "Key" + [c];
    assert "Key" <= code && code[3..] == [c];
    assert Text.Lower([c])[0] == (c as int + 32) as char;
  }

  /** A digit code read in place of a missing key gives the digit. */
  lemma DigitCode(d: char, flags: ModifierFlags)
    requires '0' <= d <= '9'
    ensures KeyName(KeyInput("", "Digit" + [d], flags)) == [d]
  {
    var code := "Digit" + [d];
    assert !("Key" <= code) by {
      assert code[0] == 'D';
    }
    assert "Digit" <= code && code[5..] == [d];
  }
}
