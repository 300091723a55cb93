/**
 * The hotkey recogniser: which key a configured hotkey string stands for,
 * whether a key event triggers it given the held modifiers, and how key
 * presses and releases update the three modifier flags.
 */
module Hotkey {
  import opened Wrappers

  /** Function keys the keyboard library names `f1` .. `f20`. */
  const MaxFunctionKey: nat := 20

  /** The key of one keyboard event. */
  datatype Key =
    | Function(n: nat)   // the special key `fN`
    | Ctrl | CtrlL | CtrlR
    | Shift | ShiftL | ShiftR
    | Alt | AltL | AltR | AltGr
    | Char(c: char)      // a key code that carries a character
    | Other              // any other special key, or a key code without a character

  predicate IsDigit(c: char) {
    '0' <= c <= '9'
  }

  /** Python's `str.isdigit` restricted to ASCII digits: true for a non-empty string of digits. */
  predicate AllDigits(s: string) {
    |s| > 0 && forall i :: 0 <= i < |s| ==> IsDigit(s[i])
  }

  /** The number a string of decimal digits denotes. */
  function DigitsValue(s: string): nat
    requires forall i :: 0 <= i < |s| ==> IsDigit(s[i])
  {
    if s == [] then 0
    else
      var d := s[|s| - 1];
      assert IsDigit(d);
      DigitsValue(s[..|s| - 1]) * 10 + (d as int - '0' as int)
  }

  /** The canonical decimal spelling of `n`, without leading zeros. */
  function Decimal(n: nat): (s: string)
    ensures |s| > 0 && forall i :: 0 <= i < |s| ==> IsDigit(s[i])
  {
    if n < 10 then [(n + '0' as int) as char]
    else Decimal(n / 10) + [(n % 10 + '0' as int) as char]
  }

  /**
   * The number of the function key named `"f" + digits`, or None when the
   * keyboard library has no key of that name.
   */
  function FunctionKeyNumber(digits: string): (r: Option<nat>)
    requires AllDigits(digits)
    ensures r.Some? ==> 1 <= r.value <= MaxFunctionKey
  {
    var n := DigitsValue(digits);
    if digits[0] != '0' && 1 <= n <= MaxFunctionKey then Some(n) else None
  }

  lemma {:induction false} DigitsValueOfDecimal(n: nat)
    ensures DigitsValue(Decimal(n)) == n
  {
    if n >= 10 {
      var s := Decimal(n);
      assert s[..|s| - 1] == Decimal(n / 10);
      DigitsValueOfDecimal(n / 10);
    }
  }

  /** A digit string without leading zero is the decimal spelling of its value. */
  lemma {:induction false} DecimalOfDigitsValue(s: string)
    requires AllDigits(s) && s[0] != '0'
    ensures Decimal(DigitsValue(s)) == s
  {
    var init := s[..|s| - 1];
    if init == [] {
      assert s == [s[0]];
    } else {
      assert AllDigits(init) && init[0] != '0';
      DecimalOfDigitsValue(init);
      LeadingDigitPositive(init);
      assert s == init + [s[|s| - 1]];
    }
  }

  lemma {:induction false} LeadingDigitPositive(s: string)
    requires AllDigits(s) && s[0] != '0'
    ensures DigitsValue(s) >= 1
  {
    if |s| > 1 {
      var init := s[..|s| - 1];
      assert init[0] == s[0];
      LeadingDigitPositive(init);
    }
  }

  lemma {:induction false} DecimalHasNoLeadingZero(n: nat)
    requires n >= 1
    ensures Decimal(n)[0] != '0'
  {
    if n >= 10 {
      DecimalHasNoLeadingZero(n / 10);
    }
  }

  /**
   * The keyboard library has a function key named `"f" + digits` exactly when
   * `digits` is the decimal spelling of a number from 1 to MaxFunctionKey.
   */
  lemma FunctionKeyNumberIsDecimal(digits: string)
    requires AllDigits(digits)
    ensures forall n: nat :: FunctionKeyNumber(digits) == Some(n) <==> 1 <= n <= MaxFunctionKey && digits == Decimal(n)
  {
    forall n: nat
      ensures FunctionKeyNumber(digits) == Some(n) <==> 1 <= n <= MaxFunctionKey && digits == Decimal(n)
    {
      if FunctionKeyNumber(digits) == Some(n) {
        DecimalOfDigitsValue(digits);
      }
      if 1 <= n <= MaxFunctionKey && digits == Decimal(n) {
        DigitsValueOfDecimal(n);
        DecimalHasNoLeadingZero(n);
      }
    }
  }

  /** A hotkey string of the form `"F<digits>"`. */
  predicate IsFunctionHotkey(hotkey: string) {
    |hotkey| >= 1 && hotkey[0] == 'F' && AllDigits(hotkey[1..])
  }

  /** The key a function hotkey names; a name the library lacks falls back to F8. */
  function FunctionHotkeyKey(hotkey: string): (k: Key)
    requires IsFunctionHotkey(hotkey)
    ensures k.Function? && 1 <= k.n <= MaxFunctionKey
  {
    match FunctionKeyNumber(hotkey[1..])
    case Some(n) => Function(n)
    case None => Function(8)
  }

  /** The main key of a hotkey string; the modifiers of a combination are tracked apart. */
  function HotkeyKey(hotkey: string): (k: Key)
    ensures k.Function? || k in {Char('r'), Char('d'), Char('v')}
    ensures hotkey == "Ctrl+Shift+R" ==> k == Char('r')
    ensures hotkey == "Ctrl+Shift+D" ==> k == Char('d')
    ensures hotkey == "Ctrl+Alt+V" ==> k == Char('v')
    ensures !IsFunctionHotkey(hotkey) && !IsCombo(hotkey) ==> k == Function(8)
  {
    if IsFunctionHotkey(hotkey) then FunctionHotkeyKey(hotkey)
    else if hotkey == "Ctrl+Shift+R" then Char('r')
    else if hotkey == "Ctrl+Shift+D" then Char('d')
    else if hotkey == "Ctrl+Alt+V" then Char('v')
    else Function(8)
  }

  /** The held state of the three tracked modifiers. */
  datatype Modifiers = Modifiers(ctrl: bool, shift: bool, alt: bool)

  const NoModifiers := Modifiers(false, false, false)

  predicate IsCombo(hotkey: string) {
    hotkey == "Ctrl+Shift+R" || hotkey == "Ctrl+Shift+D" || hotkey == "Ctrl+Alt+V"
  }

  /** Whether the event `key`, with modifiers `mods` held, triggers `hotkey`. */
  function IsHotkeyPressed(hotkey: string, mods: Modifiers, key: Key): (r: bool)
    // a trigger is always the main key the hotkey names
    ensures r ==> key == HotkeyKey(hotkey)
    // a function key matches exactly, whatever is held
    ensures IsFunctionHotkey(hotkey) ==> (r <==> key == HotkeyKey(hotkey))
    // a combination also needs its two modifiers held
    ensures IsCombo(hotkey) ==> (r <==> key == HotkeyKey(hotkey) && mods.ctrl &&
                                        if hotkey == "Ctrl+Alt+V" then mods.alt else mods.shift)
    // any other string never triggers
    ensures !IsFunctionHotkey(hotkey) && !IsCombo(hotkey) ==> !r
  {
    if IsFunctionHotkey(hotkey) then key == FunctionHotkeyKey(hotkey)
    else if hotkey == "Ctrl+Shift+R" then mods.ctrl && mods.shift && key.Char? && key.c == 'r'
    else if hotkey == "Ctrl+Shift+D" then mods.ctrl && mods.shift && key.Char? && key.c == 'd'
    else if hotkey == "Ctrl+Alt+V" then mods.ctrl && mods.alt && key.Char? && key.c == 'v'
    else false
  }

  /** The hotkey `"F" + n` for a function key the library names triggers on that key and no other. */
  lemma FunctionHotkeyMatchesExactly(n: nat, mods: Modifiers, key: Key)
    requires 1 <= n <= MaxFunctionKey
    ensures IsHotkeyPressed("F" + Decimal(n), mods, key) <==> key == Function(n)
  {
    var h := "F" + Decimal(n);
    assert h[1..] == Decimal(n);
    FunctionKeyNumberIsDecimal(Decimal(n));
  }

  /** With the hotkey set to F9, F9 triggers and F8 does not. */
  lemma F9TriggersAndF8DoesNot(mods: Modifiers)
    ensures IsHotkeyPressed("F9", mods, Function(9))
    ensures !IsHotkeyPressed("F9", mods, Function(8))
  {
  }

  /** A function hotkey whose name the library lacks, such as "F0" or "F21", triggers on F8. */
  lemma UnknownFunctionHotkeyFallsBackToF8(hotkey: string, mods: Modifiers, key: Key)
    requires IsFunctionHotkey(hotkey)
    requires forall n: nat :: 1 <= n <= MaxFunctionKey ==> hotkey[1..] != Decimal(n)
    ensures IsHotkeyPressed(hotkey, mods, key) <==> key == Function(8)
  {
    FunctionKeyNumberIsDecimal(hotkey[1..]);
  }

  // ----- modifier tracking -----

  predicate IsCtrlKey(k: Key) {
    k == CtrlL || k == CtrlR
  }

  predicate IsShiftKey(k: Key) {
    k == ShiftL || k == ShiftR || k == Shift
  }

  predicate IsAltKey(k: Key) {
    k == AltL || k == AltR || k == AltGr
  }

  /** The modifiers after pressing `k`: only the flag of the pressed modifier is set. */
  function Pressed(m: Modifiers, k: Key): (r: Modifiers)
    ensures r.ctrl == (m.ctrl || IsCtrlKey(k))
    ensures r.shift == (m.shift || IsShiftKey(k))
    ensures r.alt == (m.alt || IsAltKey(k))
  {
    if IsCtrlKey(k) then m.(ctrl := true)
    else if IsShiftKey(k) then m.(shift := true)
    else if IsAltKey(k) then m.(alt := true)
    else m
  }

  /** The modifiers after releasing `k`: only the flag of the released modifier is cleared. */
  function Released(m: Modifiers, k: Key): (r: Modifiers)
    ensures r.ctrl == (m.ctrl && !IsCtrlKey(k))
    ensures r.shift == (m.shift && !IsShiftKey(k))
    ensures r.alt == (m.alt && !IsAltKey(k))
  {
    if IsCtrlKey(k) then m.(ctrl := false)
    else if IsShiftKey(k) then m.(shift := false)
    else if IsAltKey(k) then m.(alt := false)
    else m
  }

  datatype KeyEvent = Press(key: Key) | Release(key: Key)

  /** The modifiers after a sequence of keyboard events, starting from `m`. */
  function Track(m: Modifiers, events: seq<KeyEvent>): Modifiers {
    if events == [] then m
    else
      var prev := Track(m, events[..|events| - 1]);
      match events[|events| - 1]
      case Press(k) => Pressed(prev, k)
      case Release(k) => Released(prev, k)
  }

  /** The three tracked modifiers. */
  datatype Modifier = CtrlMod | ShiftMod | AltMod

  /** Whether `k` is one of the keys that drive the flag of `mod`. */
  predicate Drives(k: Key, mod: Modifier) {
    match mod
    case CtrlMod => IsCtrlKey(k)
    case ShiftMod => IsShiftKey(k)
    case AltMod => IsAltKey(k)
  }

  function Flag(m: Modifiers, mod: Modifier): bool {
    match mod
    case CtrlMod => m.ctrl
    case ShiftMod => m.shift
    case AltMod => m.alt
  }

  predicate IsPressOf(e: KeyEvent, mod: Modifier) {
    e.Press? && Drives(e.key, mod)
  }

  predicate IsReleaseOf(e: KeyEvent, mod: Modifier) {
    e.Release? && Drives(e.key, mod)
  }

  /** Event `i` pressed a key of `mod` and no later event released one. */
  predicate HeldSince(events: seq<KeyEvent>, mod: Modifier, i: int) {
    0 <= i < |events| && IsPressOf(events[i], mod) &&
    forall j :: i < j < |events| ==> !IsReleaseOf(events[j], mod)
  }

  /**
   * Starting with nothing held, the flag of a modifier is set exactly when
   * one of its keys was pressed and none of its keys was released after it.
   */
  lemma {:induction false} HeldAfter(events: seq<KeyEvent>, mod: Modifier)
    ensures Flag(Track(NoModifiers, events), mod) <==> exists i :: HeldSince(events, mod, i)
  {
    if events != [] {
      var n := |events| - 1;
      var init := events[..n];
      HeldAfter(init, mod);
      if IsPressOf(events[n], mod) {
        assert HeldSince(events, mod, n);
      } else if IsReleaseOf(events[n], mod) {
        forall i | 0 <= i < |events|
          ensures !HeldSince(events, mod, i)
        {
          if i < n {
            assert IsReleaseOf(events[n], mod);
          }
        }
      } else {
        forall i | 0 <= i < n
          ensures HeldSince(events, mod, i) <==> HeldSince(init, mod, i)
        {
          assert forall j :: i < j < n ==> init[j] == events[j];
        }
        assert !HeldSince(events, mod, n);
        if exists i :: HeldSince(events, mod, i) {
          var i :| HeldSince(events, mod, i);
          assert HeldSince(init, mod, i);
        }
      }
    }
  }
}
