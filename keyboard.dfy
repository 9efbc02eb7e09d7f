/** Keyboard operations: key-name parsing, modifier recognition, key
    combinations ("ctrl+s", "cmd+shift+p"), holding a key and typing text. */
module Keyboard {
  import opened Base
  import opened Device
  import Error

  // ---------------------------------------------------------------------
  // Key names
  // ---------------------------------------------------------------------

  /** The named keys, by lower-case name. */
  function NamedKey(name: string): Option<Key>
  {
    match name
    case "ctrl" | "control" => Some(Control)
    case "alt" | "option" => Some(Alt)
    case "shift" => Some(Shift)
    case "cmd" | "command" | "meta" | "super" | "win" => Some(Meta)
    case "f1" => Some(F1)
    case "f2" => Some(F2)
    case "f3" => Some(F3)
    case "f4" => Some(F4)
    case "f5" => Some(F5)
    case "f6" => Some(F6)
    case "f7" => Some(F7)
    case "f8" => Some(F8)
    case "f9" => Some(F9)
    case "f10" => Some(F10)
    case "f11" => Some(F11)
    case "f12" => Some(F12)
    case "up" | "arrowup" => Some(UpArrow)
    case "down" | "arrowdown" => Some(DownArrow)
    case "left" | "arrowleft" => Some(LeftArrow)
    case "right" | "arrowright" => Some(RightArrow)
    case "home" => Some(Home)
    case "end" => Some(End)
    case "pageup" | "page_up" => Some(PageUp)
    case "pagedown" | "page_down" => Some(PageDown)
    case "enter" | "return" => Some(Return)
    case "tab" => Some(Tab)
    case "space" => Some(Space)
    case "backspace" => Some(Backspace)
    case "delete" | "del" => Some(Delete)
    case "escape" | "esc" => Some(Escape)
    case "capslock" | "caps_lock" => Some(CapsLock)
    case _ => None
  }

  /** Every key name is at least two characters long. */
  lemma NamedKeysAreLong(name: string)
    requires NamedKey(name).Some?
    ensures |name| >= 2
  {
  }

  /** The number of bytes a character takes in UTF-8. */
  function Utf8Width(c: char): (n: nat)
    ensures 1 <= n <= 4
    ensures n == 1 <==> c as int < 0x80
  {
    if c as int < 0x80 then 1 else if c as int < 0x800 then 2 else if c as int < 0x10000 then 3 else 4
  }

  /** `str::len`: the UTF-8 byte length of a string. */
  function Utf8Length(s: string): (n: nat)
    ensures n >= |s|
    ensures n == 1 <==> |s| == 1 && s[0] as int < 0x80
  {
    if s == [] then 0 else Utf8Width(s[0]) + Utf8Length(s[1..])
  }

  predicate IsModifierKey(k: Key)
  {
    k == Control || k == Alt || k == Shift || k == Meta
  }

  /** `is_modifier`: one of the ten modifier names, in any case. */
  predicate IsModifier(keyStr: string)
  {
    Lower(keyStr) in {"ctrl", "control", "alt", "option", "shift", "cmd", "command", "meta", "super", "win"}
  }

  /** `parse_key`: a named key (in any case), else a single one-byte
      character as itself (lower-cased), else an unknown-key error naming
      the text as given. */
  function ParseKey(keyStr: string): (r: Result<Key, Error.XenotesterError>)
    ensures r.Failure? ==> r.error == Error.InputError("Unknown key: " + keyStr)
    ensures r.Success? && r.value.Unicode? ==> |keyStr| == 1 && keyStr[0] as int < 0x80
  {
    var name := Lower(keyStr);
    match NamedKey(name)
    case Some(k) => Success(k)
    case None =>
      if Utf8Length(name) == 1 then Success(Unicode(name[0]))
      else Failure(Error.InputError("Unknown key: " + keyStr))
  }

  /** Case does not matter: a name and its lower-case form parse to the
      same key, or both fail (each error quoting its own text). */
  lemma ParseKeyCaseInsensitive(keyStr: string)
    ensures ParseKey(keyStr).Success? <==> ParseKey(Lower(keyStr)).Success?
    ensures ParseKey(keyStr).Success? ==> ParseKey(keyStr).value == ParseKey(Lower(keyStr)).value
  {
    LowerIdempotent(keyStr);
  }

  /** The message an unknown key is reported with. */
  lemma UnknownKeyMessage(keyStr: string)
    requires ParseKey(keyStr).Failure?
    ensures Error.Display(ParseKey(keyStr).error) == "Input operation failed: Unknown key: " + keyStr
  {
    assert ParseKey(keyStr).error == Error.InputError("Unknown key: " + keyStr);
    UnknownKeyDisplay(keyStr);
  }

  lemma UnknownKeyDisplay(keyStr: string)
    ensures Error.Display(Error.InputError("Unknown key: " + keyStr)) == "Input operation failed: Unknown key: " + keyStr
  {
    assert "Input operation failed: " + ("Unknown key: " + keyStr) == "Input operation failed: Unknown key: " + keyStr;
  }

  /** The modifier aliases, in any case. */
  lemma ControlAliases()
    ensures ParseKey("ctrl") == Success(Control) && ParseKey("control") == Success(Control)
    ensures ParseKey("CTRL") == Success(Control)
  {
    ParsesAsNamed("ctrl", "ctrl", Control);
    ParsesAsNamed("control", "control", Control);
    ParsesAsNamed("CTRL", "ctrl", Control);
  }

  lemma AltShiftAliases()
    ensures ParseKey("alt") == Success(Alt) && ParseKey("option") == Success(Alt)
    ensures ParseKey("shift") == Success(Shift) && ParseKey("Shift") == Success(Shift)
  {
    ParsesAsNamed("alt", "alt", Alt);
    ParsesAsNamed("option", "option", Alt);
    ParsesAsNamed("shift", "shift", Shift);
    ParsesAsNamed("Shift", "shift", Shift);
  }

  lemma MetaAliases()
    ensures ParseKey("cmd") == Success(Meta) && ParseKey("command") == Success(Meta)
    ensures ParseKey("meta") == Success(Meta) && ParseKey("super") == Success(Meta)
    ensures ParseKey("win") == Success(Meta)
  {
    ParsesAsNamed("cmd", "cmd", Meta);
    ParsesAsNamed("command", "command", Meta);
    ParsesAsNamed("meta", "meta", Meta);
    ParsesAsNamed("super", "super", Meta);
    ParsesAsNamed("win", "win", Meta);
  }

  /** A text whose lower-case form is a key name parses to that key. */
  lemma ParsesAsNamed(keyStr: string, name: string, k: Key)
    requires Lower(keyStr) == name && NamedKey(name) == Some(k)
    ensures ParseKey(keyStr) == Success(k)
  {
  }

  /** A text names a modifier exactly when it parses to one of the four
      modifier keys. */
  lemma ModifierIffModifierKey(keyStr: string)
    ensures IsModifier(keyStr) <==> ParseKey(keyStr).Success? && IsModifierKey(ParseKey(keyStr).value)
  {
  }

  /** Any other single ASCII character is a key of its own, lower-cased;
      a single character outside ASCII is more than one byte long and is
      unknown. */
  lemma SingleCharacterKeys(c: char)
    ensures c as int < 0x80 ==> ParseKey([c]) == Success(Unicode(LowerChar(c)))
    ensures c as int >= 0x80 ==> ParseKey([c]) == Failure(Error.InputError("Unknown key: " + [c]))
  {
    if NamedKey(Lower([c])).Some? {
      NamedKeysAreLong(Lower([c]));
    }
  }

  /** The empty text names no key. */
  lemma EmptyKeyUnknown()
    ensures ParseKey("") == Failure(Error.InputError("Unknown key: "))
  {
    assert Lower("") == "";
    assert NamedKey("") == None;
    assert Utf8Length("") == 0;
    assert "Unknown key: " + "" == "Unknown key: ";
  }

  // ---------------------------------------------------------------------
  // Key combinations
  // ---------------------------------------------------------------------

  /** The parts of a combination: split on '+', each trimmed and
      lower-cased. */
  function ComboParts(keyStr: string): (parts: seq<string>)
    ensures |parts| == |Split(keyStr, '+')|
    ensures forall i :: 0 <= i < |parts| ==> parts[i] == Lower(Trim(Split(keyStr, '+')[i]))
  {
    var pieces := Split(keyStr, '+');
    seq(|pieces|, i requires 0 <= i < |pieces| => Lower(Trim(pieces[i])))
  }

  /** Every part is free of '+', already lower-case and without blanks at
      either end. */
  lemma ComboPartsShape(keyStr: string)
    ensures forall i :: 0 <= i < |ComboParts(keyStr)| ==> '+' !in ComboParts(keyStr)[i]
    ensures forall i :: 0 <= i < |ComboParts(keyStr)| ==> Lower(ComboParts(keyStr)[i]) == ComboParts(keyStr)[i]
    ensures forall i :: 0 <= i < |ComboParts(keyStr)| && ComboParts(keyStr)[i] != [] ==>
      var p := ComboParts(keyStr)[i];
      !IsAsciiWhitespace(p[0]) && !IsAsciiWhitespace(p[|p| - 1])
  {
    var pieces := Split(keyStr, '+');
    forall i | 0 <= i < |pieces| {
      PartShape(pieces[i]);
    }
  }

  /** One piece, trimmed and lower-cased. */
  lemma PartShape(piece: string)
    requires '+' !in piece
    ensures var p := Lower(Trim(piece));
      && '+' !in p && Lower(p) == p
      && (p != [] ==> !IsAsciiWhitespace(p[0]) && !IsAsciiWhitespace(p[|p| - 1]))
  {
    var t := Trim(piece);
    var p := Lower(t);
    LowerIdempotent(t);
    forall j | 0 <= j < |p|
      ensures p[j] != '+'
    {
      TrimKeepsCharacters(piece, t[j]);
    }
  }

  /** The parts of a combination, classified. */
  function Combo(keyStr: string): (classified: seq<Part>)
    ensures |classified| == |ComboParts(keyStr)|
  {
    ClassifyParts(ComboParts(keyStr))
  }

  /** A part of a combination as the loop sees it: whether it names a
      modifier, and what it parses to. */
  datatype Part = Part(modifier: bool, key: Result<Key, Error.XenotesterError>)

  function ClassifyParts(parts: seq<string>): (classified: seq<Part>)
    ensures |classified| == |parts|
    ensures forall i :: 0 <= i < |parts| ==> classified[i] == Part(IsModifier(parts[i]), ParseKey(parts[i]))
  {
    seq(|parts|, i requires 0 <= i < |parts| => Part(IsModifier(parts[i]), ParseKey(parts[i])))
  }

  /** The error of the first part that does not parse, if any. */
  function FirstParseError(parts: seq<Part>): Option<Error.XenotesterError>
  {
    if parts == [] then None
    else
      var last := parts[|parts| - 1];
      match FirstParseError(parts[..|parts| - 1])
      case Some(e) => Some(e)
      case None => if last.key.Failure? then Some(last.key.error) else None
  }

  /** The keys of the modifier parts, in input order. */
  function Modifiers(parts: seq<Part>): seq<Key>
  {
    if parts == [] then []
    else
      var last := parts[|parts| - 1];
      var earlier := Modifiers(parts[..|parts| - 1]);
      if last.modifier && last.key.Success? then earlier + [last.key.value] else earlier
  }

  /** The key of the last part that is not a modifier, if any. */
  function MainKey(parts: seq<Part>): Option<Key>
  {
    if parts == [] then None
    else
      var last := parts[|parts| - 1];
      if !last.modifier && last.key.Success? then Some(last.key.value)
      else MainKey(parts[..|parts| - 1])
  }

  /** Part `i` is the first that fails to parse, with error `e`. */
  predicate FailsFirstAt(parts: seq<Part>, i: int, e: Error.XenotesterError)
  {
    0 <= i < |parts| && parts[i].key == Failure(e) && forall j :: 0 <= j < i ==> parts[j].key.Success?
  }

  /** Part `i` parses to `k`, is not a modifier and only modifiers follow. */
  predicate IsMainAt(parts: seq<Part>, i: int, k: Key)
  {
    0 <= i < |parts| && !parts[i].modifier && parts[i].key == Success(k)
    && forall j :: i < j < |parts| ==> parts[j].modifier
  }

  /** When every part parses, the first parse error is absent for good:
      it is reported exactly when some part fails. */
  lemma {:induction false} FirstParseErrorIffSomeFailure(parts: seq<Part>)
    ensures FirstParseError(parts).None? <==> forall i :: 0 <= i < |parts| ==> parts[i].key.Success?
    ensures FirstParseError(parts).Some? ==> exists i :: FailsFirstAt(parts, i, FirstParseError(parts).value)
  {
    if parts != [] {
      var n := |parts| - 1;
      var init := parts[..n];
      assert forall j :: 0 <= j < n ==> init[j] == parts[j];
      FirstParseErrorIffSomeFailure(init);
      if FirstParseError(init).Some? {
        var i :| FailsFirstAt(init, i, FirstParseError(init).value);
        assert FailsFirstAt(parts, i, FirstParseError(parts).value);
      } else if parts[n].key.Failure? {
        assert FailsFirstAt(parts, n, FirstParseError(parts).value);
      }
    }
  }

  /** The main key is the key of a non-modifier part with only modifiers
      after it: the last one wins. */
  lemma {:induction false} MainKeyIsLastNonModifier(parts: seq<Part>)
    requires FirstParseError(parts).None?
    ensures MainKey(parts).Some? <==> exists i :: 0 <= i < |parts| && !parts[i].modifier
    ensures MainKey(parts).Some? ==> exists i :: IsMainAt(parts, i, MainKey(parts).value)
  {
    if parts != [] {
      var n := |parts| - 1;
      var init := parts[..n];
      assert forall j :: 0 <= j < n ==> init[j] == parts[j];
      MainKeyIsLastNonModifier(init);
      if parts[n].modifier {
        if MainKey(init).Some? {
          var i :| IsMainAt(init, i, MainKey(init).value);
          assert IsMainAt(parts, i, MainKey(parts).value);
        }
      } else {
        assert IsMainAt(parts, n, MainKey(parts).value);
      }
    }
  }

  /** Every modifier part's key is collected, and only those. */
  lemma {:induction false} ModifiersAreModifierParts(parts: seq<Part>)
    requires FirstParseError(parts).None?
    ensures |Modifiers(parts)| <= |parts|
    ensures forall i :: 0 <= i < |parts| && parts[i].modifier && parts[i].key.Success? ==> parts[i].key.value in Modifiers(parts)
    ensures forall k :: k in Modifiers(parts) ==> exists i :: 0 <= i < |parts| && parts[i].modifier && parts[i].key == Success(k)
  {
    if parts != [] {
      var n := |parts| - 1;
      var init := parts[..n];
      assert forall j :: 0 <= j < n ==> init[j] == parts[j];
      ModifiersAreModifierParts(init);
    }
  }

  /** The modifiers are collected part by part, in input order and with
      repetitions: those of a concatenation are those of its halves, one
      after the other, and a single part contributes its key exactly when
      it is a modifier that parses. */
  lemma {:induction false} ModifiersInOrder(a: seq<Part>, b: seq<Part>, p: Part)
    ensures Modifiers(a + b) == Modifiers(a) + Modifiers(b)
    ensures Modifiers([p]) == if p.modifier && p.key.Success? then [p.key.value] else []
    decreases |b|
  {
    assert [p][..0] == [];
    if b == [] {
      assert a + b == a;
    } else {
      var n := |b| - 1;
      assert (a + b)[..|a + b| - 1] == a + b[..n];
      assert (a + b)[|a + b| - 1] == b[n];
      ModifiersInOrder(a, b[..n], p);
    }
  }

  function Reverse<T>(s: seq<T>): (r: seq<T>)
    ensures |r| == |s|
  {
    if s == [] then [] else Reverse(s[1..]) + [s[0]]
  }

  lemma {:induction false} ReverseSameMultiset<T>(s: seq<T>)
    ensures multiset(Reverse(s)) == multiset(s)
  {
    if s != [] {
      ReverseSameMultiset(s[1..]);
      assert s == [s[0]] + s[1..];
    }
  }

  /** One key event per key, all in the same direction. */
  function KeyEvents(keys: seq<Key>, d: Direction): (events: seq<InputEvent>)
    ensures |events| == |keys|
    ensures forall i :: 0 <= i < |keys| ==> events[i] == KeyEvent(keys[i], d)
  {
    seq(|keys|, i requires 0 <= i < |keys| => KeyEvent(keys[i], d))
  }

  /** The events of a combination: modifiers pressed in order, the main key
      clicked once if there is one, modifiers released in reverse order. */
  function ComboTrace(modifiers: seq<Key>, mainKey: Option<Key>): seq<InputEvent>
  {
    KeyEvents(modifiers, Press) + MainClick(mainKey) + KeyEvents(Reverse(modifiers), Release)
  }

  function MainClick(mainKey: Option<Key>): seq<InputEvent>
  {
    if mainKey.Some? then [KeyEvent(mainKey.value, Click)] else []
  }

  /** The keys an event sequence acts on in the given direction, in order. */
  function KeysWith(events: seq<InputEvent>, d: Direction): seq<Key>
  {
    if events == [] then []
    else
      var rest := KeysWith(events[1..], d);
      if events[0].KeyEvent? && events[0].direction == d then [events[0].key] + rest else rest
  }

  lemma {:induction false} KeysWithAppend(a: seq<InputEvent>, b: seq<InputEvent>, d: Direction)
    ensures KeysWith(a + b, d) == KeysWith(a, d) + KeysWith(b, d)
  {
    if a == [] {
      assert a + b == b;
    } else {
      assert (a + b)[1..] == a[1..] + b;
      KeysWithAppend(a[1..], b, d);
    }
  }

  lemma {:induction false} KeysWithUniform(keys: seq<Key>, d: Direction, other: Direction)
    ensures KeysWith(KeyEvents(keys, d), d) == keys
    ensures other != d ==> KeysWith(KeyEvents(keys, d), other) == []
  {
    if keys != [] {
      KeysWithUniform(keys[1..], d, other);
      assert KeyEvents(keys, d)[1..] == KeyEvents(keys[1..], d);
    }
  }

  lemma ComboTraceSplit(modifiers: seq<Key>, mainKey: Option<Key>, d: Direction)
    ensures KeysWith(ComboTrace(modifiers, mainKey), d)
         == KeysWith(KeyEvents(modifiers, Press), d) + KeysWith(MainClick(mainKey), d)
            + KeysWith(KeyEvents(Reverse(modifiers), Release), d)
  {
    KeysWithAppend(KeyEvents(modifiers, Press) + MainClick(mainKey), KeyEvents(Reverse(modifiers), Release), d);
    KeysWithAppend(KeyEvents(modifiers, Press), MainClick(mainKey), d);
  }

  /** In a combination's events the modifiers are pressed in input order. */
  lemma ComboTracePresses(modifiers: seq<Key>, mainKey: Option<Key>)
    ensures KeysWith(ComboTrace(modifiers, mainKey), Press) == modifiers
  {
    ComboTraceSplit(modifiers, mainKey, Press);
    KeysWithUniform(modifiers, Press, Release);
    KeysWithUniform(Reverse(modifiers), Release, Press);
    assert KeysWith(MainClick(mainKey), Press) == [];
  }

  /** ... and released in reverse order, each as often as it was pressed. */
  lemma ComboTraceReleases(modifiers: seq<Key>, mainKey: Option<Key>)
    ensures KeysWith(ComboTrace(modifiers, mainKey), Release) == Reverse(modifiers)
    ensures multiset(KeysWith(ComboTrace(modifiers, mainKey), Release))
         == multiset(KeysWith(ComboTrace(modifiers, mainKey), Press))
  {
    ComboTraceSplit(modifiers, mainKey, Release);
    KeysWithUniform(modifiers, Press, Release);
    KeysWithUniform(Reverse(modifiers), Release, Press);
    assert KeysWith(MainClick(mainKey), Release) == [];
    ComboTracePresses(modifiers, mainKey);
    ReverseSameMultiset(modifiers);
  }

  /** The only click in a combination is the main key's. */
  lemma ComboTraceClick(modifiers: seq<Key>, mainKey: Option<Key>)
    ensures KeysWith(ComboTrace(modifiers, mainKey), Click) == if mainKey.Some? then [mainKey.value] else []
  {
    ComboTraceSplit(modifiers, mainKey, Click);
    KeysWithUniform(modifiers, Press, Click);
    KeysWithUniform(Reverse(modifiers), Release, Click);
    if mainKey.Some? {
      assert MainClick(mainKey)[1..] == [];
    }
  }

  /** Sends one key event per key, in order, all in direction `d`. */
  method SendKeys(enigo: Enigo, keys: seq<Key>, d: Direction)
    modifies enigo
    ensures enigo.events == old(enigo.events) + KeyEvents(keys, d)
  {
    for j := 0 to |keys|
      invariant enigo.events == old(enigo.events) + KeyEvents(keys[..j], d)
    {
      assert KeyEvents(keys[..j + 1], d) == KeyEvents(keys[..j], d) + [KeyEvent(keys[j], d)];
      enigo.Key(keys[j], d);
    }
    assert keys[..|keys|] == keys;
  }

  /** The parsing loop of a combination: each part is parsed in turn, the
      first failure ends the loop, modifiers are collected in order and the
      last other key becomes the main key. */
  method ParseCombination(parts: seq<string>) returns (r: Result<(seq<Key>, Option<Key>), Error.XenotesterError>)
    ensures FirstParseError(ClassifyParts(parts)).Some? ==> r == Failure(FirstParseError(ClassifyParts(parts)).value)
    ensures FirstParseError(ClassifyParts(parts)).None? ==>
      r == Success((Modifiers(ClassifyParts(parts)), MainKey(ClassifyParts(parts))))
  {
    ghost var classified := ClassifyParts(parts);
    var modifiers: seq<Key> := [];
    var mainKey: Option<Key> := None;
    var i := 0;
    while i < |parts|
      invariant 0 <= i <= |parts|
      invariant FirstParseError(classified[..i]).None?
      invariant modifiers == Modifiers(classified[..i])
      invariant mainKey == MainKey(classified[..i])
    {
      assert classified[..i + 1][..i] == classified[..i];
      var key := ParseKey(parts[i]);
      assert classified[i] == Part(IsModifier(parts[i]), key);
      if key.Failure? {
        FirstErrorPersists(classified, i + 1);
        return Failure(key.error);
      }
      if IsModifier(parts[i]) {
        modifiers := modifiers + [key.value];
      } else {
        mainKey := Some(key.value);
      }
      i := i + 1;
    }
    assert classified[..i] == classified;
    return Success((modifiers, mainKey));
  }

  /** `key_combination`: every part is parsed before any event is sent, so
      one bad part sends nothing; then the modifiers are pressed, the main
      key clicked and the modifiers released in reverse order. */
  method KeyCombination(enigo: Enigo, keyStr: string) returns (r: Result<Unit, Error.XenotesterError>)
    modifies enigo
    ensures enigo.initFailure.Some? ==>
      r == Failure(Error.InputError(enigo.initFailure.value)) && enigo.events == old(enigo.events)
    ensures enigo.initFailure.None? && FirstParseError(Combo(keyStr)).Some? ==>
      r == Failure(FirstParseError(Combo(keyStr)).value) && enigo.events == old(enigo.events)
    ensures enigo.initFailure.None? && FirstParseError(Combo(keyStr)).None? ==>
      && r == Success(Unit)
      && enigo.events == old(enigo.events)
           + ComboTrace(Modifiers(Combo(keyStr)), MainKey(Combo(keyStr)))
  {
    var device := CreateEnigo(enigo.initFailure);
    if device.Failure? {
      return Failure(device.error);
    }
    var parsed := ParseCombination(ComboParts(keyStr));
    if parsed.Failure? {
      return Failure(parsed.error);
    }
    var (modifiers, mainKey) := parsed.value;
    ghost var before := enigo.events;
    SendKeys(enigo, modifiers, Press);
    if mainKey.Some? {
      enigo.Key(mainKey.value, Click);
    }
    assert enigo.events == before + KeyEvents(modifiers, Press) + MainClick(mainKey);
    SendKeys(enigo, Reverse(modifiers), Release);
    AppendThree(before, KeyEvents(modifiers, Press), MainClick(mainKey), KeyEvents(Reverse(modifiers), Release));
    return Success(Unit);
  }

  lemma AppendThree<T>(a: seq<T>, b: seq<T>, c: seq<T>, d: seq<T>)
    ensures a + b + c + d == a + (b + c + d)
  {
  }

  /** Once a prefix of the parts holds a bad part, so does every longer one. */
  lemma {:induction false} FirstErrorPersists(parts: seq<Part>, n: nat)
    requires n <= |parts|
    requires FirstParseError(parts[..n]).Some?
    ensures FirstParseError(parts) == FirstParseError(parts[..n])
    decreases |parts| - n
  {
    if n < |parts| {
      assert parts[..n + 1][..n] == parts[..n];
      FirstErrorPersists(parts, n + 1);
    } else {
      assert parts[..n] == parts;
    }
  }

  /** `hold_key`: the key as parsed (no trimming), pressed when `press` is
      set and released otherwise. */
  method HoldKey(enigo: Enigo, keyStr: string, press: bool) returns (r: Result<Unit, Error.XenotesterError>)
    modifies enigo
    ensures enigo.initFailure.Some? ==>
      r == Failure(Error.InputError(enigo.initFailure.value)) && enigo.events == old(enigo.events)
    ensures enigo.initFailure.None? && ParseKey(keyStr).Failure? ==>
      r == Failure(ParseKey(keyStr).error) && enigo.events == old(enigo.events)
    ensures enigo.initFailure.None? && ParseKey(keyStr).Success? ==>
      r == Success(Unit)
      && enigo.events == old(enigo.events) + [KeyEvent(ParseKey(keyStr).value, if press then Press else Release)]
  {
    var device := CreateEnigo(enigo.initFailure);
    if device.Failure? {
      return Failure(device.error);
    }
    var key := ParseKey(keyStr);
    if key.Failure? {
      return Failure(key.error);
    }
    var direction := if press then Press else Release;
    enigo.Key(key.value, direction);
    return Success(Unit);
  }

  /** `type_text`: the text is handed to the device in one piece. */
  method TypeText(enigo: Enigo, text: string) returns (r: Result<Unit, Error.XenotesterError>)
    modifies enigo
    ensures enigo.initFailure.Some? ==>
      r == Failure(Error.InputError(enigo.initFailure.value)) && enigo.events == old(enigo.events)
    ensures enigo.initFailure.None? ==> r == Success(Unit) && enigo.events == old(enigo.events) + [TextEvent(text)]
  {
    var device := CreateEnigo(enigo.initFailure);
    if device.Failure? {
      return Failure(device.error);
    }
    enigo.Text(text);
    return Success(Unit);
  }
}
