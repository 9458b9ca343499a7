/**
 * The capability tables: fixed maps from abstract names to the codes the QEMU
 * Machine Protocol expects (its `QKeyCode` and `InputButton` enumerations, and the
 * wheel buttons used for scrolling). They are literals and are never changed.
 * The key table is one dictionary literal in services/constants.py; here it is the union of
 * its commented sections in their original order (no key appears in two sections,
 * so the union is the same dictionary), grouped as the short names (letters, digits,
 * function keys) followed by the rest.
 */
module Constants {
  import opened Json

  /** Letters (26 entries). */
  const Letters: map<string, string> :=
    map[
      "A" := "a", "B" := "b", "C" := "c", "D" := "d", "E" := "e", "F" := "f", "G" := "g", "H" := "h", "I" := "i",
      "J" := "j", "K" := "k", "L" := "l", "M" := "m", "N" := "n", "O" := "o", "P" := "p", "Q" := "q", "R" := "r",
      "S" := "s", "T" := "t", "U" := "u", "V" := "v", "W" := "w", "X" := "x", "Y" := "y", "Z" := "z"
    ]

  /** Numbers (10 entries). */
  const Numbers: map<string, string> :=
    map[
      "0" := "0", "1" := "1", "2" := "2", "3" := "3", "4" := "4",
      "5" := "5", "6" := "6", "7" := "7", "8" := "8", "9" := "9"
    ]

  /** Function keys (24 entries). */
  const FunctionKeys: map<string, string> :=
    map[
      "F1" := "f1", "F2" := "f2", "F3" := "f3", "F4" := "f4", "F5" := "f5",
      "F6" := "f6", "F7" := "f7", "F8" := "f8", "F9" := "f9", "F10" := "f10",
      "F11" := "f11", "F12" := "f12", "F13" := "f13", "F14" := "f14", "F15" := "f15",
      "F16" := "f16", "F17" := "f17", "F18" := "f18", "F19" := "f19", "F20" := "f20",
      "F21" := "f21", "F22" := "f22", "F23" := "f23", "F24" := "f24"
    ]

  /** Special keys (9 entries). */
  const SpecialKeys: map<string, string> :=
    map[
      "SHIFT" := "shift", "RIGHT_SHIFT" := "shift_r",
      "ALT" := "alt", "RIGHT_ALT" := "alt_r",
      "CTRL" := "ctrl", "RIGHT_CTRL" := "ctrl_r",
      "MENU" := "menu", "ESC" := "esc", "ESCAPE" := "esc"
    ]

  /** Symbols and punctuation (26 entries). */
  const Punctuation: map<string, string> :=
    map[
      "MINUS" := "minus", "DASH" := "minus", "HYPHEN" := "minus",
      "EQUALS" := "equal", "EQUAL" := "equal",
      "BACKSPACE" := "backspace", "TAB" := "tab",
      "LEFT_BRACKET" := "bracket_left", "RIGHT_BRACKET" := "bracket_right",
      "ENTER" := "ret", "RETURN" := "ret",
      "SEMICOLON" := "semicolon", "COLON" := "semicolon",
      "APOSTROPHE" := "apostrophe", "QUOTE" := "apostrophe",
      "GRAVE" := "grave_accent", "BACKTICK" := "grave_accent",
      "BACKSLASH" := "backslash", "COMMA" := "comma",
      "PERIOD" := "dot", "DOT" := "dot", "FULLSTOP" := "dot",
      "SLASH" := "slash", "FORWARD_SLASH" := "slash",
      "ASTERISK" := "asterisk", "STAR" := "asterisk"
    ]

  /** Whitespace and layout (3 entries). */
  const Layout: map<string, string> :=
    map[
      "SPACE" := "spc", "CAPS_LOCK" := "caps_lock", "CAPSLOCK" := "caps_lock"
    ]

  /** Number pad (20 entries). */
  const NumberPad: map<string, string> :=
    map[
      "NUM_LOCK" := "num_lock", "NUMLOCK" := "num_lock",
      "NUM_DIVIDE" := "kp_divide", "NUM_MULTIPLY" := "kp_multiply",
      "NUM_SUBTRACT" := "kp_subtract", "NUM_MINUS" := "kp_subtract",
      "NUM_ADD" := "kp_add", "NUM_PLUS" := "kp_add",
      "NUM_ENTER" := "kp_enter", "NUM_DECIMAL" := "kp_decimal",
      "NUM_0" := "kp_0", "NUM_1" := "kp_1", "NUM_2" := "kp_2", "NUM_3" := "kp_3",
      "NUM_4" := "kp_4", "NUM_5" := "kp_5", "NUM_6" := "kp_6",
      "NUM_7" := "kp_7", "NUM_8" := "kp_8", "NUM_9" := "kp_9"
    ]

  /** Navigation (18 entries). */
  const Navigation: map<string, string> :=
    map[
      "SCROLL_LOCK" := "scroll_lock", "SCROLLLOCK" := "scroll_lock",
      "PRINT" := "print", "PRINTSCREEN" := "print", "SYSRQ" := "sysrq",
      "HOME" := "home", "PAGE_UP" := "pgup", "PAGEUP" := "pgup",
      "PAGE_DOWN" := "pgdn", "PAGEDOWN" := "pgdn",
      "END" := "end", "LEFT" := "left", "UP" := "up", "DOWN" := "down", "RIGHT" := "right",
      "INSERT" := "insert", "DELETE" := "delete", "DEL" := "delete"
    ]

  /** Media keys (7 entries). */
  const MediaKeys: map<string, string> :=
    map[
      "VOLUME_UP" := "volumeup", "VOLUME_DOWN" := "volumedown",
      "AUDIO_NEXT" := "audionext", "AUDIO_PREV" := "audioprev",
      "AUDIO_STOP" := "audiostop", "AUDIO_PLAY" := "audioplay",
      "AUDIO_MUTE" := "audiomute"
    ]

  /** Other (23 entries). */
  const OtherKeys: map<string, string> :=
    map[
      "LESS" := "less", "STOP" := "stop", "AGAIN" := "again", "PROPS" := "props",
      "UNDO" := "undo", "FRONT" := "front", "COPY" := "copy", "OPEN" := "open",
      "PASTE" := "paste", "FIND" := "find", "CUT" := "cut", "HELP" := "help",
      "POWER" := "power", "SLEEP" := "sleep", "WAKE" := "wake",
      "MAIL" := "mail", "CALCULATOR" := "calculator", "COMPUTER" := "computer",
      "HOME_PAGE" := "ac_home", "BACK" := "ac_back", "FORWARD" := "ac_forward",
      "REFRESH" := "ac_refresh", "BOOKMARKS" := "ac_bookmarks"
    ]

  /** The letter, digit and function-key sections: every key is a single character or "F" with one or two digits. */
  const ShortNames: map<string, string> := Letters + Numbers + FunctionKeys

  /** The remaining sections, in the order they appear in the key table. */
  const LongNames: map<string, string> :=
    SpecialKeys + Punctuation + Layout + NumberPad + Navigation + MediaKeys + OtherKeys

  /** Abstract key name to QMP `QKeyCode`: all the sections, in order. */
  const KeyMapping: map<string, string> := ShortNames + LongNames

  /** Abstract mouse button name to QMP `InputButton`. */
  const MouseButtonMapping: map<string, string> :=
    map["LEFT" := "left", "RIGHT" := "right", "MIDDLE" := "middle"]

  /** Scroll direction to the QMP wheel button that scrolls that way. */
  const ScrollMapping: map<string, string> :=
    map["UP" := "wheel-up", "DOWN" := "wheel-down", "LEFT" := "wheel-left", "RIGHT" := "wheel-right"]

  function LowerChar(c: char): char {
    if 'A' <= c <= 'Z' then (c as int + 32) as char else c
  }

  /** ASCII lower case. */
  function Lower(s: string): (r: string)
    ensures |r| == |s| && forall i :: 0 <= i < |s| ==> r[i] == LowerChar(s[i])
  {
    seq(|s|, i requires 0 <= i < |s| => LowerChar(s[i]))
  }

  /** The name of function key `n` (one or two decimal digits), e.g. "F7" or "F12". */
  function FunctionKeyName(n: nat): string
    requires n < 100
  {
    if n < 10 then ['F', DigitChar(n)] else ['F', DigitChar(n / 10), DigitChar(n % 10)]
  }

  // ---------------------------------------------------------------- looking keys up in a union of sections

  /** A key absent from a later section is looked up in the earlier ones. */
  lemma LookupSkipsSection(front: map<string, string>, section: map<string, string>, k: string)
    requires k !in section
    ensures k in front + section <==> k in front
    ensures k in front ==> (front + section)[k] == front[k]
  {
  }

  /** A key of the last section is looked up there. */
  lemma LookupInLastSection(front: map<string, string>, section: map<string, string>, k: string)
    requires k in section
    ensures k in front + section && (front + section)[k] == section[k]
  {
  }

  // ---------------------------------------------------------------- short names

  /** A name that no section after the function keys holds: shorter than two characters, or "F" and at most two more. */
  predicate IsLongName(k: string) {
    |k| >= 2 && (k[0] == 'F' ==> |k| >= 4)
  }

  predicate AllLongNames(m: map<string, string>) {
    forall k :: k in m ==> IsLongName(k)
  }

  lemma SpecialKeysAreLong() ensures AllLongNames(SpecialKeys) {}
  lemma PunctuationIsLong() ensures AllLongNames(Punctuation) {}
  lemma LayoutIsLong() ensures AllLongNames(Layout) {}
  lemma NumberPadIsLong() ensures AllLongNames(NumberPad) {}
  lemma NavigationIsLong() ensures AllLongNames(Navigation) {}
  lemma MediaKeysAreLong() ensures AllLongNames(MediaKeys) {}
  lemma OtherKeysAreLong() ensures AllLongNames(OtherKeys) {}

  lemma AllLongNamesUnion(a: map<string, string>, b: map<string, string>)
    requires AllLongNames(a) && AllLongNames(b)
    ensures AllLongNames(a + b)
  {
  }

  /** No section after the function keys holds a short name. */
  lemma LongNamesAreLong()
    ensures AllLongNames(LongNames)
  {
    SpecialKeysAreLong();
    PunctuationIsLong();
    LayoutIsLong();
    NumberPadIsLong();
    NavigationIsLong();
    MediaKeysAreLong();
    OtherKeysAreLong();
    var m := SpecialKeys;
    AllLongNamesUnion(m, Punctuation);
    m := m + Punctuation;
    AllLongNamesUnion(m, Layout);
    m := m + Layout;
    AllLongNamesUnion(m, NumberPad);
    m := m + NumberPad;
    AllLongNamesUnion(m, Navigation);
    m := m + Navigation;
    AllLongNamesUnion(m, MediaKeys);
    m := m + MediaKeys;
    AllLongNamesUnion(m, OtherKeys);
  }

  /** A short name is looked up among the letter, digit and function-key sections. */
  lemma LookupShortName(k: string)
    requires !IsLongName(k)
    ensures k in KeyMapping <==> k in ShortNames
    ensures k in ShortNames ==> KeyMapping[k] == ShortNames[k]
  {
    LongNamesAreLong();
    LookupSkipsSection(ShortNames, LongNames, k);
  }

  lemma NotADigitName(k: string)
    requires |k| != 1 || !('0' <= k[0] <= '9')
    ensures k !in Numbers
  {
  }

  lemma NotAFunctionKeyName(k: string)
    requires |k| < 2
    ensures k !in FunctionKeys
  {
  }

  // ---------------------------------------------------------------- letters

  lemma LetterAtoF(c: char)
    requires 'A' <= c <= 'F'
    ensures [c] in Letters && Letters[[c]] == [LowerChar(c)]
  {
  }

  lemma LetterGtoM(c: char)
    requires 'G' <= c <= 'M'
    ensures [c] in Letters && Letters[[c]] == [LowerChar(c)]
  {
  }

  lemma LetterNtoZ(c: char)
    requires 'N' <= c <= 'Z'
    ensures [c] in Letters && Letters[[c]] == [LowerChar(c)]
  {
  }

  lemma LetterInShortNames(c: char)
    requires 'A' <= c <= 'Z'
    ensures [c] in ShortNames && ShortNames[[c]] == Lower([c])
  {
    if c <= 'F' { LetterAtoF(c); } else if c <= 'M' { LetterGtoM(c); } else { LetterNtoZ(c); }
    NotADigitName([c]);
    NotAFunctionKeyName([c]);
    LookupSkipsSection(Letters, Numbers, [c]);
    LookupSkipsSection(Letters + Numbers, FunctionKeys, [c]);
  }

  lemma LetterKey(c: char)
    requires 'A' <= c <= 'Z'
    ensures [c] in KeyMapping && KeyMapping[[c]] == Lower([c])
  {
    LetterInShortNames(c);
    LookupShortName([c]);
  }

  /** Every letter key maps to the same letter in lower case. */
  lemma LettersMapToLowerCase()
    ensures forall c :: 'A' <= c <= 'Z' ==> [c] in KeyMapping && KeyMapping[[c]] == Lower([c])
  {
    forall c | 'A' <= c <= 'Z' ensures [c] in KeyMapping && KeyMapping[[c]] == Lower([c]) {
      LetterKey(c);
    }
  }

  // ---------------------------------------------------------------- digits

  lemma DigitSection(c: char)
    requires '0' <= c <= '9'
    ensures [c] in Numbers && Numbers[[c]] == [c]
  {
  }

  lemma DigitKey(c: char)
    requires '0' <= c <= '9'
    ensures [c] in KeyMapping && KeyMapping[[c]] == [c]
  {
    DigitSection(c);
    NotAFunctionKeyName([c]);
    LookupInLastSection(Letters, Numbers, [c]);
    LookupSkipsSection(Letters + Numbers, FunctionKeys, [c]);
    LookupShortName([c]);
  }

  /** Every digit key maps to itself. */
  lemma DigitsMapToThemselves()
    ensures forall c :: '0' <= c <= '9' ==> [c] in KeyMapping && KeyMapping[[c]] == [c]
  {
    forall c | '0' <= c <= '9' ensures [c] in KeyMapping && KeyMapping[[c]] == [c] {
      DigitKey(c);
    }
  }

  // ---------------------------------------------------------------- function keys

  lemma FunctionKeys1to9(n: nat)
    requires 1 <= n <= 9
    ensures FunctionKeyName(n) in FunctionKeys && FunctionKeys[FunctionKeyName(n)] == Lower(FunctionKeyName(n))
  {
  }

  lemma FunctionKeys10to16(n: nat)
    requires 10 <= n <= 16
    ensures FunctionKeyName(n) in FunctionKeys && FunctionKeys[FunctionKeyName(n)] == Lower(FunctionKeyName(n))
  {
  }

  lemma FunctionKeys17to24(n: nat)
    requires 17 <= n <= 24
    ensures FunctionKeyName(n) in FunctionKeys && FunctionKeys[FunctionKeyName(n)] == Lower(FunctionKeyName(n))
  {
  }

  lemma FunctionKeyInShortNames(n: nat)
    requires 1 <= n <= 24
    ensures FunctionKeyName(n) in ShortNames && ShortNames[FunctionKeyName(n)] == Lower(FunctionKeyName(n))
  {
    if n <= 9 { FunctionKeys1to9(n); } else if n <= 16 { FunctionKeys10to16(n); } else { FunctionKeys17to24(n); }
    LookupInLastSection(Letters + Numbers, FunctionKeys, FunctionKeyName(n));
  }

  lemma FunctionKey(n: nat)
    requires 1 <= n <= 24
    ensures FunctionKeyName(n) in KeyMapping && KeyMapping[FunctionKeyName(n)] == Lower(FunctionKeyName(n))
  {
    var k := FunctionKeyName(n);
    assert !IsLongName(k);
    FunctionKeyInShortNames(n);
    LookupShortName(k);
  }

  /** Function keys F1 to F24 map to the same name in lower case, f1 to f24. */
  lemma FunctionKeysMapToLowerCase()
    ensures forall n :: 1 <= n <= 24 ==>
      FunctionKeyName(n) in KeyMapping && KeyMapping[FunctionKeyName(n)] == Lower(FunctionKeyName(n))
  {
    forall n | 1 <= n <= 24
      ensures FunctionKeyName(n) in KeyMapping && KeyMapping[FunctionKeyName(n)] == Lower(FunctionKeyName(n))
    {
      FunctionKey(n);
    }
  }

  // ---------------------------------------------------------------- aliases and directions

  /** Every number-pad key name begins with N. */
  lemma NumberPadNames()
    ensures forall k :: k in NumberPad ==> |k| > 0 && k[0] == 'N'
  {
  }

  lemma EscapeNamesInSpecialKeys()
    ensures "ESC" in SpecialKeys && SpecialKeys["ESC"] == "esc"
    ensures "ESCAPE" in SpecialKeys && SpecialKeys["ESCAPE"] == "esc"
  {
  }

  lemma AliasNamesInPunctuation()
    ensures "ENTER" in Punctuation && Punctuation["ENTER"] == "ret"
    ensures "RETURN" in Punctuation && Punctuation["RETURN"] == "ret"
    ensures "PERIOD" in Punctuation && Punctuation["PERIOD"] == "dot"
    ensures "DOT" in Punctuation && Punctuation["DOT"] == "dot"
    ensures "FULLSTOP" in Punctuation && Punctuation["FULLSTOP"] == "dot"
    ensures "COLON" in Punctuation && Punctuation["COLON"] == "semicolon"
    ensures "SEMICOLON" in Punctuation && Punctuation["SEMICOLON"] == "semicolon"
  {
  }

  lemma EscapeNamesNotInPunctuation()
    ensures "ESC" !in Punctuation && "ESCAPE" !in Punctuation
  {
  }

  lemma NamesNotInLayout()
    ensures "ESC" !in Layout && "ESCAPE" !in Layout
    ensures "ENTER" !in Layout && "RETURN" !in Layout
    ensures "PERIOD" !in Layout && "DOT" !in Layout && "FULLSTOP" !in Layout
    ensures "COLON" !in Layout && "SEMICOLON" !in Layout
  {
  }

  lemma NamesNotInNumberPad()
    ensures "ESC" !in NumberPad && "ESCAPE" !in NumberPad
    ensures "ENTER" !in NumberPad && "RETURN" !in NumberPad
    ensures "PERIOD" !in NumberPad && "DOT" !in NumberPad && "FULLSTOP" !in NumberPad
    ensures "COLON" !in NumberPad && "SEMICOLON" !in NumberPad
  {
    NumberPadNames();
  }

  lemma DirectionNamesInNavigation()
    ensures "UP" in Navigation && Navigation["UP"] == "up"
    ensures "DOWN" in Navigation && Navigation["DOWN"] == "down"
    ensures "LEFT" in Navigation && Navigation["LEFT"] == "left"
    ensures "RIGHT" in Navigation && Navigation["RIGHT"] == "right"
  {
  }

  lemma EscapeNamesNotInNavigation()
    ensures "ESC" !in Navigation && "ESCAPE" !in Navigation
    ensures "ENTER" !in Navigation && "RETURN" !in Navigation
  {
  }

  lemma StopNamesNotInNavigation()
    ensures "PERIOD" !in Navigation && "DOT" !in Navigation && "FULLSTOP" !in Navigation
    ensures "COLON" !in Navigation && "SEMICOLON" !in Navigation
  {
  }

  lemma NamesNotInMediaKeys()
    ensures "ESC" !in MediaKeys && "ESCAPE" !in MediaKeys
    ensures "ENTER" !in MediaKeys && "RETURN" !in MediaKeys
    ensures "PERIOD" !in MediaKeys && "DOT" !in MediaKeys && "FULLSTOP" !in MediaKeys
    ensures "COLON" !in MediaKeys && "SEMICOLON" !in MediaKeys
    ensures "UP" !in MediaKeys && "DOWN" !in MediaKeys && "LEFT" !in MediaKeys && "RIGHT" !in MediaKeys
  {
  }

  lemma EscapeNamesNotInOtherKeys()
    ensures "ESC" !in OtherKeys && "ESCAPE" !in OtherKeys
    ensures "ENTER" !in OtherKeys && "RETURN" !in OtherKeys
  {
  }

  lemma StopNamesNotInOtherKeys()
    ensures "PERIOD" !in OtherKeys && "DOT" !in OtherKeys && "FULLSTOP" !in OtherKeys
  {
  }

  lemma ColonNamesNotInOtherKeys()
    ensures "COLON" !in OtherKeys && "SEMICOLON" !in OtherKeys
  {
  }

  lemma DirectionNamesNotInOtherKeys()
    ensures "UP" !in OtherKeys && "DOWN" !in OtherKeys
    ensures "LEFT" !in OtherKeys && "RIGHT" !in OtherKeys
  {
  }

  /** A key of a section after the function keys is looked up in that rest of the table. */
  lemma LookupLongName(k: string)
    requires k in LongNames
    ensures k in KeyMapping && KeyMapping[k] == LongNames[k]
  {
    LookupInLastSection(ShortNames, LongNames, k);
  }

  /** A special key that no later section holds. */
  lemma LookupInSpecialKeys(k: string)
    requires k in SpecialKeys
    requires k !in Punctuation && k !in Layout && k !in NumberPad && k !in Navigation && k !in MediaKeys && k !in OtherKeys
    ensures k in KeyMapping && KeyMapping[k] == SpecialKeys[k]
  {
    var m := SpecialKeys;
    LookupSkipsSection(m, Punctuation, k);
    m := m + Punctuation;
    LookupSkipsSection(m, Layout, k);
    m := m + Layout;
    LookupSkipsSection(m, NumberPad, k);
    m := m + NumberPad;
    LookupSkipsSection(m, Navigation, k);
    m := m + Navigation;
    LookupSkipsSection(m, MediaKeys, k);
    m := m + MediaKeys;
    LookupSkipsSection(m, OtherKeys, k);
    LookupLongName(k);
  }

  /** A punctuation key that no later section holds. */
  lemma LookupInPunctuation(k: string)
    requires k in Punctuation
    requires k !in Layout && k !in NumberPad && k !in Navigation && k !in MediaKeys && k !in OtherKeys
    ensures k in KeyMapping && KeyMapping[k] == Punctuation[k]
  {
    var m := SpecialKeys + Punctuation;
    LookupInLastSection(SpecialKeys, Punctuation, k);
    LookupSkipsSection(m, Layout, k);
    m := m + Layout;
    LookupSkipsSection(m, NumberPad, k);
    m := m + NumberPad;
    LookupSkipsSection(m, Navigation, k);
    m := m + Navigation;
    LookupSkipsSection(m, MediaKeys, k);
    m := m + MediaKeys;
    LookupSkipsSection(m, OtherKeys, k);
    LookupLongName(k);
  }

  /** A navigation key that no later section holds. */
  lemma LookupInNavigation(k: string)
    requires k in Navigation && k !in MediaKeys && k !in OtherKeys
    ensures k in KeyMapping && KeyMapping[k] == Navigation[k]
  {
    var m := SpecialKeys + Punctuation + Layout + NumberPad;
    LookupInLastSection(m, Navigation, k);
    LookupSkipsSection(m + Navigation, MediaKeys, k);
    LookupSkipsSection(m + Navigation + MediaKeys, OtherKeys, k);
    LookupLongName(k);
  }

  /** The key table is not injective: ESC and ESCAPE share the code "esc". */
  lemma EscapeAliases()
    ensures "ESC" in KeyMapping && KeyMapping["ESC"] == "esc"
    ensures "ESCAPE" in KeyMapping && KeyMapping["ESCAPE"] == "esc"
  {
    EscapeNamesInSpecialKeys();
    EscapeNamesNotInPunctuation();
    NamesNotInLayout();
    NamesNotInNumberPad();
    EscapeNamesNotInNavigation();
    NamesNotInMediaKeys();
    EscapeNamesNotInOtherKeys();
    LookupInSpecialKeys("ESC");
    LookupInSpecialKeys("ESCAPE");
  }

  /** ENTER and RETURN share the code "ret". */
  lemma EnterAliases()
    ensures "ENTER" in KeyMapping && KeyMapping["ENTER"] == "ret"
    ensures "RETURN" in KeyMapping && KeyMapping["RETURN"] == "ret"
  {
    AliasNamesInPunctuation();
    NamesNotInLayout();
    NamesNotInNumberPad();
    EscapeNamesNotInNavigation();
    NamesNotInMediaKeys();
    EscapeNamesNotInOtherKeys();
    LookupInPunctuation("ENTER");
    LookupInPunctuation("RETURN");
  }

  /** PERIOD, DOT and FULLSTOP share the code "dot". */
  lemma FullStopAliases()
    ensures "PERIOD" in KeyMapping && KeyMapping["PERIOD"] == "dot"
    ensures "DOT" in KeyMapping && KeyMapping["DOT"] == "dot"
    ensures "FULLSTOP" in KeyMapping && KeyMapping["FULLSTOP"] == "dot"
  {
    AliasNamesInPunctuation();
    NamesNotInLayout();
    NamesNotInNumberPad();
    StopNamesNotInNavigation();
    NamesNotInMediaKeys();
    StopNamesNotInOtherKeys();
    LookupInPunctuation("PERIOD");
    LookupInPunctuation("DOT");
    LookupInPunctuation("FULLSTOP");
  }

  /** COLON is an alias of SEMICOLON: both have the code "semicolon". */
  lemma ColonAliases()
    ensures "COLON" in KeyMapping && KeyMapping["COLON"] == "semicolon"
    ensures "SEMICOLON" in KeyMapping && KeyMapping["SEMICOLON"] == "semicolon"
  {
    AliasNamesInPunctuation();
    NamesNotInLayout();
    NamesNotInNumberPad();
    StopNamesNotInNavigation();
    NamesNotInMediaKeys();
    ColonNamesNotInOtherKeys();
    LookupInPunctuation("COLON");
    LookupInPunctuation("SEMICOLON");
  }

  /** No reverse lookup recovers every key name from its code: whatever name it gives for "esc", ESC or ESCAPE is read back wrongly. */
  lemma NoReverseLookup(reverse: string -> string)
    ensures "ESC" in KeyMapping && "ESCAPE" in KeyMapping
    ensures reverse(KeyMapping["ESC"]) != "ESC" || reverse(KeyMapping["ESCAPE"]) != "ESCAPE"
  {
    EscapeAliases();
  }

  /** The four direction names are navigation keys, each mapped to its lower-case form. */
  lemma DirectionKeys()
    ensures "UP" in KeyMapping && KeyMapping["UP"] == "up"
    ensures "DOWN" in KeyMapping && KeyMapping["DOWN"] == "down"
    ensures "LEFT" in KeyMapping && KeyMapping["LEFT"] == "left"
    ensures "RIGHT" in KeyMapping && KeyMapping["RIGHT"] == "right"
  {
    DirectionNamesInNavigation();
    NamesNotInMediaKeys();
    DirectionNamesNotInOtherKeys();
    LookupInNavigation("UP");
    LookupInNavigation("DOWN");
    LookupInNavigation("LEFT");
    LookupInNavigation("RIGHT");
  }

  // ---------------------------------------------------------------- mouse buttons and scrolling

  /** The button table has exactly the names LEFT, RIGHT and MIDDLE, each mapped to its lower-case form. */
  lemma MouseButtonTable()
    ensures MouseButtonMapping.Keys == {"LEFT", "RIGHT", "MIDDLE"} && |MouseButtonMapping| == 3
    ensures forall b :: b in MouseButtonMapping ==> MouseButtonMapping[b] == Lower(b)
  {
    assert Lower("LEFT") == "left";
    assert Lower("RIGHT") == "right";
    assert Lower("MIDDLE") == "middle";
  }

  lemma ScrollCodes()
    ensures "UP" in ScrollMapping && ScrollMapping["UP"] == "wheel-up"
    ensures "DOWN" in ScrollMapping && ScrollMapping["DOWN"] == "wheel-down"
    ensures "LEFT" in ScrollMapping && ScrollMapping["LEFT"] == "wheel-left"
    ensures "RIGHT" in ScrollMapping && ScrollMapping["RIGHT"] == "wheel-right"
    ensures ScrollMapping.Keys == {"UP", "DOWN", "LEFT", "RIGHT"}
  {
  }

  lemma DirectionNamesInLowerCase()
    ensures Lower("UP") == "up" && Lower("DOWN") == "down" && Lower("LEFT") == "left" && Lower("RIGHT") == "right"
  {
    assert Lower("UP") == "up";
    assert Lower("DOWN") == "down";
    assert Lower("LEFT") == "left";
    assert Lower("RIGHT") == "right";
  }

  /** The scroll table has exactly four directions, each mapped to "wheel-" and the direction in lower case. */
  lemma ScrollTable()
    ensures ScrollMapping.Keys == {"UP", "DOWN", "LEFT", "RIGHT"} && |ScrollMapping| == 4
    ensures forall d :: d in ScrollMapping ==> ScrollMapping[d] == "wheel-" + Lower(d)
  {
    ScrollCodes();
    DirectionNamesInLowerCase();
    assert "wheel-" + "up" == "wheel-up";
    assert "wheel-" + "down" == "wheel-down";
    assert "wheel-" + "left" == "wheel-left";
    assert "wheel-" + "right" == "wheel-right";
  }

  /** Every name of `other` is also a name of `keys`, with a different code. */
  predicate SharedNamesDiffer(keys: map<string, string>, other: map<string, string>) {
    forall d :: d in other ==> d in keys && keys[d] != other[d]
  }

  lemma DirectionCodesDiffer(keys: map<string, string>, scroll: map<string, string>)
    requires scroll.Keys == {"UP", "DOWN", "LEFT", "RIGHT"}
    requires "UP" in keys && keys["UP"] == "up" && scroll["UP"] == "wheel-up"
    requires "DOWN" in keys && keys["DOWN"] == "down" && scroll["DOWN"] == "wheel-down"
    requires "LEFT" in keys && keys["LEFT"] == "left" && scroll["LEFT"] == "wheel-left"
    requires "RIGHT" in keys && keys["RIGHT"] == "right" && scroll["RIGHT"] == "wheel-right"
    ensures SharedNamesDiffer(keys, scroll)
  {
  }

  /**
   * Every scroll direction is also a key name, with a different code: a name alone
   * does not say which table it belongs to, so lookups are table-specific.
   */
  lemma ScrollNamesAreKeyNames()
    ensures SharedNamesDiffer(KeyMapping, ScrollMapping)
  {
    DirectionKeys();
    ScrollCodes();
    DirectionCodesDiffer(KeyMapping, ScrollMapping);
  }

  lemma ButtonCodes()
    ensures "LEFT" in MouseButtonMapping && MouseButtonMapping["LEFT"] == "left"
    ensures "RIGHT" in MouseButtonMapping && MouseButtonMapping["RIGHT"] == "right"
  {
  }

  /** The button names LEFT and RIGHT are key names too, with the same code strings. */
  lemma ButtonNamesAreKeyNames()
    ensures "LEFT" in KeyMapping && "LEFT" in MouseButtonMapping && KeyMapping["LEFT"] == MouseButtonMapping["LEFT"]
    ensures "RIGHT" in KeyMapping && "RIGHT" in MouseButtonMapping && KeyMapping["RIGHT"] == MouseButtonMapping["RIGHT"]
  {
    DirectionKeys();
    ButtonCodes();
  }
}
