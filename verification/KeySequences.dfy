/** Key bindings as text: events written as "ctrl-shift-alt-key", sequences as "<key1><key2>". */
module KeySequences {
  import opened Decimals
  import opened Wrappers

  /** The three modifiers text knows, and whether any other is set. */
  datatype Modifiers = Modifiers(control: bool, shift: bool, alt: bool, other: bool) {
    function Union(m: Modifiers): Modifiers
    {
      Modifiers(control || m.control, shift || m.shift, alt || m.alt, other || m.other)
    }
  }

  const NONE: Modifiers := Modifiers(false, false, false, false)

  /** `Unnamed` are the keys that are written as nothing. */
  datatype KeyCode =
    | Esc | Enter | Left | Right | Up | Down | Home | End | PageUp | PageDown
    | Tab | BackTab | Backspace | Delete | Insert
    | F(n: nat) | Char(c: char) | Unnamed

  datatype KeyEvent = KeyEvent(code: KeyCode, modifiers: Modifiers)

  // ---- characters ----

  predicate IsAscii(c: char) { c < 128 as char }
  predicate IsUpper(c: char) { 'A' <= c <= 'Z' }
  predicate IsLower(c: char) { 'a' <= c <= 'z' }

  function ToLower(c: char): char { if IsUpper(c) then c + 32 as char else c }
  function ToUpper(c: char): char { if IsLower(c) then c - 32 as char else c }

  function Lowercase(s: string): string
  {
    seq(|s|, i requires 0 <= i < |s| => ToLower(s[i]))
  }

  // ---- reading an event ----

  datatype Modifier = Ctrl | Alt | Shift {
    function Name(): string
    {
      match this case Ctrl => "ctrl" case Alt => "alt" case Shift => "shift"
    }

    function Text(): string
    {
      match this case Ctrl => "ctrl-" case Alt => "alt-" case Shift => "shift-"
    }

    function Set(): Modifiers
    {
      match this
      case Ctrl => NONE.(control := true)
      case Alt => NONE.(alt := true)
      case Shift => NONE.(shift := true)
    }
  }

  /** The modifier the text starts with, if any. */
  function Leading(s: string): Option<Modifier>
  {
    if "ctrl-" <= s then Some(Ctrl)
    else if "alt-" <= s then Some(Alt)
    else if "shift-" <= s then Some(Shift)
    else None
  }

  function Extract(s: string): (string, Modifiers)
    decreases |s|
  {
    match Leading(s)
    case None => (s, NONE)
    case Some(m) =>
      var (rest, modifiers) := Extract(s[|m.Text()|..]);
      (rest, m.Set().Union(modifiers))
  }

  /** The loop ends, however many prefixes there are. */
  method ExtractModifiers(raw: string) returns (current: string, modifiers: Modifiers)
    ensures (current, modifiers) == Extract(raw)
    ensures Leading(current).None?
  {
    modifiers, current := NONE, raw;
    while Leading(current).Some?
      invariant Extract(raw) == Added(modifiers, Extract(current))
      decreases |current|
    {
      var m := Leading(current).value;
      ExtractStep(current, m);
      modifiers, current := modifiers.Union(m.Set()), current[|m.Text()|..];
    }
  }

  function Added(m: Modifiers, e: (string, Modifiers)): (string, Modifiers)
  {
    (e.0, m.Union(e.1))
  }

  lemma ExtractStep(s: string, m: Modifier)
    requires Leading(s) == Some(m)
    ensures m.Text() <= s && 0 < |m.Text()| <= |s|
    ensures Extract(s) == Added(m.Set(), Extract(s[|m.Text()|..]))
  {
  }

  function Named(s: string): Option<KeyCode>
  {
    if s == "esc" then Some(Esc) else if s == "enter" then Some(Enter)
    else if s == "left" then Some(Left) else if s == "right" then Some(Right)
    else if s == "up" then Some(Up) else if s == "down" then Some(Down)
    else if s == "home" then Some(Home) else if s == "end" then Some(End)
    else if s == "pageup" then Some(PageUp) else if s == "pagedown" then Some(PageDown)
    else if s == "backtab" then Some(BackTab) else if s == "backspace" then Some(Backspace)
    else if s == "delete" then Some(Delete) else if s == "insert" then Some(Insert)
    else if s == "f1" then Some(F(1)) else if s == "f2" then Some(F(2)) else if s == "f3" then Some(F(3))
    else if s == "f4" then Some(F(4)) else if s == "f5" then Some(F(5)) else if s == "f6" then Some(F(6))
    else if s == "f7" then Some(F(7)) else if s == "f8" then Some(F(8)) else if s == "f9" then Some(F(9))
    else if s == "f10" then Some(F(10)) else if s == "f11" then Some(F(11)) else if s == "f12" then Some(F(12))
    else if s == "space" then Some(Char(' ')) else if s == "hyphen" || s == "minus" then Some(Char('-'))
    else if s == "tab" then Some(Tab)
    else None
  }

  /** A key code is a name or a single byte. */
  function ParseKeyCode(raw: string, modifiers: Modifiers): Option<KeyEvent>
  {
    match Named(raw)
    case Some(BackTab) => Some(KeyEvent(BackTab, modifiers.(shift := true)))
    case Some(code) => Some(KeyEvent(code, modifiers))
    case None =>
      if |raw| == 1 && IsAscii(raw[0]) then
        Some(KeyEvent(Char(if modifiers.shift then ToUpper(raw[0]) else raw[0]), modifiers))
      else None
  }

  function ParseKeyEvent(raw: string): Option<KeyEvent>
  {
    var (rest, modifiers) := Extract(Lowercase(raw));
    ParseKeyCode(rest, modifiers)
  }

  // ---- writing an event ----

  function CodeText(code: KeyCode): string
  {
    match code
    case Backspace => "backspace" case Enter => "enter"
    case Left => "left" case Right => "right" case Up => "up" case Down => "down"
    case Home => "home" case End => "end" case PageUp => "pageup" case PageDown => "pagedown"
    case Tab => "tab" case BackTab => "backtab" case Delete => "delete" case Insert => "insert"
    case F(n) => "f(" + Decimal(n) + ")"
    case Char(c) => if c == ' ' then "space" else [c]
    case Esc => "esc"
    case Unnamed => ""
  }

  /** The modifiers of an event in the order they are written. */
  function Listed(m: Modifiers): seq<Modifier>
  {
    (if m.control then [Ctrl] else []) + (if m.shift then [Shift] else []) + (if m.alt then [Alt] else [])
  }

  function Names(modifiers: seq<Modifier>): seq<string>
  {
    seq(|modifiers|, i requires 0 <= i < |modifiers| => modifiers[i].Name())
  }

  function Join(parts: seq<string>, separator: string): string
  {
    if parts == [] then "" else if |parts| == 1 then parts[0]
    else parts[0] + separator + Join(parts[1..], separator)
  }

  function KeyEventToString(e: KeyEvent): string
  {
    var key := Join(Names(Listed(e.modifiers)), "-");
    (if key == "" then key else key + "-") + CodeText(e.code)
  }

  // ---- modifiers in any order ----

  function Written(modifiers: seq<Modifier>): string
  {
    if modifiers == [] then "" else modifiers[0].Text() + Written(modifiers[1..])
  }

  function SetOf(modifiers: seq<Modifier>): Modifiers
  {
    if modifiers == [] then NONE else modifiers[0].Set().Union(SetOf(modifiers[1..]))
  }

  lemma ExtractOne(m: Modifier, rest: string)
    ensures Extract(m.Text() + rest) == Added(m.Set(), Extract(rest))
  {
    var s := m.Text() + rest;
    assert s[|m.Text()|..] == rest;
    assert s[0] == m.Text()[0];
    assert Leading(s) == Some(m) by {
      assert m.Text() <= s;
      assert "ctrl-"[0] == 'c' && "alt-"[0] == 'a' && "shift-"[0] == 's';
    }
  }

  lemma WrittenSplits(modifiers: seq<Modifier>, rest: string)
    requires modifiers != []
    ensures Written(modifiers) + rest == modifiers[0].Text() + (Written(modifiers[1..]) + rest)
  {
  }

  /** Any modifiers in front, in any order and repeated or not, are taken off and united. */
  lemma {:induction false} ExtractAll(modifiers: seq<Modifier>, rest: string)
    ensures Extract(Written(modifiers) + rest) == Added(SetOf(modifiers), Extract(rest))
    decreases |modifiers|
  {
    if modifiers == [] {
      assert Written(modifiers) + rest == rest;
    } else {
      var tail := Written(modifiers[1..]) + rest;
      WrittenSplits(modifiers, rest);
      assert Extract(tail) == Added(SetOf(modifiers[1..]), Extract(rest)) by {
        ExtractAll(modifiers[1..], rest);
      }
      assert Extract(Written(modifiers) + rest) == Added(modifiers[0].Set(), Extract(tail)) by {
        ExtractOne(modifiers[0], tail);
      }
    }
  }

  lemma {:induction false} SetOfHas(modifiers: seq<Modifier>)
    ensures SetOf(modifiers) == Modifiers(Ctrl in modifiers, Shift in modifiers, Alt in modifiers, false)
    decreases |modifiers|
  {
    if modifiers != [] {
      SetOfHas(modifiers[1..]);
    }
  }

  /** Texts with the same modifiers in another order are read alike. */
  lemma OrderDoesNotMatter(a: seq<Modifier>, b: seq<Modifier>, rest: string)
    requires forall m :: m in a <==> m in b
    ensures Extract(Written(a) + rest) == Extract(Written(b) + rest)
  {
    ExtractAll(a, rest);
    ExtractAll(b, rest);
    SetOfHas(a);
    SetOfHas(b);
  }

  // ---- an event written and read back ----

  lemma {:induction false} JoinIsWritten(modifiers: seq<Modifier>)
    requires modifiers != []
    ensures Join(Names(modifiers), "-") + "-" == Written(modifiers) && Join(Names(modifiers), "-") != ""
    decreases |modifiers|
  {
    var m := modifiers[0];
    assert m.Name() + "-" == m.Text() && m.Name() != "";
    if |modifiers| > 1 {
      JoinIsWritten(modifiers[1..]);
      assert Names(modifiers)[1..] == Names(modifiers[1..]);
      assert Join(Names(modifiers), "-") == m.Name() + "-" + Join(Names(modifiers[1..]), "-");
    } else {
      assert Written(modifiers) == m.Text() + Written(modifiers[1..]);
      assert Written(modifiers[1..]) == "";
    }
  }

  lemma TextIs(e: KeyEvent)
    ensures KeyEventToString(e) == Written(Listed(e.modifiers)) + CodeText(e.code)
  {
    if Listed(e.modifiers) != [] {
      JoinIsWritten(Listed(e.modifiers));
    }
  }

  lemma LowercaseConcat(a: string, b: string)
    ensures Lowercase(a + b) == Lowercase(a) + Lowercase(b)
  {
  }

  lemma {:induction false} WrittenIsLowercase(modifiers: seq<Modifier>)
    ensures Lowercase(Written(modifiers)) == Written(modifiers)
    decreases |modifiers|
  {
    if modifiers != [] {
      WrittenIsLowercase(modifiers[1..]);
      LowercaseConcat(modifiers[0].Text(), Written(modifiers[1..]));
    }
  }

  lemma CodeIsNoModifier(code: KeyCode)
    ensures Leading(Lowercase(CodeText(code))).None?
  {
    var s := Lowercase(CodeText(code));
    if |s| >= 2 {
      assert s[0] == ToLower(CodeText(code)[0]) && s[1] == ToLower(CodeText(code)[1]);
      assert s[0] != 'c' && s[0] != 'a' && (s[0] == 's' ==> s[1] == 'p');
    }
    assert "ctrl-"[0] == 'c' && "alt-"[0] == 'a' && "shift-"[0] == 's' && "shift-"[1] == 'h';
  }

  /** Reading back what was written gives the lower-case key code with the modifiers text knows. */
  lemma ReadBack(e: KeyEvent)
    ensures ParseKeyEvent(KeyEventToString(e))
         == ParseKeyCode(Lowercase(CodeText(e.code)), e.modifiers.(other := false))
  {
    var modifiers, code := Listed(e.modifiers), CodeText(e.code);
    TextIs(e);
    LowercaseConcat(Written(modifiers), code);
    WrittenIsLowercase(modifiers);
    CodeIsNoModifier(e.code);
    ExtractAll(modifiers, Lowercase(code));
    SetOfHas(modifiers);
  }

  /** The events that text can carry. */
  predicate Canonical(e: KeyEvent)
  {
    && !e.modifiers.other
    && match e.code
       case F(_) => false
       case Unnamed => false
       case BackTab => e.modifiers.shift
       case Char(c) => IsAscii(c) && (IsUpper(c) ==> e.modifiers.shift) && (IsLower(c) ==> !e.modifiers.shift)
       case _ => true
  }

  lemma NamesAreLong(s: string)
    requires Named(s).Some?
    ensures |s| >= 2 && s[1] != '('
  {
  }

  lemma CharReadsBackIff(c: char, m: Modifiers)
    ensures ParseKeyCode(Lowercase(CodeText(Char(c))), m) == Some(KeyEvent(Char(c), m)) <==>
            IsAscii(c) && (IsUpper(c) ==> m.shift) && (IsLower(c) ==> !m.shift)
  {
    var s := Lowercase(CodeText(Char(c)));
    if c == ' ' {
      assert s == "space";
    } else {
      assert s == [ToLower(c)];
      if Named(s).Some? {
        NamesAreLong(s);
      }
    }
  }

  lemma FunctionKeysDoNotReadBack(n: nat, m: Modifiers)
    ensures ParseKeyCode(Lowercase(CodeText(F(n))), m) == None
  {
    var t := CodeText(F(n));
    var s := Lowercase(t);
    assert t[0] == 'f' && t[1] == '(' && |t| >= 3;
    assert s[1] == '(';
    if Named(s).Some? {
      NamesAreLong(s);
    }
  }

  lemma FunctionKeyNames(n: nat, s: string)
    requires 1 <= n <= 12 && s == if n < 10 then ['f', '0' + n as char] else ['f', '1', '0' + (n - 10) as char]
    ensures Named(s) == Some(F(n))
  {
  }

  /** They are read in another spelling, "f" and the number, from one to twelve. */
  lemma FunctionKeysAreRead(n: nat)
    requires 1 <= n <= 12
    ensures Named("f" + Decimal(n)) == Some(F(n))
  {
    var s := if n < 10 then ['f', '0' + n as char] else ['f', '1', '0' + (n - 10) as char];
    FunctionKeyNames(n, s);
    assert "f" + Decimal(n) == s by {
      assert n >= 10 ==> Decimal(n / 10) == ['1'];
    }
  }

  lemma NameIsLowercase(code: KeyCode)
    requires !code.F? && !code.Char?
    ensures Lowercase(CodeText(code)) == CodeText(code)
  {
  }

  lemma NameReads(code: KeyCode)
    requires !code.F? && !code.Char? && !code.Unnamed?
    ensures Named(CodeText(code)) == Some(code)
  {
  }

  lemma CodeReadsBackIff(e: KeyEvent)
    ensures ParseKeyCode(Lowercase(CodeText(e.code)), e.modifiers.(other := false)) == Some(e) <==> Canonical(e)
  {
    var m := e.modifiers.(other := false);
    match e.code {
      case F(n) => FunctionKeysDoNotReadBack(n, m);
      case Unnamed => NameIsLowercase(e.code);
      case Char(c) => CharReadsBackIff(c, m);
      case _ =>
        NameIsLowercase(e.code);
        NameReads(e.code);
    }
  }

  /** An event survives writing and reading if and only if it is canonical: function keys never do. */
  lemma EventRoundTripIff(e: KeyEvent)
    ensures ParseKeyEvent(KeyEventToString(e)) == Some(e) <==> Canonical(e)
  {
    ReadBack(e);
    CodeReadsBackIff(e);
  }

  // ---- sequences ----

  function CountOf(s: string, c: char): nat
  {
    if s == "" then 0 else CountOf(s[1..], c) + if s[0] == c then 1 else 0
  }

  predicate HasSeparator(s: string)
  {
    exists i | 0 <= i < |s| - 1 :: s[i] == '>' && s[i + 1] == '<'
  }

  /** The parts between separators "><". */
  function Split(s: string): (parts: seq<string>)
    ensures |parts| >= 1
    decreases |s|
  {
    if |s| < 2 then [s]
    else if s[0] == '>' && s[1] == '<' then [""] + Split(s[2..])
    else
      var rest := Split(s[1..]);
      [[s[0]] + rest[0]] + rest[1..]
  }

  function StripPrefix(s: string, c: char): string
  {
    if s != "" && s[0] == c then s[1..] else s
  }

  function StripBracket(s: string): string
  {
    if s != "" && s[0] == '<' then s[1..]
    else if s != "" && s[|s| - 1] == '>' then s[..|s| - 1]
    else s
  }

  function ParseParts(parts: seq<string>): Option<seq<KeyEvent>>
  {
    if parts == [] then Some([])
    else
      var first := ParseKeyEvent(StripBracket(parts[0]));
      var rest := ParseParts(parts[1..]);
      if first.None? || rest.None? then None else Some([first.value] + rest.value)
  }

  /** What is split once the brackets are known to balance. */
  function Stripped(text: string): string
  {
    if HasSeparator(text) then text else StripPrefix(StripPrefix(text, '<'), '>')
  }

  function ParseKeySequence(raw: string): Option<seq<KeyEvent>>
  {
    if CountOf(raw, '>') != CountOf(raw, '<') then None
    else ParseParts(Split(Stripped(raw)))
  }

  /** Keys joined as in a configuration file. */
  function SequenceText(keys: seq<KeyEvent>): string
  {
    Bracketed(Texts(keys))
  }

  function Texts(keys: seq<KeyEvent>): seq<string>
  {
    seq(|keys|, i requires 0 <= i < |keys| => KeyEventToString(keys[i]))
  }

  function Bracketed(texts: seq<string>): string
  {
    if texts == [] then "" else "<" + texts[0] + ">" + Bracketed(texts[1..])
  }

  ghost predicate NoBrackets(s: string)
  {
    forall i | 0 <= i < |s| :: s[i] != '<' && s[i] != '>'
  }

  /** A bracket can only be the last character. */
  ghost predicate Tame(s: string)
  {
    forall i | 0 <= i < |s| - 1 :: s[i] != '<' && s[i] != '>'
  }

  // the texts of events

  lemma {:induction false} WrittenHasNoBrackets(modifiers: seq<Modifier>)
    ensures NoBrackets(Written(modifiers))
    decreases |modifiers|
  {
    if modifiers != [] {
      WrittenHasNoBrackets(modifiers[1..]);
    }
  }

  lemma CodeHasNoBrackets(code: KeyCode)
    requires code != Char('<') && code != Char('>')
    ensures NoBrackets(CodeText(code))
  {
    assert code.F? ==> Digits(Decimal(code.n));
  }

  predicate IsBracket(code: KeyCode) { code == Char('<') || code == Char('>') }

  lemma TextOf(e: KeyEvent)
    ensures Tame(KeyEventToString(e)) && (!IsBracket(e.code) ==> NoBrackets(KeyEventToString(e)))
    ensures IsBracket(e.code) ==> KeyEventToString(e) == Written(Listed(e.modifiers)) + [e.code.c]
  {
    WrittenHasNoBrackets(Listed(e.modifiers));
    if !IsBracket(e.code) {
      CodeHasNoBrackets(e.code);
    }
    TextIs(e);
  }

  // what is counted

  lemma {:induction false} CountConcat(a: string, b: string, c: char)
    ensures CountOf(a + b, c) == CountOf(a, c) + CountOf(b, c)
    decreases |a|
  {
    if a == "" {
      assert a + b == b;
    } else {
      CountConcat(a[1..], b, c);
      assert (a + b)[1..] == a[1..] + b;
    }
  }

  lemma CountOne(d: char, c: char)
    ensures CountOf([d], c) == if d == c then 1 else 0
  {
    assert [d][1..] == "";
    assert CountOf("", c) == 0;
  }

  lemma {:induction false} NoBracketsCountNone(s: string, c: char)
    requires NoBrackets(s) && (c == '<' || c == '>')
    ensures CountOf(s, c) == 0
    decreases |s|
  {
    if s != "" {
      NoBracketsCountNone(s[1..], c);
    }
  }

  lemma TextCounts(e: KeyEvent, c: char)
    requires c == '<' || c == '>'
    ensures CountOf(KeyEventToString(e), c) == if e.code == Char(c) then 1 else 0
  {
    var w := Written(Listed(e.modifiers));
    TextOf(e);
    if IsBracket(e.code) {
      WrittenHasNoBrackets(Listed(e.modifiers));
      NoBracketsCountNone(w, c);
      CountOne(e.code.c, c);
      CountConcat(w, [e.code.c], c);
    } else {
      NoBracketsCountNone(KeyEventToString(e), c);
    }
  }

  /** How many of the keys are this character. */
  function KeysOf(keys: seq<KeyEvent>, c: char): nat
  {
    if keys == [] then 0 else KeysOf(keys[1..], c) + if keys[0].code == Char(c) then 1 else 0
  }

  lemma BracketedCounts(e: KeyEvent, c: char)
    requires c == '<' || c == '>'
    ensures CountOf("<" + KeyEventToString(e) + ">", c) == 1 + if e.code == Char(c) then 1 else 0
  {
    var k := KeyEventToString(e);
    TextCounts(e, c);
    CountConcat("<" + k, ">", c);
    CountConcat("<", k, c);
    CountOne('<', c);
    CountOne('>', c);
  }

  lemma {:induction false} SequenceCounts(keys: seq<KeyEvent>, c: char)
    requires c == '<' || c == '>'
    ensures CountOf(SequenceText(keys), c) == |keys| + KeysOf(keys, c)
    decreases |keys|
  {
    if keys != [] {
      var first, rest := "<" + KeyEventToString(keys[0]) + ">", SequenceText(keys[1..]);
      assert Texts(keys)[1..] == Texts(keys[1..]);
      BracketedCounts(keys[0], c);
      SequenceCounts(keys[1..], c);
      CountConcat(first, rest, c);
    }
  }

  // how it splits

  /** The texts with separators between them and the bracket that ends the last. */
  function Inner(texts: seq<string>): string
    requires texts != []
  {
    if |texts| == 1 then texts[0] + ">" else texts[0] + "><" + Inner(texts[1..])
  }

  lemma {:induction false} BracketedIs(texts: seq<string>)
    requires texts != []
    ensures Bracketed(texts) == "<" + Inner(texts)
    decreases |texts|
  {
    if |texts| == 1 {
      assert Bracketed(texts[1..]) == "";
    } else {
      BracketedIs(texts[1..]);
      assert "<" + texts[0] + ">" + ("<" + Inner(texts[1..])) == "<" + (texts[0] + "><" + Inner(texts[1..]));
    }
  }

  lemma {:induction false} SplitAt(a: string, rest: string)
    requires forall i | 0 <= i < |a| - 1 :: a[i] != '>'
    ensures Split(a + "><" + rest) == [a] + Split(rest)
    decreases |a|
  {
    var s := a + "><" + rest;
    if a == "" {
      assert s[2..] == rest;
    } else {
      SplitAt(a[1..], rest);
      assert s[1..] == a[1..] + "><" + rest;
      assert a == [a[0]] + a[1..];
    }
  }

  lemma {:induction false} SplitNone(a: string)
    requires forall i | 0 <= i < |a| - 1 :: a[i] != '>'
    ensures Split(a + ">") == [a + ">"]
    decreases |a|
  {
    if a != "" {
      SplitNone(a[1..]);
      assert (a + ">")[1..] == a[1..] + ">";
      assert a + ">" == [a[0]] + (a[1..] + ">");
    }
  }

  /** The parts are the texts, with a bracket left after the last. */
  ghost predicate InnerParts(parts: seq<string>, texts: seq<string>)
  {
    && |parts| == |texts|
    && forall i | 0 <= i < |texts| :: parts[i] == if i < |texts| - 1 then texts[i] else texts[i] + ">"
  }

  /** Where the text of a key ends up: with a bracket left in front of the first and after the last. */
  function PartOf(text: string, i: nat, n: nat): string
  {
    if i == 0 then "<" + text else if i < n - 1 then text else text + ">"
  }

  ghost predicate OuterParts(parts: seq<string>, texts: seq<string>)
  {
    |parts| == |texts| && forall i | 0 <= i < |texts| :: parts[i] == PartOf(texts[i], i, |texts|)
  }

  lemma InnerPartsGrow(parts: seq<string>, texts: seq<string>)
    requires |texts| >= 2 && InnerParts(parts, texts[1..])
    ensures InnerParts([texts[0]] + parts, texts)
  {
  }

  lemma {:induction false} InnerSplits(texts: seq<string>)
    requires texts != [] && forall i | 0 <= i < |texts| :: Tame(texts[i])
    ensures InnerParts(Split(Inner(texts)), texts)
    decreases |texts|
  {
    assert Tame(texts[0]);
    if |texts| == 1 {
      SplitNone(texts[0]);
    } else {
      assert InnerParts(Split(Inner(texts[1..])), texts[1..]) by {
        InnerSplits(texts[1..]);
      }
      SplitAt(texts[0], Inner(texts[1..]));
      InnerPartsGrow(Split(Inner(texts[1..])), texts);
    }
  }

  lemma OpeningParts(a: string, parts: seq<string>, texts: seq<string>)
    requires |texts| >= 2 && InnerParts(parts, texts[1..]) && a == "<" + texts[0]
    ensures OuterParts([a] + parts, texts)
  {
  }

  lemma JoinedSplits(texts: seq<string>, a: string, rest: string)
    requires |texts| >= 2 && a == "<" + texts[0] && InnerParts(Split(rest), texts[1..])
    requires forall i | 0 <= i < |a| - 1 :: a[i] != '>'
    ensures HasSeparator(a + "><" + rest) && OuterParts(Split(a + "><" + rest), texts)
  {
    SeparatorIsThere(a, rest);
    SplitAt(a, rest);
    OpeningParts(a, Split(rest), texts);
  }

  lemma TameOpening(text: string)
    requires Tame(text)
    ensures forall i | 0 <= i < |"<" + text| - 1 :: ("<" + text)[i] != '>'
  {
  }

  lemma BracketedOpens(texts: seq<string>)
    requires |texts| >= 2
    ensures Bracketed(texts) == "<" + texts[0] + "><" + Inner(texts[1..])
  {
    BracketedIs(texts[1..]);
  }

  /** Two or more texts come apart at the separators. */
  lemma BracketedSplits(texts: seq<string>)
    requires |texts| >= 2 && forall i | 0 <= i < |texts| :: Tame(texts[i])
    ensures HasSeparator(Bracketed(texts)) && OuterParts(Split(Bracketed(texts)), texts)
  {
    assert InnerParts(Split(Inner(texts[1..])), texts[1..]) by {
      InnerSplits(texts[1..]);
    }
    TameOpening(texts[0]);
    JoinedSplits(texts, "<" + texts[0], Inner(texts[1..]));
    BracketedOpens(texts);
  }

  lemma SeparatorIsThere(a: string, rest: string)
    ensures HasSeparator(a + "><" + rest)
  {
    var s := a + "><" + rest;
    assert s[|a|] == '>' && s[|a| + 1] == '<';
  }

  lemma SingleSplits(k: string)
    requires NoBrackets(k)
    ensures !HasSeparator("<" + k + ">")
    ensures var parts := Split(StripPrefix(StripPrefix("<" + k + ">", '<'), '>'));
            |parts| == 1 && StripBracket(parts[0]) == k
  {
    var s := "<" + k + ">";
    assert StripPrefix(s, '<') == k + ">";
    if k == "" {
      assert StripPrefix(">", '>') == "";
    } else {
      SplitNone(k);
      assert (k + ">")[..|k|] == k;
    }
  }

  // what each part is read as

  /** The event has none of the modifiers that are written. */
  predicate Plain(e: KeyEvent)
  {
    !e.modifiers.control && !e.modifiers.shift && !e.modifiers.alt
  }

  lemma ModifiersAlone(modifiers: seq<Modifier>)
    ensures ParseKeyEvent(Written(modifiers)) == None
  {
    assert Written(modifiers) + "" == Written(modifiers);
    WrittenIsLowercase(modifiers);
    ExtractAll(modifiers, "");
  }

  lemma WrittenStarts(modifiers: seq<Modifier>)
    ensures Written(modifiers) == "" <==> modifiers == []
    ensures Written(modifiers) != "" ==> Written(modifiers)[0] != '<'
  {
    WrittenHasNoBrackets(modifiers);
  }

  lemma FirstRead(e: KeyEvent)
    ensures ParseKeyEvent(StripBracket("<" + KeyEventToString(e))) == Some(e) <==> Canonical(e)
  {
    assert StripBracket("<" + KeyEventToString(e)) == KeyEventToString(e);
    EventRoundTripIff(e);
  }

  lemma BareStrips(t: string)
    requires NoBrackets(t)
    ensures StripBracket(t) == t && StripBracket(t + ">") == t
  {
  }

  lemma MiddleRead(e: KeyEvent)
    ensures ParseKeyEvent(StripBracket(KeyEventToString(e))) == Some(e)
            <==> Canonical(e) && e.code != Char('>') && !(e.code == Char('<') && Plain(e))
  {
    var w, t := Written(Listed(e.modifiers)), KeyEventToString(e);
    TextOf(e);
    WrittenStarts(Listed(e.modifiers));
    EventRoundTripIff(e);
    if e.code == Char('>') {
      assert StripBracket(t) == w;
      ModifiersAlone(Listed(e.modifiers));
    } else if e.code == Char('<') && Plain(e) {
      assert t == "<" && StripBracket(t) == Written([]);
      ModifiersAlone([]);
    } else if e.code == Char('<') {
      assert StripBracket(t) == t;
    } else {
      BareStrips(t);
    }
  }

  lemma LastRead(e: KeyEvent)
    ensures ParseKeyEvent(StripBracket(KeyEventToString(e) + ">")) == Some(e)
            <==> Canonical(e) && !(e.code == Char('<') && Plain(e))
  {
    var t := KeyEventToString(e);
    TextOf(e);
    WrittenStarts(Listed(e.modifiers));
    EventRoundTripIff(e);
    if e.code == Char('<') && Plain(e) {
      var other := KeyEvent(Char('>'), NONE);
      assert t == "<" && StripBracket(t + ">") == ">";
      TextOf(other);
      EventRoundTripIff(other);
      assert KeyEventToString(other) == ">";
    } else if IsBracket(e.code) {
      assert (t + ">")[..|t|] == t;
    } else {
      BareStrips(t);
    }
  }

  predicate ReadAs(part: string, key: KeyEvent)
  {
    ParseKeyEvent(StripBracket(part)) == Some(key)
  }

  ghost predicate AllReadAs(parts: seq<string>, keys: seq<KeyEvent>)
  {
    |parts| == |keys| && forall i | 0 <= i < |keys| :: ReadAs(parts[i], keys[i])
  }

  lemma FirstAndRest(parts: seq<string>, keys: seq<KeyEvent>)
    requires parts != [] && keys != []
    ensures AllReadAs(parts, keys) <==> ReadAs(parts[0], keys[0]) && AllReadAs(parts[1..], keys[1..])
  {
    if AllReadAs(parts[1..], keys[1..]) {
      assert forall i | 0 < i < |keys| :: parts[i] == parts[1..][i - 1] && keys[i] == keys[1..][i - 1];
    }
  }

  lemma {:induction false} PartsParseIff(parts: seq<string>, keys: seq<KeyEvent>)
    ensures ParseParts(parts) == Some(keys) <==> AllReadAs(parts, keys)
    decreases |parts|
  {
    if parts != [] && keys != [] {
      PartsParseIff(parts[1..], keys[1..]);
      FirstAndRest(parts, keys);
      assert keys == [keys[0]] + keys[1..];
    }
  }

  // the round trip

  /** Brackets balance, '>' is first or last, and a plain '<' is first. */
  ghost predicate BracketsFit(keys: seq<KeyEvent>)
  {
    && KeysOf(keys, '<') == KeysOf(keys, '>')
    && (forall i | 0 < i < |keys| - 1 :: keys[i].code != Char('>'))
    && (forall i | 0 < i < |keys| :: !(keys[i].code == Char('<') && Plain(keys[i])))
  }

  /** What the place of a key asks of it. */
  predicate Fits(keys: seq<KeyEvent>, i: nat)
    requires i < |keys|
  {
    && Canonical(keys[i])
    && (0 < i < |keys| - 1 ==> keys[i].code != Char('>'))
    && (0 < i ==> !(keys[i].code == Char('<') && Plain(keys[i])))
  }

  lemma ManyRead(keys: seq<KeyEvent>)
    requires |keys| >= 2
    ensures HasSeparator(SequenceText(keys))
    ensures ParseParts(Split(SequenceText(keys))) == Some(keys) <==> forall i | 0 <= i < |keys| :: Fits(keys, i)
  {
    var texts, n := Texts(keys), |keys|;
    forall i | 0 <= i < n ensures Tame(texts[i]) {
      TextOf(keys[i]);
    }
    BracketedSplits(texts);
    var parts := Split(SequenceText(keys));
    forall i | 0 <= i < n ensures ReadAs(parts[i], keys[i]) <==> Fits(keys, i) {
      assert parts[i] == PartOf(KeyEventToString(keys[i]), i, n);
      PlaceFits(keys, i);
    }
    PartsParseIff(parts, keys);
  }

  lemma PlaceFits(keys: seq<KeyEvent>, i: nat)
    requires |keys| >= 2 && i < |keys|
    ensures ReadAs(PartOf(KeyEventToString(keys[i]), i, |keys|), keys[i]) <==> Fits(keys, i)
  {
    FirstRead(keys[i]);
    MiddleRead(keys[i]);
    LastRead(keys[i]);
  }

  lemma FitsIff(keys: seq<KeyEvent>)
    requires KeysOf(keys, '<') == KeysOf(keys, '>')
    ensures (forall i | 0 <= i < |keys| :: Fits(keys, i))
            <==> (forall i | 0 <= i < |keys| :: Canonical(keys[i])) && BracketsFit(keys)
  {
    if forall i | 0 <= i < |keys| :: Fits(keys, i) {
      forall i | 0 <= i < |keys|
        ensures Canonical(keys[i]) && (0 < i < |keys| - 1 ==> keys[i].code != Char('>'))
        ensures 0 < i ==> !(keys[i].code == Char('<') && Plain(keys[i]))
      {
        assert Fits(keys, i);
      }
    }
  }

  lemma OneRead(e: KeyEvent)
    requires !IsBracket(e.code)
    ensures var text := SequenceText([e]);
            && !HasSeparator(text)
            && (ParseParts(Split(StripPrefix(StripPrefix(text, '<'), '>'))) == Some([e]) <==> Canonical(e))
  {
    var k := KeyEventToString(e);
    assert Texts([e]) == [k] && Bracketed([k][1..]) == "" && Bracketed([k]) == "<" + k + ">";
    TextOf(e);
    SingleSplits(k);
    EventRoundTripIff(e);
    PartsParseIff(Split(StripPrefix(StripPrefix("<" + k + ">", '<'), '>')), [e]);
  }

  lemma NoneRead()
    ensures ParseKeySequence("") == None
  {
    assert Split("") == [""] && StripBracket("") == Written([]);
    ModifiersAlone([]);
    assert ParseParts([""]) == None;
  }

  lemma SingleRead(e: KeyEvent)
    requires KeysOf([e], '<') == KeysOf([e], '>')
    ensures BracketsFit([e]) && (ParseParts(Split(Stripped(SequenceText([e])))) == Some([e]) <==> Canonical(e))
  {
    assert KeysOf([e][1..], '<') == 0 && KeysOf([e][1..], '>') == 0;
    OneRead(e);
  }

  lemma BalancedRead(keys: seq<KeyEvent>)
    requires keys != [] && KeysOf(keys, '<') == KeysOf(keys, '>')
    ensures ParseParts(Split(Stripped(SequenceText(keys)))) == Some(keys)
            <==> (forall i | 0 <= i < |keys| :: Canonical(keys[i])) && BracketsFit(keys)
  {
    if |keys| == 1 {
      assert keys == [keys[0]];
      SingleRead(keys[0]);
    } else {
      assert ParseParts(Split(Stripped(SequenceText(keys)))) == Some(keys)
             <==> forall i | 0 <= i < |keys| :: Fits(keys, i) by {
        ManyRead(keys);
      }
      FitsIff(keys);
    }
  }

  /** A sequence of keys survives writing and reading if and only if it is not empty, its keys are canonical and its
      bracket keys balance and are where they do no harm. */
  lemma SequenceRoundTripIff(keys: seq<KeyEvent>)
    ensures ParseKeySequence(SequenceText(keys)) == Some(keys)
            <==> keys != [] && (forall i | 0 <= i < |keys| :: Canonical(keys[i])) && BracketsFit(keys)
  {
    SequenceCounts(keys, '<');
    SequenceCounts(keys, '>');
    if keys == [] {
      NoneRead();
    } else if KeysOf(keys, '<') == KeysOf(keys, '>') {
      BalancedRead(keys);
    }
  }

  /** A sequence of the key '<' alone does not survive, though the key does. */
  lemma LoneBracketIsNotRead()
    ensures var key := KeyEvent(Char('<'), Modifiers(false, false, false, false));
            ParseKeySequence(SequenceText([key])) != Some([key]) && ParseKeyEvent(KeyEventToString(key)) == Some(key)
  {
    var key := KeyEvent(Char('<'), Modifiers(false, false, false, false));
    SequenceRoundTripIff([key]);
    EventRoundTripIff(key);
    assert KeysOf([key], '<') == 1 && KeysOf([key], '>') == 0;
  }
}
