/**
 Combinations of keys as texts, and the actions they stand for.
 Lower case is that of the 26 letters.
 */
module Shortcuts {
  import opened Wrappers

  datatype ChordError = Empty | UnknownKey(text: string) | Repeated(text: string) | NeedsModifier

  datatype Modifier = Secondary | Ctrl | Alt | Shift

  /** The modifiers that are held. */
  datatype Flags = Flags(secondary: bool, ctrl: bool, alt: bool, shift: bool) {
    predicate Has(m: Modifier) {
      match m
      case Secondary => secondary
      case Ctrl => ctrl
      case Alt => alt
      case Shift => shift
    }

    function With(m: Modifier): Flags {
      match m
      case Secondary => this.(secondary := true)
      case Ctrl => this.(ctrl := true)
      case Alt => this.(alt := true)
      case Shift => this.(shift := true)
    }
  }

  const NO_FLAGS := Flags(false, false, false, false)

  datatype Chord = Chord(flags: Flags, key: string)

  // ---- text ----

  /** White space, as Unicode has it. */
  predicate IsSpace(c: char) {
    var n := c as int;
    9 <= n <= 13 || n == 0x20 || n == 0x85 || n == 0xA0 || n == 0x1680 || 0x2000 <= n <= 0x200A
    || n == 0x2028 || n == 0x2029 || n == 0x202F || n == 0x205F || n == 0x3000
  }

  function TrimStart(s: string): string {
    if s != "" && IsSpace(s[0]) then TrimStart(s[1..]) else s
  }

  function TrimEnd(s: string): string {
    if s != "" && IsSpace(s[|s| - 1]) then TrimEnd(s[..|s| - 1]) else s
  }

  function LowerChar(c: char): char {
    if 'A' <= c <= 'Z' then (c as int + 32) as char else c
  }

  function Lower(s: string): (r: string)
    ensures |r| == |s| && forall i | 0 <= i < |s| :: r[i] == LowerChar(s[i])
  {
    seq(|s|, i requires 0 <= i < |s| => LowerChar(s[i]))
  }

  predicate IsDigit(c: char) {
    '0' <= c <= '9'
  }

  predicate AllDigits(s: string) {
    forall i | 0 <= i < |s| :: IsDigit(s[i])
  }

  function Value(digits: string): nat
    requires AllDigits(digits)
  {
    if digits == "" then 0
    else
      assert IsDigit(digits[|digits| - 1]);
      Value(digits[..|digits| - 1]) * 10 + (digits[|digits| - 1] as int - '0' as int)
  }

  /** A number of 8 bits: digits, after a plus sign perhaps. */
  function ParseU8(s: string): Option<nat> {
    var digits := if |s| > 1 && s[0] == '+' then s[1..] else s;
    if digits != "" && AllDigits(digits) && Value(digits) <= 255 then
      Some(Value(digits))
    else None
  }

  // ---- keys ----

  const PLAIN_OK: seq<string> := ["up", "down", "left", "right", "home", "end", "pageup", "pagedown",
                                  "delete", "backspace", "insert"]
  const NEEDS_MODIFIER: seq<string> := ["enter", "escape", "tab"]
  const SIGNS := ",./;'[]\\-=+`"

  predicate IsFunctionKey(key: string) {
    key != "" && key[0] == 'f' && ParseU8(key[1..]).Some? && 1 <= ParseU8(key[1..]).value <= 24
  }

  predicate IsAlphanumeric(c: char) {
    IsDigit(c) || 'a' <= c <= 'z' || 'A' <= c <= 'Z'
  }

  predicate IsKey(key: string) {
    key in PLAIN_OK || key in NEEDS_MODIFIER || key == "space" || IsFunctionKey(key)
    || (|key| == 1 && (IsAlphanumeric(key[0]) || key[0] in SIGNS))
  }

  /** A typed character, and the few keys of NEEDS_MODIFIER, are refused with no modifier or Shift alone. */
  predicate Allowed(c: Chord) {
    c.flags.secondary || c.flags.ctrl || c.flags.alt || IsFunctionKey(c.key) || c.key in PLAIN_OK
  }

  // ---- reading ----

  function ModifierOf(part: string): Option<Modifier> {
    if part == "secondary" || part == "cmd" || part == "super" || part == "win" then Some(Secondary)
    else if part == "ctrl" || part == "control" then Some(Ctrl)
    else if part == "alt" || part == "option" then Some(Alt)
    else if part == "shift" then Some(Shift)
    else None
  }

  /** The parts between the dashes that are not empty. */
  function Parts(s: string): seq<string> {
    PartsFrom(s, "")
  }

  function PartsFrom(s: string, part: string): seq<string> {
    if s == "" then NotEmpty(part)
    else if s[0] == '-' then NotEmpty(part) + PartsFrom(s[1..], "")
    else PartsFrom(s[1..], part + [s[0]])
  }

  function NotEmpty(part: string): seq<string> {
    if part == "" then [] else [part]
  }

  function ReadPart(flags: Flags, part: string): Result<Flags, ChordError> {
    match ModifierOf(part)
    case None => Err(UnknownKey(part))
    case Some(m) => if flags.Has(m) then Err(Repeated(part)) else Ok(flags.With(m))
  }

  function ReadParts(parts: seq<string>): Result<Flags, ChordError> {
    if parts == [] then Ok(NO_FLAGS)
    else match ReadParts(parts[..|parts| - 1])
      case Err(e) => Err(e)
      case Ok(flags) => ReadPart(flags, parts[|parts| - 1])
  }

  /** The text before and after the last dash. */
  function SplitAtLast(s: string): (r: (string, string))
    ensures '-' !in r.1 && (if '-' in s then s == r.0 + "-" + r.1 else r == ("", s))
  {
    if s == "" then ("", "")
    else if s[|s| - 1] == '-' then (s[..|s| - 1], "")
    else
      assert s == s[..|s| - 1] + [s[|s| - 1]];
      var (before, after) := SplitAtLast(s[..|s| - 1]);
      (before, after + [s[|s| - 1]])
  }

  /** The dash is the separator and a key too: a text that ends with one has it as its key. */
  function SplitKey(text: string): (string, string) {
    if text != "" && text[|text| - 1] == '-' then
      var rest := text[..|text| - 1];
      (if rest != "" && rest[|rest| - 1] == '-' then rest[..|rest| - 1] else rest, "-")
    else SplitAtLast(text)
  }

  function Cleaned(text: string): string {
    Lower(TrimEnd(TrimStart(text)))
  }

  function Parse(text: string): Result<Chord, ChordError> {
    var clean := Cleaned(text);
    if clean == "" then Err(Empty)
    else
      var (modifiers, key) := SplitKey(clean);
      match ReadParts(Parts(modifiers))
      case Err(e) => Err(e)
      case Ok(flags) => if IsKey(key) then Ok(Chord(flags, key)) else Err(UnknownKey(key))
  }

  // ---- writing ----

  const NAMES: seq<string> := ["secondary", "ctrl", "alt", "shift"]
  const MODIFIERS: seq<Modifier> := [Secondary, Ctrl, Alt, Shift]

  /** The names of the modifiers that are held, among the first n in their fixed order. */
  function NamesUpTo(f: Flags, n: nat): seq<string>
    requires n <= 4
  {
    if n == 0 then [] else NamesUpTo(f, n - 1) + if f.Has(MODIFIERS[n - 1]) then [NAMES[n - 1]] else []
  }

  function NamesOf(f: Flags): seq<string> {
    NamesUpTo(f, 4)
  }

  /** Each name followed by a dash. */
  function Dashed(names: seq<string>): string {
    if names == [] then "" else names[0] + "-" + Dashed(names[1..])
  }

  function Keys(c: Chord): string {
    Dashed(NamesOf(c.flags)) + c.key
  }

  lemma {:induction false} DashedOneMore(names: seq<string>, name: string)
    ensures Dashed(names + [name]) == Dashed(names) + (name + "-")
  {
    if names == [] {
      assert names + [name] == [name] && [name][1..] == [];
    } else {
      DashedOneMore(names[1..], name);
      assert (names + [name])[1..] == names[1..] + [name];
      assert (names + [name])[0] == names[0];
    }
  }

  /** The modifiers in their fixed order, then the key. */
  method WriteKeys(c: Chord) returns (text: string)
    ensures text == Keys(c)
  {
    text := "";
    var i := 0;
    while i < 4
      invariant 0 <= i <= 4 && text == Dashed(NamesUpTo(c.flags, i))
    {
      if c.flags.Has(MODIFIERS[i]) {
        DashedOneMore(NamesUpTo(c.flags, i), NAMES[i]);
        text := text + (NAMES[i] + "-");
      } else {
        assert NamesUpTo(c.flags, i) + [] == NamesUpTo(c.flags, i);
      }
      i := i + 1;
    }
    text := text + c.key;
  }

  /** Reading as the source does it, one part after the other, stopping at the first that is wrong. */
  method ParseChord(text: string) returns (r: Result<Chord, ChordError>)
    ensures r == Parse(text)
  {
    var clean := Cleaned(text);
    if clean == "" {
      return Err(Empty);
    }
    var (modifiers, key) := SplitKey(clean);
    var parts := Parts(modifiers);
    var flags := NO_FLAGS;
    var i := 0;
    while i < |parts|
      invariant 0 <= i <= |parts| && ReadParts(parts[..i]) == Ok(flags)
    {
      assert parts[..i + 1][..i] == parts[..i];
      var read := ReadPart(flags, parts[i]);
      if read.Err? {
        ReadStops(parts, i + 1);
        return Err(read.error);
      }
      flags := read.value;
      i := i + 1;
    }
    assert parts[..i] == parts;
    if !IsKey(key) {
      return Err(UnknownKey(key));
    }
    return Ok(Chord(flags, key));
  }

  lemma {:induction false} ReadStops(parts: seq<string>, n: nat)
    requires n <= |parts| && ReadParts(parts[..n]).Err?
    ensures ReadParts(parts) == ReadParts(parts[..n])
    decreases |parts| - n
  {
    if n == |parts| {
      assert parts[..n] == parts;
    } else {
      assert parts[..n + 1][..n] == parts[..n];
      ReadStops(parts, n + 1);
    }
  }

  function Canonical(text: string): Result<string, ChordError> {
    match Parse(text)
    case Err(e) => Err(e)
    case Ok(c) => if Allowed(c) then Ok(Keys(c)) else Err(NeedsModifier)
  }

  /** The modifier state of a key event. */
  datatype Held = Held(control: bool, alt: bool, shift: bool, platform: bool)

  /** None for an unknown key, and off a Mac for any press with the platform key. */
  function FromEvent(held: Held, key: string, mac: bool): Option<Chord> {
    if !IsKey(Lower(key)) || (!mac && held.platform) then None
    else Some(Chord(Flags(if mac then held.platform else held.control, mac && held.control, held.alt, held.shift), Lower(key)))
  }

  // ---- the preferences ----

  const MAX_KEYS_PER_ACTION := 3

  type Changed = map<string, seq<string>>

  function KeysOf(changed: Changed, id: string, defaults: seq<string>): seq<string> {
    if id in changed then changed[id] else defaults
  }

  function SetKeys(changed: Changed, id: string, keys: seq<string>, defaults: seq<string>): Changed {
    if keys == defaults then changed - {id} else changed[id := keys]
  }

  type Readings = seq<Result<string, ChordError>>

  function ReadingsOf(keys: seq<string>): Readings {
    seq(|keys|, i requires 0 <= i < |keys| => Canonical(keys[i]))
  }

  /** The canonical form of each text that can be used, at its first place. */
  function Usable(keys: seq<string>): seq<string> {
    KeptOf(ReadingsOf(keys))
  }

  function KeptOf(readings: Readings): seq<string> {
    if readings == [] then [] else AddUsable(KeptOf(readings[..|readings| - 1]), readings[|readings| - 1])
  }

  function AddUsable(kept: seq<string>, key: Result<string, ChordError>): seq<string> {
    if key.Ok? && key.value !in kept then kept + [key.value] else kept
  }

  lemma UsableOneMore(keys: seq<string>, i: nat)
    requires i < |keys|
    ensures Usable(keys[..i + 1]) == AddUsable(Usable(keys[..i]), Canonical(keys[i]))
  {
    var all := ReadingsOf(keys[..i + 1]);
    assert all[..|all| - 1] == ReadingsOf(keys[..i]);
  }

  function FirstOf<T>(s: seq<T>, n: nat): seq<T> {
    if |s| <= n then s else s[..n]
  }

  function Normalized(changed: Changed): Changed {
    map id | id in changed :: FirstOf(Usable(changed[id]), MAX_KEYS_PER_ACTION)
  }

  /** One more reading: looking only at the first three is enough to know whether it is kept. */
  method KeepOne(kept: seq<string>, key: Result<string, ChordError>, ghost all: seq<string>) returns (after: seq<string>)
    requires kept == FirstOf(all, MAX_KEYS_PER_ACTION)
    ensures after == FirstOf(AddUsable(all, key), MAX_KEYS_PER_ACTION)
  {
    after := kept;
    if key.Ok? && key.value !in kept && |kept| < MAX_KEYS_PER_ACTION {
      after := kept + [key.value];
    }
  }

  method NormalizeKeys(keys: seq<string>) returns (kept: seq<string>)
    ensures kept == FirstOf(Usable(keys), MAX_KEYS_PER_ACTION)
  {
    kept := [];
    for i := 0 to |keys|
      invariant kept == FirstOf(Usable(keys[..i]), MAX_KEYS_PER_ACTION)
    {
      UsableOneMore(keys, i);
      kept := KeepOne(kept, Canonical(keys[i]), Usable(keys[..i]));
    }
    assert keys[..|keys|] == keys;
  }

  // ---- clashes ----

  datatype Resolved = Resolved(id: string, context: string, keys: seq<string>)

  predicate Uses(r: Resolved, context: string, keys: string) {
    r.context == context && keys in r.keys
  }

  function TakenBy(all: seq<Resolved>, id: string, context: string, keys: string): (r: Option<nat>)
    ensures r.Some? ==> r.value < |all| && all[r.value].id != id && Uses(all[r.value], context, keys)
    ensures r.Some? ==> forall i | 0 <= i < r.value :: !(all[i].id != id && Uses(all[i], context, keys))
    ensures r.None? ==> forall i | 0 <= i < |all| :: !(all[i].id != id && Uses(all[i], context, keys))
  {
    if all == [] then None
    else match TakenBy(all[..|all| - 1], id, context, keys)
      case Some(i) => Some(i)
      case None =>
        var last := all[|all| - 1];
        if last.id != id && Uses(last, context, keys) then Some(|all| - 1) else None
  }

  type Found = map<(string, string), seq<string>>

  function AddUse(found: Found, context: string, keys: string, id: string): Found {
    var ids := if (context, keys) in found then found[(context, keys)] else [];
    found[(context, keys) := if id in ids then ids else ids + [id]]
  }

  function AddUses(found: Found, r: Resolved, n: nat): Found
    requires n <= |r.keys|
  {
    if n == 0 then found else AddUse(AddUses(found, r, n - 1), r.context, r.keys[n - 1], r.id)
  }

  function AllUses(all: seq<Resolved>): Found {
    if all == [] then map[]
    else AddUses(AllUses(all[..|all| - 1]), all[|all| - 1], |all[|all| - 1].keys|)
  }

  /** The uses under which two ids were collected. */
  function Clashes(all: seq<Resolved>): Found {
    map at | at in AllUses(all) && |AllUses(all)[at]| > 1 :: AllUses(all)[at]
  }

  method FindClashes(all: seq<Resolved>) returns (clashes: Found)
    ensures clashes == Clashes(all)
  {
    var found: Found := map[];
    var i := 0;
    while i < |all|
      invariant 0 <= i <= |all| && found == AllUses(all[..i])
    {
      assert all[..i + 1][..i] == all[..i];
      var j := 0;
      ghost var before := found;
      while j < |all[i].keys|
        invariant 0 <= j <= |all[i].keys| && found == AddUses(before, all[i], j)
      {
        found := AddUse(found, all[i].context, all[i].keys[j], all[i].id);
        j := j + 1;
      }
      i := i + 1;
    }
    assert all[..i] == all;
    return map at | at in found && |found[at]| > 1 :: found[at];
  }
}
