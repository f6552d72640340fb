/** What reading and writing combinations promise each other. */
module ShortcutTheorems {
  import opened Wrappers
  import opened Shortcuts

  // ---- keys as text ----

  predicate HasNoDash(s: string) {
    '-' !in s
  }

  predicate IsLetter(c: char) {
    'a' <= c <= 'z'
  }

  predicate IsWord(s: string) {
    s != "" && forall i | 0 <= i < |s| :: IsLetter(s[i])
  }

  lemma NamedKeysAreWords(key: string)
    requires key in PLAIN_OK || key in NEEDS_MODIFIER || key == "space"
    ensures IsWord(key)
  {
    if key in PLAIN_OK {
      PlainKeysAreWords(key);
    } else {
      assert IsWord("enter") && IsWord("escape") && IsWord("tab") && IsWord("space");
    }
  }

  lemma PlainKeysAreWords(key: string)
    requires key in PLAIN_OK
    ensures IsWord(key)
  {
    assert IsWord("up") && IsWord("down") && IsWord("left") && IsWord("right") && IsWord("home") && IsWord("end");
    assert IsWord("pageup") && IsWord("pagedown") && IsWord("delete") && IsWord("backspace") && IsWord("insert");
  }

  lemma WordText(s: string)
    requires IsWord(s)
    ensures HasNoDash(s) && !IsSpace(s[0]) && !IsSpace(s[|s| - 1])
  {
    assert IsLetter(s[0]) && IsLetter(s[|s| - 1]);
    forall i | 0 <= i < |s| ensures s[i] != '-' {
      assert IsLetter(s[i]);
    }
  }

  /** A key has no dash in it unless it is the minus key, and no space at its ends. */
  lemma KeyText(key: string)
    requires IsKey(key)
    ensures key != "" && (key == "-" || HasNoDash(key))
    ensures !IsSpace(key[0]) && !IsSpace(key[|key| - 1])
  {
    if key in PLAIN_OK || key in NEEDS_MODIFIER || key == "space" {
      NamedKeysAreWords(key);
      WordText(key);
    } else if IsFunctionKey(key) {
      FunctionKeyText(key);
    }
  }

  predicate InFunctionKey(c: char) {
    c == 'f' || c == '+' || IsDigit(c)
  }

  lemma FunctionKeyText(key: string)
    requires IsFunctionKey(key)
    ensures |key| > 1 && HasNoDash(key) && !IsSpace(key[0]) && !IsSpace(key[|key| - 1])
  {
    var s := key[1..];
    var digits := if |s| > 1 && s[0] == '+' then s[1..] else s;
    assert ParseU8(s).Some? && AllDigits(digits);
    forall i | 0 <= i < |key| ensures InFunctionKey(key[i]) {
      if i > 0 {
        assert key[i] == s[i - 1];
        if digits == s {
          assert IsDigit(digits[i - 1]);
        } else if i > 1 {
          assert s[i - 1] == digits[i - 2] && IsDigit(digits[i - 2]);
        }
      }
    }
    assert InFunctionKey(key[|key| - 1]);
  }

  lemma LowerTwice(s: string)
    ensures Lower(Lower(s)) == Lower(s)
  {
  }

  // ---- trimming ----

  lemma TrimNothing(s: string)
    requires s != "" && !IsSpace(s[0]) && !IsSpace(s[|s| - 1])
    ensures TrimEnd(TrimStart(s)) == s
  {
  }

  // ---- the names of the modifiers, dashed and read back ----

  predicate AreNames(names: seq<string>) {
    forall i | 0 <= i < |names| :: names[i] != "" && HasNoDash(names[i])
  }

  lemma {:induction false} PartsOfName(name: string, rest: string, part: string)
    requires HasNoDash(name)
    ensures PartsFrom(name + "-" + rest, part) == NotEmpty(part + name) + PartsFrom(rest, "")
    decreases |name|
  {
    var s := name + "-" + rest;
    if name == "" {
      assert s[1..] == rest && part + name == part;
    } else {
      assert s[0] == name[0] && s[1..] == name[1..] + "-" + rest;
      PartsOfName(name[1..], rest, part + [name[0]]);
      assert part + [name[0]] + name[1..] == part + name;
    }
  }

  lemma {:induction false} PartsOfLast(name: string, part: string)
    requires HasNoDash(name)
    ensures PartsFrom(name, part) == NotEmpty(part + name)
    decreases |name|
  {
    if name == "" {
      assert part + name == part;
    } else {
      PartsOfLast(name[1..], part + [name[0]]);
      assert part + [name[0]] + name[1..] == part + name;
    }
  }

  lemma Regroup(a: string, b: string, c: string)
    ensures (a + b) + c == a + (b + c)
  {
  }

  /** Without its last dash, what was dashed splits into the names again. */
  lemma {:induction false} PartsOfDashed(names: seq<string>)
    requires AreNames(names) && names != []
    ensures Dashed(names) != "" && Dashed(names)[|Dashed(names)| - 1] == '-'
    ensures Parts(Dashed(names)[..|Dashed(names)| - 1]) == names
    decreases |names|
  {
    var first, rest := names[0], Dashed(names[1..]);
    if |names| == 1 {
      assert names[1..] == [] && rest == "";
      assert Dashed(names)[..|Dashed(names)| - 1] == first;
      PartsOfLast(first, "");
      assert "" + first == first;
    } else {
      PartsOfDashed(names[1..]);
      var cut := rest[..|rest| - 1];
      assert Dashed(names)[..|Dashed(names)| - 1] == first + "-" + cut by {
        Regroup(first, "-", cut);
      }
      PartsOfName(first, cut, "");
      assert "" + first == first && [first] + names[1..] == names;
    }
  }

  lemma {:induction false} NamesAreNames(f: Flags, n: nat)
    requires n <= 4
    ensures AreNames(NamesUpTo(f, n))
    ensures forall i | 0 <= i < |NamesUpTo(f, n)| :: Lower(NamesUpTo(f, n)[i]) == NamesUpTo(f, n)[i]
    ensures forall i | 0 <= i < |NamesUpTo(f, n)| :: !IsSpace(NamesUpTo(f, n)[i][0])
  {
    if n > 0 {
      NamesAreNames(f, n - 1);
      NamesAreGood();
    }
  }

  lemma NamesAreGood()
    ensures AreNames(NAMES) && forall i | 0 <= i < 4 :: Lower(NAMES[i]) == NAMES[i] && !IsSpace(NAMES[i][0])
  {
  }

  lemma NamesOfModifiers()
    ensures forall i | 0 <= i < 4 :: ModifierOf(NAMES[i]) == Some(MODIFIERS[i])
  {
  }

  function ModsUpTo(f: Flags, n: nat): seq<Modifier>
    requires n <= 4
  {
    if n == 0 then [] else ModsUpTo(f, n - 1) + if f.Has(MODIFIERS[n - 1]) then [MODIFIERS[n - 1]] else []
  }

  function FlagsOf(mods: seq<Modifier>): Flags {
    if mods == [] then NO_FLAGS else FlagsOf(mods[..|mods| - 1]).With(mods[|mods| - 1])
  }

  predicate Named(names: seq<string>, mods: seq<Modifier>) {
    |names| == |mods| && forall i | 0 <= i < |mods| :: ModifierOf(names[i]) == Some(mods[i])
  }

  lemma {:induction false} NamesAreNamed(f: Flags, n: nat)
    requires n <= 4
    ensures Named(NamesUpTo(f, n), ModsUpTo(f, n))
  {
    if n > 0 {
      NamesAreNamed(f, n - 1);
      NamesOfModifiers();
    }
  }

  lemma {:induction false} HasOnlyThose(mods: seq<Modifier>, m: Modifier)
    ensures FlagsOf(mods).Has(m) <==> m in mods
  {
    if mods != [] {
      HasOnlyThose(mods[..|mods| - 1], m);
      assert m in mods <==> m in mods[..|mods| - 1] || m == mods[|mods| - 1];
    }
  }

  /** Names of different modifiers are read as those modifiers. */
  lemma {:induction false} NamedReadBack(names: seq<string>, mods: seq<Modifier>)
    requires Named(names, mods) && forall i, j | 0 <= i < j < |mods| :: mods[i] != mods[j]
    ensures ReadParts(names) == Ok(FlagsOf(mods))
  {
    if names != [] {
      NamedReadBack(names[..|names| - 1], mods[..|mods| - 1]);
      HasOnlyThose(mods[..|mods| - 1], mods[|mods| - 1]);
    }
  }

  lemma {:induction false} ModsAreDifferent(f: Flags, n: nat)
    requires n <= 4
    ensures forall i, j | 0 <= i < j < |ModsUpTo(f, n)| :: ModsUpTo(f, n)[i] != ModsUpTo(f, n)[j]
    ensures forall m :: m in ModsUpTo(f, n) <==> f.Has(m) && m in MODIFIERS[..n]
  {
    if n > 0 {
      ModsAreDifferent(f, n - 1);
      assert MODIFIERS[..n] == MODIFIERS[..n - 1] + [MODIFIERS[n - 1]];
    }
  }

  lemma NamesReadBack(f: Flags)
    ensures ReadParts(NamesOf(f)) == Ok(f)
  {
    NamesAreNamed(f, 4);
    ModsAreDifferent(f, 4);
    NamedReadBack(NamesOf(f), ModsUpTo(f, 4));
    forall m ensures FlagsOf(ModsUpTo(f, 4)).Has(m) <==> f.Has(m) {
      HasOnlyThose(ModsUpTo(f, 4), m);
      AllModifiers(m);
    }
    SameFlags(FlagsOf(ModsUpTo(f, 4)), f);
  }

  lemma AllModifiers(m: Modifier)
    ensures m in MODIFIERS[..4]
  {
    assert MODIFIERS[..4] == MODIFIERS && MODIFIERS[0] == Secondary && MODIFIERS[1] == Ctrl;
    assert MODIFIERS[2] == Alt && MODIFIERS[3] == Shift;
  }

  lemma SameFlags(a: Flags, b: Flags)
    requires forall m :: a.Has(m) <==> b.Has(m)
    ensures a == b
  {
    assert a.Has(Secondary) == b.Has(Secondary) && a.Has(Ctrl) == b.Has(Ctrl);
    assert a.Has(Alt) == b.Has(Alt) && a.Has(Shift) == b.Has(Shift);
  }

  // ---- the round trip ----

  lemma SplitOfDashed(names: seq<string>, key: string)
    requires AreNames(names) && key != "" && (key == "-" || HasNoDash(key))
    ensures SplitKey(Dashed(names) + key).1 == key && Parts(SplitKey(Dashed(names) + key).0) == names
  {
    if names == [] {
      assert Dashed(names) + key == key;
      SplitAlone(key);
    } else {
      PartsOfDashed(names);
      SplitDashed(Dashed(names), key);
    }
  }

  lemma SplitDashed(dashed: string, key: string)
    requires dashed != "" && dashed[|dashed| - 1] == '-' && key != "" && (key == "-" || HasNoDash(key))
    ensures SplitKey(dashed + key) == (dashed[..|dashed| - 1], key)
  {
    var before := dashed[..|dashed| - 1];
    assert before + "-" == dashed;
    SplitAfterDash(before, key);
  }

  /** A key with nothing before it. */
  lemma SplitAlone(key: string)
    requires key != "" && (key == "-" || HasNoDash(key))
    ensures SplitKey(key) == ("", key) && Parts("") == []
  {
    if key != "-" {
      assert key[|key| - 1] in key;
    }
  }

  lemma SplitAfterDash(before: string, key: string)
    requires key != "" && (key == "-" || HasNoDash(key))
    ensures SplitKey(before + "-" + key) == (before, key)
  {
    var text := before + "-" + key;
    if key == "-" {
      var rest := text[..|text| - 1];
      assert rest == before + "-" && rest[..|rest| - 1] == before;
    } else {
      assert text[|text| - 1] == key[|key| - 1] && key[|key| - 1] in key;
      LastDash(before, key);
    }
  }

  lemma {:induction false} LastDash(before: string, key: string)
    requires HasNoDash(key)
    ensures SplitAtLast(before + "-" + key) == (before, key)
    decreases |key|
  {
    var s := before + "-" + key;
    if key == "" {
      assert s[..|s| - 1] == before;
    } else {
      var less := key[..|key| - 1];
      assert s[..|s| - 1] == before + "-" + less;
      LastDash(before, less);
      assert less + [key[|key| - 1]] == key;
    }
  }

  lemma {:induction false} DashedIsLower(names: seq<string>)
    requires forall i | 0 <= i < |names| :: Lower(names[i]) == names[i]
    ensures Lower(Dashed(names)) == Dashed(names)
  {
    if names != [] {
      DashedIsLower(names[1..]);
      LowerJoin(names[0], "-");
      LowerJoin(names[0] + "-", Dashed(names[1..]));
    }
  }

  lemma LowerJoin(a: string, b: string)
    requires Lower(a) == a && Lower(b) == b
    ensures Lower(a + b) == a + b
  {
    assert forall i | 0 <= i < |a| :: LowerChar(a[i]) == Lower(a)[i];
    assert forall i | 0 <= i < |b| :: LowerChar(b[i]) == Lower(b)[i];
  }

  lemma NamesAreLower(f: Flags)
    ensures Lower(Dashed(NamesOf(f))) == Dashed(NamesOf(f))
  {
    NamesAreNames(f, 4);
    DashedIsLower(NamesOf(f));
  }

  predicate IsGood(c: Chord) {
    IsKey(c.key) && Lower(c.key) == c.key
  }

  lemma WrittenIsClean(c: Chord)
    requires IsGood(c)
    ensures Keys(c) != "" && Cleaned(Keys(c)) == Keys(c)
  {
    KeyText(c.key);
    NamesAreNames(c.flags, 4);
    NamesAreLower(c.flags);
    LowerJoin(Dashed(NamesOf(c.flags)), c.key);
    FirstIsNoSpace(c);
    TrimNothing(Keys(c));
  }

  lemma FirstIsNoSpace(c: Chord)
    requires c.key != "" && !IsSpace(c.key[0])
    ensures !IsSpace(Keys(c)[0])
  {
    if NamesOf(c.flags) != [] {
      NamesAreNames(c.flags, 4);
    } else {
      assert Keys(c) == c.key;
    }
  }

  /**
   Reading a written combination gives it back, for every set of modifiers and every key, the minus
   key too, exactly when the key is one and is in lower case.
   */
  lemma WrittenReadsBack(c: Chord)
    ensures Parse(Keys(c)) == Ok(c) <==> IsGood(c)
  {
    if IsGood(c) {
      WrittenIsClean(c);
      KeyText(c.key);
      NamesAreNames(c.flags, 4);
      SplitOfDashed(NamesOf(c.flags), c.key);
      NamesReadBack(c.flags);
    }
    ReadIsGood(Keys(c));
  }

  lemma {:induction false} PieceIsLower(s: string)
    requires Lower(s) == s
    ensures Lower(SplitAtLast(s).1) == SplitAtLast(s).1
  {
    var r := SplitAtLast(s);
    forall i | 0 <= i < |r.1| ensures LowerChar(r.1[i]) == r.1[i] {
      assert |s| - |r.1| >= 0;
      assert r.1[i] == s[|s| - |r.1| + i];
      assert Lower(s)[|s| - |r.1| + i] == s[|s| - |r.1| + i];
    }
  }

  /** What is read has a key, in lower case. */
  lemma ReadIsGood(text: string)
    ensures Parse(text).Ok? ==> IsGood(Parse(text).value)
  {
    LowerTwice(TrimEnd(TrimStart(text)));
    PieceIsLower(Cleaned(text));
  }

  /** The canonical form of a canonical form is itself. */
  lemma CanonicalTwice(text: string)
    ensures Canonical(text).Ok? ==> Canonical(Canonical(text).value) == Canonical(text)
  {
    ReadIsGood(text);
    if Parse(text).Ok? {
      WrittenReadsBack(Parse(text).value);
    }
  }

  /** Two texts have the same canonical form exactly when they are the same combination. */
  lemma CanonicalIsUnique(a: string, b: string)
    ensures Canonical(a).Ok? && Canonical(b).Ok? ==> (Canonical(a) == Canonical(b) <==> Parse(a) == Parse(b))
  {
    ReadIsGood(a);
    ReadIsGood(b);
    if Parse(a).Ok? && Parse(b).Ok? {
      WrittenReadsBack(Parse(a).value);
      WrittenReadsBack(Parse(b).value);
    }
  }

  /** What a key press makes is written and read back as it was, on every system. */
  lemma PressedReadsBack(held: Held, key: string, mac: bool)
    ensures var c := FromEvent(held, key, mac);
      c.Some? ==> Parse(Keys(c.value)) == Ok(c.value)
  {
    LowerTwice(key);
    if FromEvent(held, key, mac).Some? {
      WrittenReadsBack(FromEvent(held, key, mac).value);
    }
  }

  // ---- the preferences ----

  predicate AllDifferent(s: seq<string>) {
    forall i, j | 0 <= i < j < |s| :: s[i] != s[j]
  }

  predicate AllCanonical(s: seq<string>) {
    forall i | 0 <= i < |s| :: Canonical(s[i]) == Ok(s[i])
  }

  lemma {:induction false} KeptHolds(readings: Readings, k: string)
    ensures k in KeptOf(readings) <==> Ok(k) in readings
  {
    if readings != [] {
      var rest, last := readings[..|readings| - 1], readings[|readings| - 1];
      KeptHolds(rest, k);
      assert Ok(k) in readings <==> Ok(k) in rest || last == Ok(k);
    }
  }

  lemma {:induction false} KeptIsDifferent(readings: Readings)
    ensures AllDifferent(KeptOf(readings))
  {
    if readings != [] {
      KeptIsDifferent(readings[..|readings| - 1]);
    }
  }

  /** The usable combinations are canonical, all different, and those that some text reads as. */
  lemma UsableIsGood(keys: seq<string>)
    ensures AllDifferent(Usable(keys)) && AllCanonical(Usable(keys))
    ensures forall k :: k in Usable(keys) <==> Ok(k) in ReadingsOf(keys)
  {
    KeptIsDifferent(ReadingsOf(keys));
    forall k ensures k in Usable(keys) <==> Ok(k) in ReadingsOf(keys) {
      KeptHolds(ReadingsOf(keys), k);
    }
    forall i | 0 <= i < |Usable(keys)| ensures Canonical(Usable(keys)[i]) == Ok(Usable(keys)[i]) {
      KeptHolds(ReadingsOf(keys), Usable(keys)[i]);
      var j :| 0 <= j < |keys| && ReadingsOf(keys)[j] == Ok(Usable(keys)[i]);
      CanonicalTwice(keys[j]);
    }
  }

  lemma {:induction false} KeptOfGood(readings: Readings, keys: seq<string>)
    requires |readings| == |keys| && AllDifferent(keys) && forall i | 0 <= i < |keys| :: readings[i] == Ok(keys[i])
    ensures KeptOf(readings) == keys
  {
    if keys != [] {
      KeptOfGood(readings[..|keys| - 1], keys[..|keys| - 1]);
      assert keys[..|keys| - 1] + [keys[|keys| - 1]] == keys;
    }
  }

  lemma UsableOfGood(keys: seq<string>)
    requires AllDifferent(keys) && AllCanonical(keys)
    ensures Usable(keys) == keys
  {
    KeptOfGood(ReadingsOf(keys), keys);
  }

  /**
     After a repair each action has at most three combinations, canonical and all different; a second
     repair changes nothing.
  */
  lemma NormalizedIsGood(changed: Changed)
    ensures Normalized(changed).Keys == changed.Keys
    ensures forall id | id in changed :: GoodKeys(Normalized(changed)[id])
    ensures Normalized(Normalized(changed)) == Normalized(changed)
  {
    var once := Normalized(changed);
    forall id | id in changed ensures GoodKeys(once[id]) && Normalized(once)[id] == once[id] {
      FirstUsable(changed[id]);
    }
  }

  predicate GoodKeys(keys: seq<string>) {
    |keys| <= MAX_KEYS_PER_ACTION && AllDifferent(keys) && AllCanonical(keys)
  }

  lemma FirstUsable(keys: seq<string>)
    ensures GoodKeys(FirstOf(Usable(keys), MAX_KEYS_PER_ACTION))
    ensures FirstOf(Usable(FirstOf(Usable(keys), MAX_KEYS_PER_ACTION)), MAX_KEYS_PER_ACTION)
         == FirstOf(Usable(keys), MAX_KEYS_PER_ACTION)
  {
    UsableIsGood(keys);
    UsableOfGood(FirstOf(Usable(keys), MAX_KEYS_PER_ACTION));
  }

  /** What is set is what is read, whether it is kept as a change or not, and no other action changes. */
  lemma SetIsRead(changed: Changed, id: string, keys: seq<string>, defaults: seq<string>, other: string, others: seq<string>)
    ensures KeysOf(SetKeys(changed, id, keys, defaults), id, defaults) == keys
    ensures id in SetKeys(changed, id, keys, defaults) <==> keys != defaults
    ensures other != id ==> KeysOf(SetKeys(changed, id, keys, defaults), other, others) == KeysOf(changed, other, others)
  {
  }

  // ---- clashes ----

  ghost predicate UsedBy(all: seq<Resolved>, n: nat, context: string, keys: string, id: string)
    requires n <= |all|
  {
    exists i :: 0 <= i < n && all[i].id == id && Uses(all[i], context, keys)
  }

  function IdsAt(found: Found, context: string, keys: string): seq<string> {
    if (context, keys) in found then found[(context, keys)] else []
  }

  predicate NoRepeat(found: Found) {
    forall at | at in found :: AllDifferent(found[at]) && found[at] != []
  }

  lemma AddUseAt(found: Found, r: Resolved, keys: string, context: string, other: string, id: string)
    requires NoRepeat(found)
    ensures NoRepeat(AddUse(found, r.context, keys, r.id))
    ensures id in IdsAt(AddUse(found, r.context, keys, r.id), context, other)
       <==> id in IdsAt(found, context, other) || (r.context == context && keys == other && r.id == id)
  {
  }

  lemma {:induction false} AddUsesAt(found: Found, r: Resolved, n: nat, context: string, keys: string, id: string)
    requires n <= |r.keys| && NoRepeat(found)
    ensures NoRepeat(AddUses(found, r, n))
    ensures id in IdsAt(AddUses(found, r, n), context, keys)
       <==> id in IdsAt(found, context, keys) || (r.context == context && keys in r.keys[..n] && r.id == id)
    decreases n
  {
    if n > 0 {
      AddUsesAt(found, r, n - 1, context, keys, id);
      AddUseAt(AddUses(found, r, n - 1), r, r.keys[n - 1], context, keys, id);
      assert r.keys[..n] == r.keys[..n - 1] + [r.keys[n - 1]];
    }
  }

  lemma {:induction false} AllUsesAt(all: seq<Resolved>, context: string, keys: string, id: string)
    ensures NoRepeat(AllUses(all))
    ensures id in IdsAt(AllUses(all), context, keys) <==> UsedBy(all, |all|, context, keys, id)
  {
    if all != [] {
      var rest, last := all[..|all| - 1], all[|all| - 1];
      AllUsesAt(rest, context, keys, id);
      AddUsesAt(AllUses(rest), last, |last.keys|, context, keys, id);
      assert last.keys[..|last.keys|] == last.keys;
      if UsedBy(rest, |rest|, context, keys, id) {
        var i :| 0 <= i < |rest| && rest[i].id == id && Uses(rest[i], context, keys);
        assert all[i] == rest[i];
      }
      if UsedBy(all, |all|, context, keys, id) {
        var i :| 0 <= i < |all| && all[i].id == id && Uses(all[i], context, keys);
        assert i < |rest| ==> rest[i] == all[i];
      }
    }
  }

  /**
   A combination clashes in a context exactly when one of the actions that use it there finds it taken
   by another; and the clash names those that use it, each once.
   */
  lemma ClashIsTaken(all: seq<Resolved>, context: string, keys: string)
    ensures (context, keys) in Clashes(all)
       <==> exists i :: 0 <= i < |all| && Uses(all[i], context, keys) && TakenBy(all, all[i].id, context, keys).Some?
    ensures (context, keys) in Clashes(all) ==>
              AllDifferent(Clashes(all)[(context, keys)])
              && forall id :: id in Clashes(all)[(context, keys)] <==> UsedBy(all, |all|, context, keys, id)
  {
    forall id ensures NoRepeat(AllUses(all)) && (id in IdsAt(AllUses(all), context, keys) <==> UsedBy(all, |all|, context, keys, id)) {
      AllUsesAt(all, context, keys, id);
    }
    AllUsesAt(all, context, keys, "");
    if (context, keys) in Clashes(all) {
      TwoUsers(all, context, keys);
    }
    if exists i :: 0 <= i < |all| && Uses(all[i], context, keys) && TakenBy(all, all[i].id, context, keys).Some? {
      var i :| 0 <= i < |all| && Uses(all[i], context, keys) && TakenBy(all, all[i].id, context, keys).Some?;
      TakenClashes(all, context, keys, i, TakenBy(all, all[i].id, context, keys).value);
    }
  }

  lemma TwoUsers(all: seq<Resolved>, context: string, keys: string)
    requires (context, keys) in Clashes(all)
    ensures exists i :: 0 <= i < |all| && Uses(all[i], context, keys) && TakenBy(all, all[i].id, context, keys).Some?
  {
    var ids := IdsAt(AllUses(all), context, keys);
    AllUsesAt(all, context, keys, ids[0]);
    AllUsesAt(all, context, keys, ids[1]);
    assert ids[0] in ids && ids[1] in ids && ids[0] != ids[1];
    var i :| 0 <= i < |all| && all[i].id == ids[0] && Uses(all[i], context, keys);
    var j :| 0 <= j < |all| && all[j].id == ids[1] && Uses(all[j], context, keys);
    assert TakenBy(all, all[i].id, context, keys).Some?;
  }

  lemma TakenClashes(all: seq<Resolved>, context: string, keys: string, i: nat, j: nat)
    requires i < |all| && j < |all| && Uses(all[i], context, keys) && Uses(all[j], context, keys) && all[i].id != all[j].id
    ensures (context, keys) in Clashes(all)
  {
    AllUsesAt(all, context, keys, all[i].id);
    AllUsesAt(all, context, keys, all[j].id);
    assert UsedBy(all, |all|, context, keys, all[i].id) && UsedBy(all, |all|, context, keys, all[j].id);
    var ids := IdsAt(AllUses(all), context, keys);
    var a :| 0 <= a < |ids| && ids[a] == all[i].id;
    var b :| 0 <= b < |ids| && ids[b] == all[j].id;
    assert a != b;
  }

  // ---- names, keys and presses, one by one ----

  /** Each modifier has these names and no others. */
  lemma WhatModifiersAreCalled(part: string)
    ensures ModifierOf(part) == Some(Secondary) <==> part in {"secondary", "cmd", "super", "win"}
    ensures ModifierOf(part) == Some(Ctrl) <==> part in {"ctrl", "control"}
    ensures ModifierOf(part) == Some(Alt) <==> part in {"alt", "option"}
    ensures ModifierOf(part) == Some(Shift) <==> part == "shift"
  {
  }

  /** Some part names this modifier. */
  ghost predicate Names(parts: seq<string>, m: Modifier) {
    exists i :: 0 <= i < |parts| && ModifierOf(parts[i]) == Some(m)
  }

  /** Each part names a modifier, and no two the same. */
  ghost predicate NamesApart(parts: seq<string>) {
    && (forall i | 0 <= i < |parts| :: ModifierOf(parts[i]).Some?)
    && (forall i, j | 0 <= i < j < |parts| :: ModifierOf(parts[i]) != ModifierOf(parts[j]))
  }

  /** The parts read as flags exactly when each names a modifier and no two name the same; then those are held. */
  lemma {:induction false} WhatPartsRead(parts: seq<string>)
    ensures ReadParts(parts).Ok? <==> NamesApart(parts)
    ensures ReadParts(parts).Ok? ==> forall m: Modifier :: ReadParts(parts).value.Has(m) <==> Names(parts, m)
  {
    if parts != [] {
      var rest, last := parts[..|parts| - 1], parts[|parts| - 1];
      WhatPartsRead(rest);
      ApartOneMore(parts);
      forall m: Modifier ensures Names(parts, m) <==> Names(rest, m) || ModifierOf(last) == Some(m) {
        NamesOneMore(parts, m);
      }
    }
  }

  lemma NamesOneMore(parts: seq<string>, m: Modifier)
    requires parts != []
    ensures Names(parts, m) <==> Names(parts[..|parts| - 1], m) || ModifierOf(parts[|parts| - 1]) == Some(m)
  {
    var rest := parts[..|parts| - 1];
    if Names(rest, m) {
      var i :| 0 <= i < |rest| && ModifierOf(rest[i]) == Some(m);
      assert parts[i] == rest[i];
    }
    if Names(parts, m) {
      var i :| 0 <= i < |parts| && ModifierOf(parts[i]) == Some(m);
      assert i < |rest| ==> rest[i] == parts[i];
    }
  }

  lemma ApartOneMore(parts: seq<string>)
    requires parts != []
    ensures var rest, last := parts[..|parts| - 1], ModifierOf(parts[|parts| - 1]);
      NamesApart(parts) <==> NamesApart(rest) && last.Some? && !Names(rest, last.value)
  {
    var rest, last := parts[..|parts| - 1], ModifierOf(parts[|parts| - 1]);
    assert forall i | 0 <= i < |rest| :: rest[i] == parts[i];
    if NamesApart(rest) && last.Some? && !Names(rest, last.value) {
      forall i | 0 <= i < |parts| - 1 ensures ModifierOf(parts[i]) != last {
        assert ModifierOf(rest[i]) != last;
      }
    }
  }

  /** The first part that names no modifier, or one that was named, is what the error is about. */
  lemma WhichPartIsWrong(parts: seq<string>, i: nat)
    requires i < |parts| && NamesApart(parts[..i])
    ensures ModifierOf(parts[i]).None? ==> ReadParts(parts) == Err(UnknownKey(parts[i]))
    ensures ModifierOf(parts[i]).Some? && Names(parts[..i], ModifierOf(parts[i]).value) ==>
      ReadParts(parts) == Err(Repeated(parts[i]))
  {
    WhatPartsRead(parts[..i]);
    assert parts[..i + 1][..i] == parts[..i];
    if ReadParts(parts[..i + 1]).Err? {
      ReadStops(parts, i + 1);
    }
  }

  /**
     A text with nothing in it, with a part that is wrong, or with a key there is none of, is refused for
     that, in this order.
  */
  lemma WhatIsNoCombination(text: string)
    ensures var (modifiers, key) := SplitKey(Cleaned(text));
      var read := ReadParts(Parts(modifiers));
      Parse(text) == if |Cleaned(text)| == 0 then Err(Empty)
                     else if read.Err? then Err(read.error)
                     else if !IsKey(key) then Err(UnknownKey(key))
                     else Ok(Chord(read.value, key))
  {
  }

  // ---- spaces and capitals ----

  /** The white space of Unicode, by its codes. */
  lemma WhatIsBlank(c: char)
    ensures IsSpace(c) <==>
      c as int in {9, 10, 11, 12, 13, 32, 133, 160, 5760, 8192, 8193, 8194, 8195, 8196, 8197, 8198, 8199, 8200, 8201, 8202,
                   8232, 8233, 8239, 8287, 12288}
  {
  }

  /** The same text but for capitals: each letter is the same, or the capital of the other. */
  predicate SameButCapitals(a: string, b: string) {
    |a| == |b| && forall i | 0 <= i < |a| :: SameLetter(a[i], b[i])
  }

  predicate SameLetter(a: char, b: char) {
    a == b || (65 <= a as int < 91 && b as int == a as int + 32) || (65 <= b as int < 91 && a as int == b as int + 32)
  }

  lemma SameLetterLowers(a: char, b: char)
    requires SameLetter(a, b)
    ensures LowerChar(a) == LowerChar(b) && (IsSpace(a) <==> IsSpace(b))
  {
  }

  lemma {:induction false} TrimStartSame(a: string, b: string)
    requires SameButCapitals(a, b)
    ensures SameButCapitals(TrimStart(a), TrimStart(b))
    decreases |a|
  {
    if a != "" {
      SameLetterLowers(a[0], b[0]);
      TrimStartSame(a[1..], b[1..]);
    }
  }

  lemma {:induction false} TrimEndSame(a: string, b: string)
    requires SameButCapitals(a, b)
    ensures SameButCapitals(TrimEnd(a), TrimEnd(b))
    decreases |a|
  {
    if a != "" {
      SameLetterLowers(a[|a| - 1], b[|b| - 1]);
      TrimEndSame(a[..|a| - 1], b[..|b| - 1]);
    }
  }

  lemma LowerSame(a: string, b: string)
    requires SameButCapitals(a, b)
    ensures Lower(a) == Lower(b)
  {
    forall i | 0 <= i < |a| ensures Lower(a)[i] == Lower(b)[i] {
      SameLetterLowers(a[i], b[i]);
    }
  }

  /** Texts that differ in capitals only read as the same. */
  lemma CapitalsDoNotMatter(a: string, b: string)
    requires SameButCapitals(a, b)
    ensures Parse(a) == Parse(b)
  {
    TrimStartSame(a, b);
    TrimEndSame(TrimStart(a), TrimStart(b));
    LowerSame(TrimEnd(TrimStart(a)), TrimEnd(TrimStart(b)));
  }

  /** White space before a text or after it is as if it were not there. */
  lemma SpacesDoNotMatter(text: string, c: char)
    requires IsSpace(c)
    ensures Parse([c] + text) == Parse(text) && Parse(text + [c]) == Parse(text)
  {
    assert ([c] + text)[1..] == text;
    TrimStartOf(text, c);
  }

  lemma {:induction false} TrimStartOf(text: string, c: char)
    requires IsSpace(c)
    ensures TrimEnd(TrimStart(text + [c])) == TrimEnd(TrimStart(text))
    decreases |text|
  {
    if text == "" {
      assert text + [c] == [c] && [c][1..] == "";
    } else if IsSpace(text[0]) {
      assert (text + [c])[1..] == text[1..] + [c];
      TrimStartOf(text[1..], c);
    } else {
      assert (text + [c])[..|text|] == text;
    }
  }

  /** On a Mac the platform key is the secondary one and control is control; elsewhere control is the secondary one. */
  lemma WhatAPressMeans(held: Held, key: string)
    requires IsKey(Lower(key))
    ensures FromEvent(held, key, true) == Some(Chord(Flags(held.platform, held.control, held.alt, held.shift), Lower(key)))
    ensures FromEvent(held, key, false)
         == if held.platform then None else Some(Chord(Flags(held.control, false, held.alt, held.shift), Lower(key)))
  {
  }

  /** What may be used with no modifier, or with Shift alone: the keys that are no text, and the function keys. */
  lemma WhatNeedsAModifier(key: string, shift: bool, m: Flags)
    ensures Allowed(Chord(Flags(false, false, false, shift), key)) <==>
      || IsFunctionKey(key)
      || key in {"up", "down", "left", "right", "home", "end", "pageup", "pagedown", "delete", "backspace", "insert"}
    ensures m.secondary || m.ctrl || m.alt ==> Allowed(Chord(m, key))
  {
  }

  /** Beside the function keys: the keys that have a name, and the letters, digits and signs. */
  lemma WhichKeysThereAre(key: string)
    ensures IsKey(key) <==>
      || IsFunctionKey(key)
      || key in {"up", "down", "left", "right", "home", "end", "pageup", "pagedown", "delete", "backspace", "insert",
                 "enter", "escape", "tab", "space"}
      || (|key| == 1 && (IsAlphanumeric(key[0]) || key[0] in {',', '.', '/', ';', '\'', '[', ']', '\\', '-', '=', '+', '`'}))
  {
  }

  /** The function keys go from 1 to 24. */
  lemma WhichFunctionKeysThereAre(number: string)
    requires number == "" || number[0] !in {'0', '+'}
    ensures IsFunctionKey("f" + number) <==>
      number in {"1", "2", "3", "4", "5", "6", "7", "8", "9", "10", "11", "12", "13", "14", "15", "16", "17", "18", "19",
                 "20", "21", "22", "23", "24"}
  {
    assert ("f" + number)[1..] == number;
    if number != "" && AllDigits(number) {
      UpTo24(number);
    }
  }

  /** Zeros and one plus sign may stand before the number of a function key. */
  lemma WhatMayStandBefore(number: string)
    ensures IsFunctionKey("f0" + number) <==> number != "" && number[0] != '+' && IsFunctionKey("f" + number)
    ensures IsFunctionKey("f+" + number) <==> number != "" && number[0] != '+' && IsFunctionKey("f" + number)
  {
    assert ("f" + number)[1..] == number && ("f0" + number)[1..] == "0" + number && ("f+" + number)[1..] == "+" + number;
    assert ("+" + number)[1..] == number;
    DigitsAfterZero(number);
    if AllDigits(number) {
      ZeroBefore(number);
    }
  }

  lemma DigitsAfterZero(number: string)
    ensures AllDigits("0" + number) == AllDigits(number)
  {
    assert ("0" + number)[1..] == number;
    assert forall i | 0 <= i < |number| :: number[i] == ("0" + number)[i + 1];
  }

  lemma {:induction false} ZeroBefore(number: string)
    requires AllDigits(number)
    ensures AllDigits("0" + number) && Value("0" + number) == Value(number)
  {
    if number != "" {
      var most := number[..|number| - 1];
      ZeroBefore(most);
      assert ("0" + number)[..|number|] == "0" + most;
    }
  }

  lemma {:induction false} ALongNumber(number: string)
    requires AllDigits(number) && |number| > 2 && number[0] != '0'
    ensures Value(number) >= 100
  {
    var most := number[..|number| - 1];
    if |number| > 3 {
      ALongNumber(most);
    } else {
      assert most[..1] == [number[0]] && [number[0]][..0] == "";
      assert Value([number[0]]) == number[0] as int - '0' as int;
    }
  }

  lemma UpTo24(number: string)
    requires AllDigits(number) && number != "" && number[0] != '0'
    ensures 1 <= Value(number) <= 24 <==>
      number in {"1", "2", "3", "4", "5", "6", "7", "8", "9", "10", "11", "12", "13", "14", "15", "16", "17", "18", "19",
                 "20", "21", "22", "23", "24"}
  {
    if |number| > 2 {
      ALongNumber(number);
    } else if |number| == 1 {
      assert number[..0] == "" && number == [number[0]];
      assert Value(number) == number[0] as int - '0' as int;
    } else {
      assert number[..1] == [number[0]] && [number[0]][..0] == "";
      assert Value([number[0]]) == number[0] as int - '0' as int;
      assert number == [number[0], number[1]];
    }
  }

  /** The texts are gone over in order, and each canonical form is kept where it first comes. */
  lemma WhatIsUsable(keys: seq<string>, key: string)
    ensures Usable([]) == []
    ensures Usable(keys + [key]) == Usable(keys) + match Canonical(key)
      case Err(_) => []
      case Ok(k) => if k in Usable(keys) then [] else [k]
  {
    UsableOneMore(keys + [key], |keys|);
    assert (keys + [key])[..|keys|] == keys && (keys + [key])[..|keys| + 1] == keys + [key];
    WhatIsAdded(Usable(keys), Canonical(key));
  }

  lemma WhatIsAdded(kept: seq<string>, key: Result<string, ChordError>)
    ensures AddUsable(kept, key) == kept + match key
      case Err(_) => []
      case Ok(k) => if k in kept then [] else [k]
  {
    assert kept + [] == kept;
  }

  /** A repair keeps the first three usable combinations of each action, or all when there are fewer. */
  lemma WhatARepairKeeps(changed: Changed, id: string)
    requires id in changed
    ensures id in Normalized(changed)
    ensures Normalized(changed)[id] == Usable(changed[id])[..(if |Usable(changed[id])| < 3 then |Usable(changed[id])| else 3)]
  {
  }
}
