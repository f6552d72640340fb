/** Reading the first names of the items of a `{ ... }` group of a `use`, with braces nested to any depth. */
module Sources {

  predicate IsIdent(c: char) {
    'a' <= c <= 'z' || 'A' <= c <= 'Z' || '0' <= c <= '9' || c == '_'
  }

  /** White space, as ASCII has it. */
  predicate IsBlank(c: char) {
    var n := c as int;
    n == 32 || n == 9 || n == 10 || n == 12 || n == 13
  }

  /** The name a text starts with. */
  function Head(s: string): (r: string)
    ensures r <= s && (forall i | 0 <= i < |r| :: IsIdent(r[i])) && (|r| < |s| ==> !IsIdent(s[|r|]))
  {
    if s != "" && IsIdent(s[0]) then [s[0]] + Head(s[1..]) else ""
  }

  /** The names still to be found, at this depth, and whether an item may start here. */
  function Scan(s: string, depth: nat, atItem: bool): seq<string>
    requires depth > 0
    decreases |s|
  {
    if s == "" then []
    else if s[0] == '{' then Scan(s[1..], depth + 1, atItem)
    else if s[0] == '}' then (if depth == 1 then [] else Scan(s[1..], depth - 1, atItem))
    else if s[0] == ',' && depth == 1 then Scan(s[1..], depth, true)
    else if IsBlank(s[0]) then Scan(s[1..], depth, atItem)
    else if atItem && depth == 1 then
      var name := Head(s);
      if name == "" then Scan(s[1..], depth, false) else [name] + Scan(s[|name|..], depth, false)
    else Scan(s[1..], depth, atItem)
  }

  /** The loop computes Scan from depth one; what Scan finds is the subject of HeadsAreTheNames. */
  method GroupHeads(rest: string) returns (heads: seq<string>)
    ensures heads == Scan(rest, 1, true)
  {
    heads := [];
    var depth, atItem, skipUntil := 1, true, 0;
    var index := 0;
    while index < |rest|
      invariant 0 <= index <= |rest| && skipUntil <= |rest| && depth > 0
      invariant index < skipUntil ==> !atItem
      invariant heads + Scan(rest[(if index < skipUntil then skipUntil else index)..], depth, atItem) == Scan(rest, 1, true)
    {
      if index >= skipUntil {
        var c := rest[index];
        assert rest[index..][1..] == rest[index + 1..];
        if c == '{' {
          depth := depth + 1;
        } else if c == '}' {
          depth := depth - 1;
          if depth == 0 {
            return;
          }
        } else if c == ',' && depth == 1 {
          atItem := true;
        } else if IsBlank(c) {
        } else if atItem && depth == 1 {
          var name := Head(rest[index..]);
          skipUntil := index + |name|;
          assert rest[index..][|name|..] == rest[skipUntil..];
          if name != "" {
            heads := heads + [name];
          }
          atItem := false;
        }
      }
      index := index + 1;
    }
  }

  // ---- what a group is ----

  /** A text with its braces in pairs. */
  datatype Tree = Leaf(c: char) | Braces(inside: seq<Tree>)

  predicate IsInside(trees: seq<Tree>) {
    forall i | 0 <= i < |trees| ::
      match trees[i]
      case Leaf(c) => c != '{' && c != '}'
      case Braces(inside) => IsInside(inside)
  }

  function TextOf(trees: seq<Tree>): string {
    if trees == [] then "" else TreeText(trees[0]) + TextOf(trees[1..])
  }

  function TreeText(tree: Tree): string {
    match tree
    case Leaf(c) => [c]
    case Braces(inside) => "{" + TextOf(inside) + "}"
  }

  /** What is between two commas: nothing but blanks, or a name and whatever follows it, with its own groups. */
  datatype Segment = Blank(blanks: string) | Item(blanks: string, name: string, tail: seq<Tree>)

  predicate IsBlanks(s: string) {
    forall i | 0 <= i < |s| :: IsBlank(s[i])
  }

  predicate IsName(s: string) {
    s != "" && forall i | 0 <= i < |s| :: IsIdent(s[i])
  }

  /** A tail has no comma of its own group, and does not go on with the name. */
  predicate IsTail(tail: seq<Tree>) {
    && IsInside(tail)
    && (forall i | 0 <= i < |tail| :: tail[i] != Leaf(','))
    && (tail != [] && tail[0].Leaf? ==> !IsIdent(tail[0].c))
  }

  predicate IsSegment(s: Segment) {
    IsBlanks(s.blanks) && (s.Item? ==> IsName(s.name) && IsTail(s.tail))
  }

  function SegmentText(s: Segment): string {
    match s
    case Blank(blanks) => blanks
    case Item(blanks, name, tail) => blanks + name + TextOf(tail)
  }

  /** The segments with a comma between them. */
  function GroupText(segments: seq<Segment>): string {
    if segments == [] then ""
    else if |segments| == 1 then SegmentText(segments[0])
    else SegmentText(segments[0]) + "," + GroupText(segments[1..])
  }

  function NamesOf(segments: seq<Segment>): seq<string> {
    if segments == [] then []
    else (if segments[0].Item? then [segments[0].name] else []) + NamesOf(segments[1..])
  }

  // ---- the scan of such a text ----

  lemma {:induction false} BlanksAreSkipped(blanks: string, rest: string, depth: nat, atItem: bool)
    requires IsBlanks(blanks) && depth > 0
    ensures Scan(blanks + rest, depth, atItem) == Scan(rest, depth, atItem)
    decreases |blanks|
  {
    if blanks == "" {
      assert blanks + rest == rest;
    } else {
      assert (blanks + rest)[0] == blanks[0] && IsBlank(blanks[0]);
      assert (blanks + rest)[1..] == blanks[1..] + rest;
      BlanksAreSkipped(blanks[1..], rest, depth, atItem);
    }
  }

  predicate SkippedAt(tree: Tree, depth: nat, atItem: bool) {
    depth > 1 || (!atItem && tree != Leaf(','))
  }

  lemma OneIsSkipped(c: char, rest: string, depth: nat, atItem: bool)
    requires depth > 0 && c != '{' && c != '}' && SkippedAt(Leaf(c), depth, atItem)
    ensures Scan([c] + rest, depth, atItem) == Scan(rest, depth, atItem)
  {
    assert ([c] + rest)[1..] == rest;
  }

  lemma BraceGoesIn(rest: string, depth: nat, atItem: bool)
    requires depth > 0
    ensures Scan("{" + rest, depth, atItem) == Scan(rest, depth + 1, atItem)
    ensures Scan("}" + rest, depth + 1, atItem) == Scan(rest, depth, atItem)
  {
    assert ("{" + rest)[1..] == rest && ("}" + rest)[1..] == rest;
  }

  /** Inside a nested group, or after the name of an item, a text with its braces in pairs is passed over. */
  lemma {:induction false} TreesAreSkipped(trees: seq<Tree>, rest: string, depth: nat, atItem: bool)
    requires IsInside(trees) && depth > 0 && forall i | 0 <= i < |trees| :: SkippedAt(trees[i], depth, atItem)
    ensures Scan(TextOf(trees) + rest, depth, atItem) == Scan(rest, depth, atItem)
    decreases trees
  {
    if trees == [] {
      assert TextOf(trees) + rest == rest;
    } else {
      var more := TextOf(trees[1..]) + rest;
      assert TextOf(trees) + rest == TreeText(trees[0]) + more;
      TreesAreSkipped(trees[1..], rest, depth, atItem);
      TreeIsSkipped(trees[0], more, depth, atItem);
    }
  }

  lemma {:induction false} TreeIsSkipped(tree: Tree, rest: string, depth: nat, atItem: bool)
    requires IsInside([tree]) && depth > 0 && SkippedAt(tree, depth, atItem)
    ensures Scan(TreeText(tree) + rest, depth, atItem) == Scan(rest, depth, atItem)
    decreases tree
  {
    assert [tree][0] == tree;
    match tree
    case Leaf(c) => OneIsSkipped(c, rest, depth, atItem);
    case Braces(inside) =>
      assert TreeText(tree) + rest == "{" + (TextOf(inside) + ("}" + rest));
      BraceGoesIn(TextOf(inside) + ("}" + rest), depth, atItem);
      TreesAreSkipped(inside, "}" + rest, depth + 1, atItem);
      BraceGoesIn(rest, depth, atItem);
  }

  lemma {:induction false} HeadIsName(name: string, rest: string)
    requires (forall i | 0 <= i < |name| :: IsIdent(name[i])) && (rest != "" ==> !IsIdent(rest[0]))
    ensures Head(name + rest) == name
  {
    if name == "" {
      assert name + rest == rest;
    } else {
      assert (name + rest)[0] == name[0] && (name + rest)[1..] == name[1..] + rest;
      HeadIsName(name[1..], rest);
    }
  }

  /** What ends a segment: the comma before the next one, or the brace that closes the group. */
  predicate IsEnd(rest: string) {
    rest != "" && (rest[0] == ',' || rest[0] == '}')
  }

  lemma SegmentIsRead(s: Segment, rest: string)
    requires IsSegment(s) && IsEnd(rest)
    ensures Scan(SegmentText(s) + rest, 1, true)
         == (if s.Item? then [s.name] else []) + Scan(rest, 1, s.Blank?)
  {
    match s
    case Blank(blanks) =>
      BlanksAreSkipped(blanks, rest, 1, true);
      assert [] + Scan(rest, 1, true) == Scan(rest, 1, true);
    case Item(blanks, name, tail) =>
      var after := TextOf(tail) + rest;
      assert SegmentText(s) + rest == blanks + (name + after);
      BlanksAreSkipped(blanks, name + after, 1, true);
      AfterTheName(tail, rest);
      HeadIsName(name, after);
      assert (name + after)[|name|..] == after;
      assert (name + after)[0] == name[0] && IsIdent(name[0]);
      TreesAreSkipped(tail, rest, 1, false);
  }

  lemma AfterTheName(tail: seq<Tree>, rest: string)
    requires IsTail(tail) && IsEnd(rest)
    ensures TextOf(tail) + rest != "" && !IsIdent((TextOf(tail) + rest)[0])
  {
    if tail != [] {
      match tail[0]
      case Leaf(c) => assert TextOf(tail)[0] == c;
      case Braces(inside) => assert TextOf(tail)[0] == '{';
    }
  }

  lemma SegmentThenComma(s: Segment, next: string)
    requires IsSegment(s)
    ensures Scan(SegmentText(s) + ("," + next), 1, true) == NamesOf([s]) + Scan(next, 1, true)
  {
    SegmentIsRead(s, "," + next);
    assert ("," + next)[1..] == next && [s][1..] == [];
  }

  lemma LastSegment(s: Segment, close: string)
    requires IsSegment(s) && close != "" && close[0] == '}'
    ensures Scan(SegmentText(s) + close, 1, true) == NamesOf([s])
  {
    SegmentIsRead(s, close);
    assert [s][1..] == [];
  }

  lemma NamesFront(segments: seq<Segment>)
    requires segments != []
    ensures NamesOf(segments) == NamesOf([segments[0]]) + NamesOf(segments[1..])
  {
    assert [segments[0]][1..] == [];
  }

  lemma GroupFront(segments: seq<Segment>, close: string)
    requires |segments| > 1
    ensures GroupText(segments) + close == SegmentText(segments[0]) + ("," + (GroupText(segments[1..]) + close))
  {
    Regroup(SegmentText(segments[0]), ",", GroupText(segments[1..]), close);
  }

  lemma Regroup(a: string, b: string, c: string, d: string)
    ensures a + b + c + d == a + (b + (c + d))
  {
  }

  lemma {:induction false} GroupIsRead(segments: seq<Segment>, close: string)
    requires forall i | 0 <= i < |segments| :: IsSegment(segments[i])
    requires close != "" && close[0] == '}'
    ensures Scan(GroupText(segments) + close, 1, true) == NamesOf(segments)
    decreases |segments|
  {
    if segments == [] {
      assert GroupText(segments) + close == close;
    } else if |segments| == 1 {
      assert segments == [segments[0]];
      LastSegment(segments[0], close);
    } else {
      GroupIsRead(segments[1..], close);
      GroupFront(segments, close);
      SegmentThenComma(segments[0], GroupText(segments[1..]) + close);
      NamesFront(segments);
    }
  }

  /**
   For every group, however nested, whose items start with a name: the scan finds the first name of
   each of its own items, in order, and nothing of what comes after its closing brace.
   */
  lemma HeadsAreTheNames(segments: seq<Segment>, after: string)
    requires forall i | 0 <= i < |segments| :: IsSegment(segments[i])
    ensures Scan(GroupText(segments) + "}" + after, 1, true) == NamesOf(segments)
  {
    GroupIsRead(segments, "}" + after);
    assert GroupText(segments) + "}" + after == GroupText(segments) + ("}" + after);
  }

  /** A name is made of the letters and digits of ASCII and of underscores, by their codes; blanks are the five of ASCII. */
  lemma WhatNamesAreMadeOf(c: char)
    ensures var n := c as int; IsIdent(c) <==> 65 <= n < 91 || 97 <= n < 123 || 48 <= n < 58 || n == 95
    ensures IsBlank(c) <==> c == ' ' || c == '\t' || c == '\n' || c == '\r' || c as int == 12
  {
  }
}
