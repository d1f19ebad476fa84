/** `patchYText` of packages/plugin/src/live/text/patch.ts: the edits of a shared text that make it a given one. */
module PatchText {
  import opened Common
  import Anchors

  type CodePoint = c: nat | c < 0x110000

  type Text = seq<CodePoint>

  /** UTF-16 units, which lengths and positions in the shared text count. */
  function Units(c: CodePoint): nat { if c < 0x10000 then 1 else 2 }

  function Length(s: Text): nat
  {
    if s == [] then 0 else Units(s[0]) + Length(s[1..])
  }

  /** A code point in UTF-16 (section 2.1 of RFC 2781): itself, or a surrogate pair. */
  function Utf16(c: CodePoint): seq<nat>
  {
    if c < 0x10000 then [c] else [0xD800 + (c - 0x10000) / 0x400, 0xDC00 + (c - 0x10000) % 0x400]
  }

  function AllUtf16(s: Text): seq<nat>
  {
    if s == [] then [] else Utf16(s[0]) + AllUtf16(s[1..])
  }

  lemma {:induction false} LengthIsUnits(s: Text)
    ensures Length(s) == |AllUtf16(s)|
  {
    if s != [] { LengthIsUnits(s[1..]); }
  }

  lemma {:induction false} LengthConcat(a: Text, b: Text)
    ensures Length(a + b) == Length(a) + Length(b)
  {
    if a == [] {
      assert a + b == b;
    } else {
      LengthConcat(a[1..], b);
      assert (a + b)[1..] == a[1..] + b;
    }
  }

  lemma {:induction false} LongerIsLonger(x: Text, y: Text)
    requires x < y
    ensures Length(x) < Length(y)
  {
    assert y == x + y[|x|..];
    LengthConcat(x, y[|x|..]);
  }

  lemma {:induction false} SplitIsUnique(content: Text, x: Text, y: Text)
    requires x <= content && y <= content && Length(x) == Length(y)
    ensures x == y
  {
    if |x| < |y| { LongerIsLonger(x, y); } else if |y| < |x| { LongerIsLonger(y, x); }
  }

  /** As many code points put in since. */
  ghost function New(n: nat): (r: seq<Option<nat>>)
    ensures |r| == n
  {
    seq(n, _ => None)
  }

  lemma {:induction false} CutOut(content: Text, before: Text, removed: Text, after: Text, from: nat, upto: nat)
    requires content == before + removed + after && from <= |content| && upto <= |content|
    requires content[..from] == before && content[..upto] == before + removed
    ensures from == |before| && upto == |before| + |removed| && content[..from] + content[upto..] == before + after
  {
  }

  /** A shared text, edited in place. A position or a length that splits a code point would garble it. */
  class SharedText {
    var content: Text

    /** Where each code point was once; none for one put in since. */
    ghost var origins: seq<Option<nat>>

    ghost predicate Valid()
      reads this
    {
      |origins| == |content|
    }

    constructor (content: Text)
      ensures Valid() && this.content == content && forall i :: 0 <= i < |content| ==> origins[i] == Some(i)
    {
      this.content := content;
      origins := seq(|content|, i => Some(i));
    }

    /** Removes the code points that the `units` from `at` hold. */
    method Delete(at: nat, units: nat, ghost before: Text, ghost removed: Text, ghost after: Text)
      requires Valid() && content == before + removed + after && Length(before) == at && Length(removed) == units
      modifies this
      ensures Valid() && content == before + after && origins == old(origins)[..|before|] + old(origins)[|before| + |removed|..]
    {
      var from := IndexOf(content, at, before);
      assert content == before + (removed + after);
      SplitIsUnique(content, content[..from], before);
      LengthConcat(before, removed);
      assert before + removed <= content;
      var upto := IndexOf(content, at + units, before + removed);
      SplitIsUnique(content, content[..upto], before + removed);
      CutOut(content, before, removed, after, from, upto);
      content, origins := content[..from] + content[upto..], origins[..from] + origins[upto..];
    }

    /** Puts `added` at `at`. */
    method Insert(at: nat, added: Text, ghost before: Text, ghost after: Text)
      requires Valid() && content == before + after && Length(before) == at
      modifies this
      ensures Valid() && content == before + added + after && origins == old(origins)[..|before|] + New(|added|) + old(origins)[|before|..]
    {
      var from := IndexOf(content, at, before);
      SplitIsUnique(content, content[..from], before);
      content, origins := content[..from] + added + content[from..], origins[..from] + New(|added|) + origins[from..];
    }
  }

  /** The code point a position falls at. */
  method IndexOf(content: Text, at: nat, ghost before: Text) returns (index: nat)
    requires before <= content && Length(before) == at
    ensures index <= |content| && Length(content[..index]) == at
  {
    index := 0;
    var left := at;
    while left > 0
      invariant index <= |before| && Length(before[index..]) == left && Length(content[..index]) == at - left
    {
      assert before[index..] != [];
      assert before[index..][0] == content[index] && before[index..][1..] == before[index + 1..];
      assert content[..index + 1] == content[..index] + [content[index]];
      LengthConcat(content[..index], [content[index]]);
      left := left - Units(content[index]);
      index := index + 1;
    }
  }

  datatype Kind = Keep | Remove | Add

  /** A run of an edit script. */
  datatype Part = Part(kind: Kind, value: Text)

  /** What is removed and added after `keep`. */
  datatype Group = Group(keep: Text, removed: Text, added: Text)

  const MIN_ANCHOR: nat := 10

  function OldOf(parts: seq<Part>, n: nat): Text
    requires n <= |parts|
  {
    if n == 0 then [] else OldOf(parts, n - 1) + if parts[n - 1].kind == Add then [] else parts[n - 1].value
  }

  function NewOf(parts: seq<Part>, n: nat): Text
    requires n <= |parts|
  {
    if n == 0 then [] else NewOf(parts, n - 1) + if parts[n - 1].kind == Remove then [] else parts[n - 1].value
  }

  /** `diffChars` of jsdiff: a script of non-empty parts, or out of its edit budget. */
  type CharDiffer = (Text, Text) -> Option<seq<Part>>

  ghost predicate IsScript(parts: seq<Part>, from: Text, upto: Text)
  {
    && OldOf(parts, |parts|) == from && NewOf(parts, |parts|) == upto
    && forall k :: 0 <= k < |parts| ==> parts[k].value != []
  }

  ghost predicate IsCharDiffer(differ: CharDiffer)
  {
    forall from, upto :: differ(from, upto).Some? ==> IsScript(differ(from, upto).value, from, upto)
  }

  /** The text the groups cover before their edits, and after. */
  function Before(groups: seq<Group>): Text
  {
    if groups == [] then []
    else Before(groups[..|groups| - 1]) + groups[|groups| - 1].keep + groups[|groups| - 1].removed
  }

  function After(groups: seq<Group>): Text
  {
    if groups == [] then []
    else After(groups[..|groups| - 1]) + groups[|groups| - 1].keep + groups[|groups| - 1].added
  }

  function OpsOf(g: Group): nat
  {
    (if g.removed != [] then 1 else 0) + (if g.added != [] then 1 else 0)
  }

  lemma {:induction false} MoreGroups(groups: seq<Group>, g: Group)
    ensures Before(groups + [g]) == Before(groups) + g.keep + g.removed
    ensures After(groups + [g]) == After(groups) + g.keep + g.added
  {
    assert (groups + [g])[..|groups|] == groups;
  }

  lemma {:induction false} LastGroup(groups: seq<Group>, g: Group)
    requires groups != []
    ensures Before(groups[|groups| - 1 := g]) == Before(groups[..|groups| - 1]) + g.keep + g.removed
    ensures After(groups[|groups| - 1 := g]) == After(groups[..|groups| - 1]) + g.keep + g.added
  {
    assert groups[|groups| - 1 := g] == groups[..|groups| - 1] + [g];
    MoreGroups(groups[..|groups| - 1], g);
  }

  /** One group with its part added. */
  function Grown(g: Group, part: Part): Group
  {
    if part.kind == Add then g.(added := g.added + part.value) else g.(removed := g.removed + part.value)
  }

  lemma {:induction false} GrownGroup(x: Text, g: Group, part: Part)
    requires part.kind != Keep
    ensures x + Grown(g, part).keep + Grown(g, part).removed == x + g.keep + g.removed + (if part.kind == Add then [] else part.value)
    ensures x + Grown(g, part).keep + Grown(g, part).added == x + g.keep + g.added + (if part.kind == Remove then [] else part.value)
  {
  }

  /** One changed part, in a group of its own or in the last. */
  function WithPart(groups: seq<Group>, keep: Text, part: Part): seq<Group>
  {
    if keep != [] || groups == [] then groups + [Grown(Group(keep, [], []), part)]
    else groups[|groups| - 1 := Grown(groups[|groups| - 1], part)]
  }

  lemma {:induction false} PartAdded(groups: seq<Group>, keep: Text, part: Part)
    requires part.kind != Keep
    ensures Before(WithPart(groups, keep, part)) == Before(groups) + keep + if part.kind == Add then [] else part.value
    ensures After(WithPart(groups, keep, part)) == After(groups) + keep + if part.kind == Remove then [] else part.value
  {
    if keep != [] || groups == [] {
      var g := Group(keep, [], []);
      MoreGroups(groups, Grown(g, part));
      GrownGroup(Before(groups), g, part);
      GrownGroup(After(groups), g, part);
      assert Before(groups) + keep + [] == Before(groups) + keep && After(groups) + keep + [] == After(groups) + keep;
    } else {
      var front, g := groups[..|groups| - 1], groups[|groups| - 1];
      LastGroup(groups, Grown(g, part));
      GrownGroup(Before(front), g, part);
      GrownGroup(After(front), g, part);
      assert Before(groups) + keep == Before(groups) && After(groups) + keep == After(groups);
    }
  }

  /** All that the first `n` parts keep, and all that groups do. */
  ghost function KeptOf(parts: seq<Part>, n: nat): Text
    requires n <= |parts|
  {
    if n == 0 then [] else KeptOf(parts, n - 1) + if parts[n - 1].kind == Keep then parts[n - 1].value else []
  }

  ghost function Kept(groups: seq<Group>): Text
  {
    if groups == [] then [] else Kept(groups[..|groups| - 1]) + groups[|groups| - 1].keep
  }

  lemma {:induction false} PartKept(groups: seq<Group>, keep: Text, part: Part)
    requires part.kind != Keep
    ensures Kept(WithPart(groups, keep, part)) == Kept(groups) + keep
  {
    if keep != [] || groups == [] {
      KeptMore(groups, Grown(Group(keep, [], []), part));
    } else {
      var front, last := groups[..|groups| - 1], groups[|groups| - 1];
      assert groups == front + [last] && WithPart(groups, keep, part) == front + [Grown(last, part)];
      KeptMore(front, last);
      KeptMore(front, Grown(last, part));
    }
  }

  lemma {:induction false} KeptMore(groups: seq<Group>, g: Group)
    ensures Kept(groups + [g]) == Kept(groups) + g.keep
  {
    assert (groups + [g])[..|groups|] == groups;
  }

  /** Every group edits something, and text was kept between any two. */
  ghost predicate GroupsOk(groups: seq<Group>)
  {
    forall i :: 0 <= i < |groups| ==> OpsOf(groups[i]) > 0 && (i > 0 ==> groups[i].keep != [])
  }

  lemma {:induction false} PartKeepsOk(groups: seq<Group>, keep: Text, part: Part)
    requires part.kind != Keep && part.value != [] && GroupsOk(groups)
    ensures GroupsOk(WithPart(groups, keep, part))
  {
  }

  /** The first `n` parts read as the groups and what is kept after them. */
  ghost predicate Grouped(groups: seq<Group>, keep: Text, parts: seq<Part>, n: nat)
    requires n <= |parts|
  {
    && Before(groups) + keep == OldOf(parts, n) && After(groups) + keep == NewOf(parts, n) && Kept(groups) + keep == KeptOf(parts, n)
    && ((forall k :: 0 <= k < |parts| ==> parts[k].value != []) ==> GroupsOk(groups))
  }

  lemma {:induction false} KeepGrouped(groups: seq<Group>, keep: Text, parts: seq<Part>, n: nat)
    requires n < |parts| && Grouped(groups, keep, parts, n) && parts[n].kind == Keep
    ensures Grouped(groups, keep + parts[n].value, parts, n + 1)
  {
    KeepMore(groups, keep, parts[n].value);
    Regroup(Kept(groups), keep, parts[n].value);
  }

  lemma {:induction false} EditGrouped(groups: seq<Group>, keep: Text, parts: seq<Part>, n: nat)
    requires n < |parts| && Grouped(groups, keep, parts, n) && parts[n].kind != Keep
    ensures Grouped(WithPart(groups, keep, parts[n]), [], parts, n + 1)
  {
    var part := parts[n];
    PartAdded(groups, keep, part);
    PartKept(groups, keep, part);
    if part.value != [] && GroupsOk(groups) { PartKeepsOk(groups, keep, part); }
  }

  /** The groups of a script, and the text kept after the last. */
  method GroupParts(parts: seq<Part>) returns (groups: seq<Group>, keep: Text)
    ensures Before(groups) + keep == OldOf(parts, |parts|) && After(groups) + keep == NewOf(parts, |parts|)
    ensures (forall k :: 0 <= k < |parts| ==> parts[k].value != []) ==> GroupsOk(groups)
    ensures Kept(groups) + keep == KeptOf(parts, |parts|)
  {
    groups, keep := [], [];
    for i := 0 to |parts|
      invariant Grouped(groups, keep, parts, i)
    {
      var part := parts[i];
      if part.kind == Keep {
        KeepGrouped(groups, keep, parts, i);
        keep := keep + part.value;
      } else {
        EditGrouped(groups, keep, parts, i);
        groups := WithPart(groups, keep, part);
        keep := [];
      }
    }
  }

  lemma {:induction false} KeepMore(groups: seq<Group>, keep: Text, more: Text)
    ensures Before(groups) + (keep + more) == Before(groups) + keep + more && After(groups) + (keep + more) == After(groups) + keep + more
  {
  }

  /** A group takes the next one in, with the text kept between them. */
  function Absorbed(left: Group, g: Group): Group
  {
    Group(left.keep, left.removed + g.keep + g.removed, left.added + g.keep + g.added)
  }

  /** A group that edits twice is not followed closely by another. */
  ghost predicate FoldedOk(folded: seq<Group>)
  {
    && (forall i :: 0 <= i < |folded| ==> OpsOf(folded[i]) > 0)
    && forall i :: 0 < i < |folded| ==> Length(folded[i].keep) >= MIN_ANCHOR || OpsOf(folded[i - 1]) == 1
  }

  lemma {:induction false} AbsorbedSame(folded: seq<Group>, g: Group)
    requires folded != []
    ensures var next := folded[|folded| - 1 := Absorbed(folded[|folded| - 1], g)];
      Before(next) == Before(folded) + g.keep + g.removed && After(next) == After(folded) + g.keep + g.added
  {
    var front, left := folded[..|folded| - 1], folded[|folded| - 1];
    LastGroup(folded, Absorbed(left, g));
    assert Before(front) + left.keep + (left.removed + g.keep + g.removed) == Before(front) + left.keep + left.removed + g.keep + g.removed;
    assert After(front) + left.keep + (left.added + g.keep + g.added) == After(front) + left.keep + left.added + g.keep + g.added;
  }

  lemma {:induction false} PrefixGroups(groups: seq<Group>, i: nat)
    requires i < |groups|
    ensures Before(groups[..i + 1]) == Before(groups[..i]) + groups[i].keep + groups[i].removed
    ensures After(groups[..i + 1]) == After(groups[..i]) + groups[i].keep + groups[i].added
  {
    assert groups[..i + 1] == groups[..i] + [groups[i]];
    MoreGroups(groups[..i], groups[i]);
  }

  /** Two groups stay two: their anchor is long, or they are two edits in all. */
  predicate StayApart(groups: seq<Group>, i: nat)
    requires 0 < i < |groups|
  {
    Length(groups[i].keep) >= MIN_ANCHOR || OpsOf(groups[i - 1]) + OpsOf(groups[i]) < 3
  }

  ghost predicate AllApart(groups: seq<Group>)
  {
    forall i {:trigger StayApart(groups, i)} :: 0 < i < |groups| ==> StayApart(groups, i)
  }

  /** The groups with one more: taken into the last where its anchor is short and the two edit three times or more. */
  function WithGroup(folded: seq<Group>, group: Group): seq<Group>
  {
    var n := |folded|;
    if n > 0 && Length(group.keep) < MIN_ANCHOR && OpsOf(folded[n - 1]) + OpsOf(group) >= 3 then
      folded[n - 1 := Absorbed(folded[n - 1], group)]
    else folded + [group]
  }

  lemma {:induction false} WithGroupReads(folded: seq<Group>, group: Group)
    ensures var next := WithGroup(folded, group);
      Before(next) == Before(folded) + group.keep + group.removed && After(next) == After(folded) + group.keep + group.added
  {
    if WithGroup(folded, group) == folded + [group] { MoreGroups(folded, group); } else { AbsorbedSame(folded, group); }
  }

  lemma {:induction false} WithGroupOk(folded: seq<Group>, group: Group)
    requires FoldedOk(folded) && OpsOf(group) > 0
    ensures FoldedOk(WithGroup(folded, group))
  {
    var next, n := WithGroup(folded, group), |folded|;
    if next == folded + [group] {
      if n > 0 { assert next[n - 1] == folded[n - 1] && OpsOf(folded[n - 1]) > 0; }
    } else {
      assert next[n - 1].keep == folded[n - 1].keep && OpsOf(next[n - 1]) > 0;
    }
  }

  lemma {:induction false} NotFolded(groups: seq<Group>, i: nat)
    requires AllApart(groups) && i < |groups|
    ensures WithGroup(groups[..i], groups[i]) == groups[..i + 1]
  {
    assert groups[..i] + [groups[i]] == groups[..i + 1];
    if i > 0 { assert StayApart(groups, i); }
  }

  /** Groups with short anchors between them folded into one edit, and no others. */
  method Fold(groups: seq<Group>) returns (folded: seq<Group>)
    ensures Before(folded) == Before(groups) && After(folded) == After(groups)
    ensures GroupsOk(groups) ==> FoldedOk(folded)
    ensures AllApart(groups) ==> folded == groups
  {
    folded := [];
    for i := 0 to |groups|
      invariant Before(folded) == Before(groups[..i]) && After(folded) == After(groups[..i])
      invariant GroupsOk(groups) ==> FoldedOk(folded)
      invariant AllApart(groups) ==> folded == groups[..i]
    {
      var group := groups[i];
      PrefixGroups(groups, i);
      WithGroupReads(folded, group);
      if GroupsOk(groups) { WithGroupOk(folded, group); }
      if AllApart(groups) { NotFolded(groups, i); }
      ghost var next := WithGroup(folded, group);
      var n := |folded|;
      if n > 0 && Length(group.keep) < MIN_ANCHOR && OpsOf(folded[n - 1]) + OpsOf(group) >= 3 {
        folded := folded[n - 1 := Absorbed(folded[n - 1], group)];
      } else {
        folded := folded + [group];
      }
      assert folded == next;
    }
    assert groups[..|groups|] == groups;
  }

  lemma {:induction false} RegroupFive(a: Text, b: Text, c: Text, d: Text, e: Text)
    ensures (a + b + c) + d + e == a + b + (c + d + e)
  {
  }

  lemma {:induction false} FrontThenLast(g: Group, middle: seq<Group>, l: Group)
    ensures Before([g] + middle + [l]) == g.keep + g.removed + Before(middle + [l])
    ensures After([g] + middle + [l]) == g.keep + g.added + After(middle + [l])
    decreases |middle| + 1, 1
  {
    FrontGroups([g] + middle);
    assert ([g] + middle)[1..] == middle;
    MoreGroups(middle, l);
    MoreGroups([g] + middle, l);
    RegroupFive(g.keep, g.removed, Before(middle), l.keep, l.removed);
    RegroupFive(g.keep, g.added, After(middle), l.keep, l.added);
  }

  lemma {:induction false} FrontGroups(groups: seq<Group>)
    requires groups != []
    ensures Before(groups) == groups[0].keep + groups[0].removed + Before(groups[1..])
    ensures After(groups) == groups[0].keep + groups[0].added + After(groups[1..])
    decreases |groups|, 0
  {
    if |groups| == 1 {
      OneGroup(groups);
    } else {
      var g, l, middle := groups[0], groups[|groups| - 1], groups[1..|groups| - 1];
      TwoEnds(groups);
      FrontThenLast(g, middle, l);
    }
  }

  lemma {:induction false} OneGroup(groups: seq<Group>)
    requires |groups| == 1
    ensures Before(groups) == groups[0].keep + groups[0].removed && After(groups) == groups[0].keep + groups[0].added
    ensures groups[1..] == []
  {
    assert groups[..0] == [];
  }

  lemma {:induction false} TwoEnds(groups: seq<Group>)
    requires |groups| > 1
    ensures var l, middle := groups[|groups| - 1], groups[1..|groups| - 1];
      groups == [groups[0]] + middle + [l] && groups[1..] == middle + [l]
  {
  }

  lemma {:induction false} WithoutMiddle(done: Text, middle: Text, later: Text)
    ensures middle == [] ==> done + middle + later == done + later
    ensures |done + middle + later| == |done| + |middle| + |later| && |done + later| == |done| + |later|
  {
  }

  /** Takes out what a group removes, if anything. */
  method RemoveFrom(text: SharedText, at: nat, removed: Text, ghost done: Text, ghost later: Text)
    requires text.Valid() && at == Length(done) && text.content == done + removed + later
    modifies text
    ensures text.Valid() && text.content == done + later
    ensures text.origins == old(text.origins)[..|done|] + old(text.origins)[|done| + |removed|..]
  {
    WithoutMiddle(done, removed, later);
    if removed != [] { text.Delete(at, Length(removed), done, removed, later); }
  }

  /** And puts in what it adds. */
  method AddTo(text: SharedText, at: nat, added: Text, ghost done: Text, ghost later: Text)
    requires text.Valid() && at == Length(done) && text.content == done + later
    modifies text
    ensures text.Valid() && text.content == done + added + later
    ensures text.origins == old(text.origins)[..|done|] + New(|added|) + old(text.origins)[|done|..]
  {
    WithoutMiddle(done, added, later);
    if added != [] { text.Insert(at, added, done, later); } else { NoneNew(text.origins, |done|); }
  }

  lemma {:induction false} NoneNew(origins: seq<Option<nat>>, n: nat)
    requires n <= |origins|
    ensures origins == origins[..n] + New(0) + origins[n..]
  {
  }

  lemma {:induction false} SplicedOrigins(was: seq<Option<nat>>, between: seq<Option<nat>>, n: nat, gone: nat, put: seq<Option<nat>>)
    requires n + gone <= |was| && between == was[..n] + was[n + gone..]
    ensures between[..n] + put + between[n..] == was[..n] + put + was[n + gone..]
  {
  }

  /** One group's edits, right after the text kept before them. */
  method EditGroup(text: SharedText, at: nat, group: Group, ghost done: Text, ghost later: Text) returns (next: nat)
    requires text.Valid() && at == Length(done) && text.content == done + group.removed + later
    modifies text
    ensures text.Valid() && text.content == done + group.added + later && next == Length(done + group.added)
    ensures text.origins == old(text.origins)[..|done|] + New(|group.added|) + old(text.origins)[|done| + |group.removed|..]
  {
    ghost var was := text.origins;
    RemoveFrom(text, at, group.removed, done, later);
    ghost var between := text.origins;
    AddTo(text, at, group.added, done, later);
    SplicedOrigins(was, between, |done|, |group.removed|, New(|group.added|));
    LengthConcat(done, group.added);
    next := at + Length(group.added);
  }

  /** How many code points of the old text the first `n` groups are about. */
  ghost function Covered(groups: seq<Group>, n: nat): nat
    requires n <= |groups|
  {
    if n == 0 then 0 else Covered(groups, n - 1) + |groups[n - 1].keep| + |groups[n - 1].removed|
  }

  lemma {:induction false} CoveredIs(groups: seq<Group>, n: nat)
    requires n <= |groups|
    ensures Covered(groups, n) == |Before(groups[..n])|
  {
    if n > 0 {
      CoveredIs(groups, n - 1);
      PrefixGroups(groups, n - 1);
    }
  }

  lemma {:induction false} CoveredFits(groups: seq<Group>, i: nat, n: nat)
    requires i <= n <= |groups|
    ensures Covered(groups, i) <= Covered(groups, n)
    decreases n
  {
    if i < n { CoveredFits(groups, i, n - 1); }
  }

  /** Where the code points up to the first `n` groups' edits were, `head` of them before all groups. */
  ghost function Carried(was: seq<Option<nat>>, head: nat, groups: seq<Group>, n: nat): seq<Option<nat>>
    requires n <= |groups| && head + Covered(groups, n) <= |was|
  {
    if n == 0 then was[..head]
    else
      var g, at := groups[n - 1], head + Covered(groups, n - 1);
      Carried(was, head, groups, n - 1) + was[at..at + |g.keep|] + New(|g.added|)
  }

  /** The next `k` code points stay, `r` go, and `put` come. */
  lemma {:induction false} SpliceCarried(was: seq<Option<nat>>, front: seq<Option<nat>>, at: nat, k: nat, r: nat, put: seq<Option<nat>>)
    requires at + k + r <= |was|
    ensures var now := front + was[at..];
      && |front| + k + r <= |now|
      && now[..|front| + k] + put + now[|front| + k + r..] == front + was[at..at + k] + put + was[at + k + r..]
  {
    var now := front + was[at..];
    assert now[..|front| + k] == front + was[at..at + k];
    assert now[|front| + k + r..] == was[at + k + r..];
  }

  lemma {:induction false} CarriedMore(was: seq<Option<nat>>, head: nat, groups: seq<Group>, i: nat)
    requires i < |groups| && head + Covered(groups, i + 1) <= |was|
    ensures var g, at := groups[i], head + Covered(groups, i);
      && at + |g.keep| + |g.removed| == head + Covered(groups, i + 1)
      && Carried(was, head, groups, i + 1) == Carried(was, head, groups, i) + was[at..at + |g.keep|] + New(|g.added|)
  {
  }

  lemma {:induction false} CarriedNext(was: seq<Option<nat>>, head: nat, groups: seq<Group>, i: nat)
    requires i < |groups| && head + Covered(groups, i) <= |was| && head + Covered(groups, i + 1) <= |was|
    ensures var g, front, at := groups[i], Carried(was, head, groups, i), head + Covered(groups, i);
      var now := front + was[at..];
      && |front| + |g.keep| + |g.removed| <= |now|
      && now[..|front| + |g.keep|] + New(|g.added|) + now[|front| + |g.keep| + |g.removed|..]
         == Carried(was, head, groups, i + 1) + was[head + Covered(groups, i + 1)..]
      && |Carried(was, head, groups, i + 1)| == |front| + |g.keep| + |g.added|
  {
    CarriedMore(was, head, groups, i);
    var g, front, at := groups[i], Carried(was, head, groups, i), head + Covered(groups, i);
    SpliceCarried(was, front, at, |g.keep|, |g.removed|, New(|g.added|));
    assert |was[at..at + |g.keep|]| == |g.keep|;
  }

  /** All but what the groups remove is as it was, from `head` on and before it. */
  ghost predicate KeepsRest(was: seq<Option<nat>>, now: seq<Option<nat>>, head: nat, groups: seq<Group>)
  {
    && head + Covered(groups, |groups|) <= |was|
    && now == Carried(was, head, groups, |groups|) + was[head + Covered(groups, |groups|)..]
  }

  /** The first `i` groups' edits are in; what they keep, and all that is left, was there. */
  ghost predicate EditedTo(at: nat, content: Text, origins: seq<Option<nat>>, was: seq<Option<nat>>, start: Text, folded: seq<Group>, i: nat, rest: Text)
    requires i <= |folded|
  {
    && at == Length(start + After(folded[..i])) && content == start + After(folded[..i]) + Before(folded[i..]) + rest
    && |start| + Covered(folded, i) <= |was| && |Carried(was, |start|, folded, i)| == |start + After(folded[..i])|
    && origins == Carried(was, |start|, folded, i) + was[|start| + Covered(folded, i)..]
  }

  /** The next group's edits. */
  method EditNext(text: SharedText, at: nat, folded: seq<Group>, i: nat, ghost was: seq<Option<nat>>, ghost start: Text, ghost rest: Text) returns (next: nat)
    requires i < |folded| && text.Valid() && EditedTo(at, text.content, text.origins, was, start, folded, i, rest)
    requires |start| + Covered(folded, |folded|) <= |was|
    modifies text
    ensures text.Valid() && EditedTo(next, text.content, text.origins, was, start, folded, i + 1, rest)
  {
    var group := folded[i];
    ghost var done, later, now := start + After(folded[..i]) + group.keep, Before(folded[i + 1..]) + rest, text.origins;
    BeforeNext(at, text.content, now, was, start, folded, i, rest);
    LengthConcat(start + After(folded[..i]), group.keep);
    next := EditGroup(text, at + Length(group.keep), group, done, later);
    NextEdited(next, text.content, now, text.origins, was, start, folded, i, rest);
  }

  lemma {:induction false} BeforeNext(at: nat, content: Text, now: seq<Option<nat>>, was: seq<Option<nat>>, start: Text, folded: seq<Group>, i: nat, rest: Text)
    requires i < |folded| && EditedTo(at, content, now, was, start, folded, i, rest)
    ensures content == (start + After(folded[..i]) + folded[i].keep) + folded[i].removed + (Before(folded[i + 1..]) + rest)
    ensures start + After(folded[..i]) + folded[i].keep + folded[i].added == start + After(folded[..i + 1])
  {
    GroupOpens(folded, i, start + After(folded[..i]), rest);
    GroupCloses(folded, i, start);
  }

  lemma {:induction false} NextOrigins(now: seq<Option<nat>>, next: seq<Option<nat>>, was: seq<Option<nat>>, head: nat, folded: seq<Group>, i: nat, n: nat)
    requires i < |folded| && head + Covered(folded, i) <= |was| && head + Covered(folded, i + 1) <= |was|
    requires |Carried(was, head, folded, i)| == n && now == Carried(was, head, folded, i) + was[head + Covered(folded, i)..]
    requires var g, m := folded[i], n + |folded[i].keep|;
      m + |g.removed| <= |now| && next == now[..m] + New(|g.added|) + now[m + |g.removed|..]
    ensures next == Carried(was, head, folded, i + 1) + was[head + Covered(folded, i + 1)..]
    ensures |Carried(was, head, folded, i + 1)| == n + |folded[i].keep| + |folded[i].added|
  {
    CarriedNext(was, head, folded, i);
  }

  lemma {:induction false} NextEdited(at: nat, content: Text, now: seq<Option<nat>>, next: seq<Option<nat>>, was: seq<Option<nat>>, start: Text, folded: seq<Group>, i: nat, rest: Text)
    requires i < |folded| && |start| + Covered(folded, |folded|) <= |was|
    requires |start| + Covered(folded, i) <= |was| && |Carried(was, |start|, folded, i)| == |start + After(folded[..i])|
    requires now == Carried(was, |start|, folded, i) + was[|start| + Covered(folded, i)..]
    requires var g, done := folded[i], start + After(folded[..i]) + folded[i].keep;
      && at == Length(done + g.added) && content == done + g.added + (Before(folded[i + 1..]) + rest)
      && |done| + |g.removed| <= |now| && next == now[..|done|] + New(|g.added|) + now[|done| + |g.removed|..]
    ensures EditedTo(at, content, next, was, start, folded, i + 1, rest)
  {
    var before := start + After(folded[..i]);
    assert |before + folded[i].keep| == |before| + |folded[i].keep|;
    CoveredFits(folded, i + 1, |folded|);
    NextContent(content, start, folded, i, rest);
    NextOrigins(now, next, was, |start|, folded, i, |before|);
  }

  lemma {:induction false} NextContent(content: Text, start: Text, folded: seq<Group>, i: nat, rest: Text)
    requires i < |folded|
    requires content == start + After(folded[..i]) + folded[i].keep + folded[i].added + (Before(folded[i + 1..]) + rest)
    ensures content == start + After(folded[..i + 1]) + Before(folded[i + 1..]) + rest
    ensures start + After(folded[..i]) + folded[i].keep + folded[i].added == start + After(folded[..i + 1])
    ensures |start + After(folded[..i + 1])| == |start + After(folded[..i])| + |folded[i].keep| + |folded[i].added|
  {
    GroupCloses(folded, i, start);
    Regroup(start + After(folded[..i + 1]), Before(folded[i + 1..]), rest);
  }

  /** The inserts and deletes of the groups, on a shared text that starts with `start`: what they keep was there. */
  method Edit(text: SharedText, head: nat, folded: seq<Group>, ghost start: Text, ghost rest: Text)
    requires text.Valid() && head == Length(start) && text.content == start + Before(folded) + rest
    modifies text
    ensures text.Valid() && text.content == start + After(folded) + rest
    ensures KeepsRest(old(text.origins), text.origins, |start|, folded)
  {
    var at := head;
    ghost var was := text.origins;
    NoneEdited(at, text.content, was, start, folded, rest);
    for i := 0 to |folded|
      invariant text.Valid() && EditedTo(at, text.content, text.origins, was, start, folded, i, rest)
    {
      at := EditNext(text, at, folded, i, was, start, rest);
    }
    AllEdited(at, text.content, text.origins, was, start, folded, rest);
  }

  lemma {:induction false} NoneEdited(at: nat, content: Text, was: seq<Option<nat>>, start: Text, folded: seq<Group>, rest: Text)
    requires at == Length(start) && content == start + Before(folded) + rest && |was| == |content|
    ensures EditedTo(at, content, was, was, start, folded, 0, rest) && |start| + Covered(folded, |folded|) <= |was|
  {
    assert folded[0..] == folded && folded[..0] == [] && folded[..|folded|] == folded && start + [] == start;
    CoveredIs(folded, |folded|);
    assert was == was[..|start|] + was[|start|..];
  }

  lemma {:induction false} AllEdited(at: nat, content: Text, origins: seq<Option<nat>>, was: seq<Option<nat>>, start: Text, folded: seq<Group>, rest: Text)
    requires EditedTo(at, content, origins, was, start, folded, |folded|, rest)
    ensures content == start + After(folded) + rest && KeepsRest(was, origins, |start|, folded)
  {
    assert folded[..|folded|] == folded && folded[|folded|..] == [];
    assert start + After(folded) + [] == start + After(folded);
  }

  lemma {:induction false} GroupCloses(folded: seq<Group>, i: nat, start: Text)
    requires i < |folded|
    ensures start + After(folded[..i]) + folded[i].keep + folded[i].added == start + After(folded[..i + 1])
  {
    PrefixGroups(folded, i);
  }

  lemma {:induction false} GroupOpens(folded: seq<Group>, i: nat, done: Text, rest: Text)
    requires i < |folded|
    ensures done + Before(folded[i..]) + rest == (done + folded[i].keep) + folded[i].removed + (Before(folded[i + 1..]) + rest)
  {
    FrontGroups(folded[i..]);
    assert folded[i..][1..] == folded[i + 1..];
  }

  lemma {:induction false} ThreeParts(a: Text, head: nat, tail: nat)
    requires head + tail <= |a|
    ensures a == a[..head] + a[head..|a| - tail] + a[|a| - tail..]
  {
  }

  /** `folded` are the groups but for anchors folded into them; what is left of their own anchors was there before. */
  ghost predicate EditedBy(was: seq<Option<nat>>, now: seq<Option<nat>>, head: nat, groups: seq<Group>, folded: seq<Group>)
  {
    && (GroupsOk(groups) ==> FoldedOk(folded)) && (AllApart(groups) ==> folded == groups)
    && KeepsRest(was, now, head, folded)
  }

  /** Between `start` and `rest`, the edits of a script. */
  method EditMiddle(text: SharedText, head: nat, parts: seq<Part>, ghost start: Text, ghost from: Text, ghost upto: Text, ghost rest: Text)
    returns (ghost groups: seq<Group>, ghost keep: Text, ghost folded: seq<Group>)
    requires OldOf(parts, |parts|) == from && NewOf(parts, |parts|) == upto
    requires text.Valid() && head == Length(start) && text.content == start + from + rest
    modifies text
    ensures text.Valid() && text.content == start + upto + rest && EditedBy(old(text.origins), text.origins, |start|, groups, folded)
    ensures Kept(groups) + keep == KeptOf(parts, |parts|) && Covered(folded, |folded|) + |keep| == |from|
  {
    var found, after := GroupParts(parts);
    var closer := Fold(found);
    groups, keep, folded := found, after, closer;
    FourParts(start, Before(folded), keep, rest);
    FourParts(start, After(folded), keep, rest);
    Edit(text, head, closer, start, keep + rest);
    assert folded[..|folded|] == folded;
    CoveredIs(folded, |folded|);
  }

  lemma {:induction false} FourParts(a: Text, b: Text, c: Text, d: Text)
    ensures a + (b + c) + d == a + b + (c + d)
  {
  }

  lemma {:induction false} EndsUntouched(was: seq<Option<nat>>, now: seq<Option<nat>>, head: nat, groups: seq<Group>, folded: seq<Group>, tail: nat)
    requires EditedBy(was, now, head, groups, folded) && head + Covered(folded, |folded|) + tail <= |was|
    ensures Untouched(was, now, head, tail)
  {
    var front, rest := Carried(was, head, folded, |folded|), was[head + Covered(folded, |folded|)..];
    CarriedStarts(was, head, folded, |folded|);
    assert now[..head] == front[..head] && now[|now| - tail..] == rest[|rest| - tail..] == was[|was| - tail..];
  }

  lemma {:induction false} CarriedStarts(was: seq<Option<nat>>, head: nat, groups: seq<Group>, n: nat)
    requires n <= |groups| && head + Covered(groups, n) <= |was|
    ensures head <= |Carried(was, head, groups, n)| && Carried(was, head, groups, n)[..head] == was[..head]
  {
    if n > 0 {
      CarriedStarts(was, head, groups, n - 1);
    }
  }

  /** The first `head` code points and the last `tail` are the ones that were there. */
  ghost predicate Untouched(was: seq<Option<nat>>, now: seq<Option<nat>>, head: nat, tail: nat)
  {
    && head + tail <= |was| && head + tail <= |now|
    && now[..head] == was[..head] && now[|now| - tail..] == was[|was| - tail..]
  }

  /** The groups keep what the script keeps, but for what it keeps last. */
  ghost predicate KeepsScript(differ: CharDiffer, from: Text, upto: Text, groups: seq<Group>)
  {
    differ(from, upto).Some? ==>
      var parts := differ(from, upto).value; exists keep :: Kept(groups) + keep == KeptOf(parts, |parts|)
  }

  lemma {:induction false} NothingEdited(a: Text, was: seq<Option<nat>>)
    requires |was| == |a|
    ensures Anchors.SharedEnds(a, a, |a|, 0) && !Anchors.SharedEnds(a, a, |a| + 1, 0) && !Anchors.SharedEnds(a, a, |a|, 1)
    ensures Untouched(was, was, |a|, 0) && EditedBy(was, was, |a|, [], [])
  {
    assert was == was[..|a|] + was[|a|..];
  }

  /**
   * Whatever the differ answers, or if it gives up, the text is `target` in the end. What both texts start and end with
   * was not touched, `first` code points and `last`, as many as there are; between, all that the script keeps is still
   * there but for the anchors folded away.
   */
  method PatchYText(differ: CharDiffer, text: SharedText, target: Text)
    returns (ghost first: nat, ghost last: nat, ghost groups: seq<Group>, ghost folded: seq<Group>)
    requires IsCharDiffer(differ) && text.Valid()
    modifies text
    ensures text.Valid() && text.content == target
    ensures var a := old(text.content);
      Anchors.SharedEnds(a, target, first, last) && !Anchors.SharedEnds(a, target, first + 1, 0) && !Anchors.SharedEnds(a, target, first, last + 1)
    ensures Untouched(old(text.origins), text.origins, first, last)
    ensures EditedBy(old(text.origins), text.origins, first, groups, folded)
    ensures var a := old(text.content);
      a != target ==> KeepsScript(differ, a[first..|a| - last], target[first..|target| - last], groups)
  {
    var a, b := text.content, target;
    if a == b {
      NothingEdited(a, text.origins);
      return |a|, 0, [], [];
    }
    var head, tail := Anchors.CommonEnds(a, b);
    first, last := head, tail;
    var from, upto := a[head..|a| - tail], b[head..|b| - tail];
    var script := differ(from, upto);
    var parts := if script.Some? then script.value else [Part(Remove, from), Part(Add, upto)];
    PartsRead(differ, from, upto);
    ThreeParts(a, head, tail);
    ghost var keep;
    groups, keep, folded := EditMiddle(text, Length(a[..head]), parts, a[..head], from, upto, a[|a| - tail..]);
    ThreeParts(b, head, tail);
    EndsUntouched(old(text.origins), text.origins, head, groups, folded, tail);
  }

  /** The script, or the replacement, turns the one middle into the other. */
  lemma {:induction false} PartsRead(differ: CharDiffer, from: Text, upto: Text)
    requires IsCharDiffer(differ)
    ensures var script := differ(from, upto);
      var parts := if script.Some? then script.value else [Part(Remove, from), Part(Add, upto)];
      OldOf(parts, |parts|) == from && NewOf(parts, |parts|) == upto
  {
    var both := [Part(Remove, from), Part(Add, upto)];
    assert OldOf(both, 1) == from && NewOf(both, 1) == [];
  }
}
