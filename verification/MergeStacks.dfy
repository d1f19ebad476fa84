/**
 * Taking both sides of a conflict in the merge editor and reverting them again: the appending half of `applyPlan` and
 * the stacked half of `revertPlan` (packages/plugin/src/sync/merge-model.ts), with the spans mapped across each edit
 * as packages/plugin/src/ui/diff/merge-state.ts maps them.
 */
module MergeStacks {
  import opened Common
  import opened Texts
  import opened Regions
  import opened MergeEdits
  import opened MergeChoices

  /** Both sides of a conflict are in, `first`'s lines above the other's; the change's place starts where it was. */
  ghost predicate Stacked(e: Editor, lines: Lines, pre: seq<string>, post: seq<string>, first: Side)
  {
    var a, b := lines.sides.At(first), lines.sides.At(Other(first));
    && e.change.conflict && e.change.status == Both(Applied, Applied)
    && ChangeFits(e.change, lines, pre, post)
    && e.text == Join(pre + (a + b) + post)
    && e.change.taken.At(first) == Some(SpanOf(pre, a, post))
    && e.change.taken.At(Other(first)) == Some(SpanOf(pre + a, b, post))
    && e.change.result == Span(SpanOf(pre, a, post).from, SpanOf(pre, a + b, post).upto)
  }

  /** The place right after the shown lines. */
  lemma {:induction false} AfterShown(pre: seq<string>, shown: seq<string>, post: seq<string>)
    ensures Join(pre + shown + post) == Join((pre + shown) + [] + post)
    ensures SpanOf(pre + shown, [], post) == Span(SpanOf(pre, shown, post).upto, SpanOf(pre, shown, post).upto)
  {
    assert pre + shown + post == (pre + shown) + [] + post;
    EndedConcat(pre, shown);
  }

  lemma {:induction false} Regrouped(pre: seq<string>, shown: seq<string>, own: seq<string>, post: seq<string>)
    ensures (pre + shown) + own + post == pre + (shown + own) + post
    ensures SpanOf(pre + shown, own, post).upto == SpanOf(pre, shown + own, post).upto
  {
    EndedConcat(pre, shown);
    EndedConcat(shown, own);
    Associates(pre, shown, own, post);
  }

  lemma {:induction false} Associates(a: seq<string>, b: seq<string>, c: seq<string>, d: seq<string>)
    ensures (a + b) + c + d == a + (b + c) + d
  {
  }

  /** The first side's place is inside the text that has both. */
  lemma {:induction false} PlacesFit(pre: seq<string>, a: seq<string>, b: seq<string>, post: seq<string>)
    ensures SpanOf(pre, a, post).upto <= SpanOf(pre, a + b, post).upto
  {
    Regrouped(pre, a, b, post);
    if post != [] {
      TextBefore(pre, a, post);
      TextBefore(pre, a + b, post);
      EndedConcat(a, b);
    } else if b == [] {
      assert a + b == a;
    } else {
      TextAtEnd(pre, a);
      TextAtEnd(pre, a + b);
      JoinConcat(a, b);
      if a != [] { EndedJoin(a); }
    }
  }

  /** What the text and the change must be once `side` joined the other. */
  lemma {:induction false} BothIn(e: Editor, lines: Lines, pre: seq<string>, post: seq<string>, side: Side, plan: EditPlan)
    requires EditorOk(e, lines, pre, post) && e.change.conflict
    requires e.change.status.At(side) in {Open, Ignored} && e.change.status.At(Other(side)) == Applied
    requires var first, own := lines.sides.At(Other(side)), lines.sides.At(side);
      && plan.from == plan.upto == SpanOf(pre, first, post).upto <= |e.text|
      && Spliced(e.text, plan.from, plan.upto, plan.insert) == Join(pre + (first + own) + post)
      && plan.taken == Some(SpanOf(pre + first, own, post))
      && plan.result == Some(Span(SpanOf(pre, first, post).from, SpanOf(pre, first + own, post).upto))
    ensures Stacked(Dispatched(e, plan, side, Applied), lines, pre, post, Other(side))
  {
    var next := Dispatched(e, plan, side, Applied);
    ChangeStillFits(e.change, next.change, lines, pre, post, side);
    assert Other(Other(side)) == side && e.change.taken.At(Other(side)) == Some(SpanOf(pre, lines.sides.At(Other(side)), post));
  }

  /**
   * Taking a conflict's second side puts its lines below the first's. The change then knows where both are, unless
   * the first side removed the file's last lines: its place then starts a newline too early.
   */
  lemma {:induction false} AppendSecond(e: Editor, lines: Lines, pre: seq<string>, post: seq<string>, side: Side)
    requires EditorOk(e, lines, pre, post) && e.change.conflict
    requires e.change.status.At(side) in {Open, Ignored} && e.change.status.At(Other(side)) == Applied
    ensures InText(e.text, e.change)
    ensures Stacked(Clicked(e, lines, Apply(side)), lines, pre, post, Other(side))
    ensures var first, own, next := lines.sides.At(Other(side)), lines.sides.At(side), Clicked(e, lines, Apply(side));
      next.change.result == SpanOf(pre, first + own, post) <==> !(first == [] && post == [] && own != [])
  {
    OkInText(e, lines, pre, post);
    var first, own := lines.sides.At(Other(side)), lines.sides.At(side);
    assert Shown(e.change, lines) == first;
    assert SideFits(lines, Other(side), pre, post);
    AppendTo(e.text, e.change, pre, first, post, side, own);
    BothIn(e, lines, pre, post, side, ApplyPlan(e.text, e.change, side, own));
  }

  lemma {:induction false} AppendTo(text: string, change: MergeChange, pre: seq<string>, first: seq<string>, post: seq<string>, side: Side, own: seq<string>)
    requires text == Join(pre + first + post) && change.result == SpanOf(pre, first, post) && InText(text, change)
    requires change.conflict && change.status.At(Other(side)) == Applied && change.endsAtEof == (post == []) && pre + first + post != []
    ensures var plan := ApplyPlan(text, change, side, own);
      && Spliced(text, plan.from, plan.upto, plan.insert) == Join(pre + (first + own) + post)
      && plan.from == plan.upto == SpanOf(pre, first, post).upto
      && plan.taken == Some(SpanOf(pre + first, own, post))
      && plan.result == Some(Span(SpanOf(pre, first, post).from, SpanOf(pre, first + own, post).upto))
    ensures SpanOf(pre, first, post).from == SpanOf(pre, first + own, post).from <==> !(first == [] && post == [] && own != [])
  {
    SnapKeeps(pre, first, post);
    AfterShown(pre, first, post);
    Regrouped(pre, first, own, post);
    if own == [] {
      assert first + own == first;
    } else {
      assert pre + first + post == (pre + first) + post;
      ReplaceSplices(pre + first, [], post, own);
      WherePreStarts(pre, first, own, post);
    }
  }

  /** The place of the first lines stays where it is when more lines follow, unless there were none at the end. */
  lemma {:induction false} WherePreStarts(pre: seq<string>, first: seq<string>, own: seq<string>, post: seq<string>)
    requires pre + first + post != [] && own != []
    ensures SpanOf(pre, first, post).from == SpanOf(pre, first + own, post).from <==> !(first == [] && post == [])
  {
    if post != [] {
      TextBefore(pre, first, post);
      TextBefore(pre, first + own, post);
    } else {
      TextAtEnd(pre, first);
      TextAtEnd(pre, first + own);
    }
  }

  lemma {:induction false} StackedInText(e: Editor, lines: Lines, pre: seq<string>, post: seq<string>, first: Side)
    requires Stacked(e, lines, pre, post, first)
    ensures InText(e.text, e.change)
  {
    var a, b := lines.sides.At(first), lines.sides.At(Other(first));
    PlacesFit(pre, a, b, post);
    Regrouped(pre, a, b, post);
    assert e.change.taken.At(Local) == e.change.taken.local && e.change.taken.At(Remote) == e.change.taken.remote;
  }

  /** What the text and the change must be for the side left in after `gone` was dropped. */
  lemma {:induction false} OneLeft(e: Editor, lines: Lines, pre: seq<string>, post: seq<string>, gone: Side, plan: EditPlan)
    requires e.change.conflict && e.change.status == Both(Applied, Applied) && ChangeFits(e.change, lines, pre, post)
    requires plan.from <= plan.upto <= |e.text| && plan.result == None && plan.taken == None
    requires var own := lines.sides.At(Other(gone));
      && Spliced(e.text, plan.from, plan.upto, plan.insert) == Join(pre + own + post)
      && MapSpan(plan, e.change.result, true) == SpanOf(pre, own, post)
      && MapTaken(plan, e.change.taken.At(Other(gone))) == Some(SpanOf(pre, own, post))
    ensures EditorOk(Dispatched(e, plan, gone, Ignored), lines, pre, post)
  {
    var next := Dispatched(e, plan, gone, Ignored);
    assert next.change.status.At(Other(gone)) == Applied && next.change.status.At(gone) == Ignored;
    ChangeStillFits(e.change, next.change, lines, pre, post, gone);
    forall s: Side ensures next.change.taken.At(s) == if next.change.status.At(s) == Applied then Some(next.change.result) else None {
      if s != gone { assert s == Other(gone); }
    }
  }

  /** Removing whole lines: the place left is where the edit starts. */
  lemma {:induction false} Removing(text: string, target: Span, endsAtEof: bool)
    requires target.from <= target.upto <= |text|
    ensures var edit := ReplaceLines(text, target, [], endsAtEof, false);
      && edit.upto == target.upto && edit.insert == "" && edit.result == Span(edit.from, edit.from)
  {
  }

  /** A cut from the end of a span on. */
  lemma {:induction false} MapCutAfter(plan: EditPlan, span: Span)
    requires plan.insert == "" && span.from <= span.upto == plan.from <= plan.upto
    ensures MapSpan(plan, span, false) == span && MapSpan(plan, Span(span.from, plan.upto), true) == span
  {
  }

  /** The edit that drops the side below. */
  lemma {:induction false} BelowPlan(text: string, change: MergeChange, pre: seq<string>, a: seq<string>, b: seq<string>, post: seq<string>, first: Side, baseLines: seq<string>)
    requires InText(text, change) && text == Join((pre + a) + b + post)
    requires change.conflict && change.status.At(first) == Applied && change.endsAtEof == (post == [])
    requires change.taken.At(Other(first)) == Some(SpanOf(pre + a, b, post)) && (b == [] <==> IsEmpty(change.sides.At(Other(first))))
    ensures var plan := RevertPlan(text, change, Other(first), baseLines);
      && Spliced(text, plan.from, plan.upto, plan.insert) == Join((pre + a) + [] + post)
      && plan.from == SpanOf(pre + a, [], post).from && plan.upto == SpanOf(pre + a, b, post).upto
      && plan.insert == "" && plan.result == None && plan.taken == None
  {
    assert Other(Other(first)) == first;
    if b != [] {
      SnapKeeps(pre + a, b, post);
      ReplaceSplices(pre + a, b, post, []);
      Removing(text, SpanOf(pre + a, b, post), change.endsAtEof);
    }
  }

  /** Dropping the side below leaves the one above, as if it had never been joined. */
  lemma {:induction false} DropBelow(e: Editor, lines: Lines, pre: seq<string>, post: seq<string>, first: Side)
    requires Stacked(e, lines, pre, post, first)
    ensures InText(e.text, e.change) && EditorOk(Clicked(e, lines, Revert(Other(first))), lines, pre, post)
  {
    StackedInText(e, lines, pre, post, first);
    var a, b := lines.sides.At(first), lines.sides.At(Other(first));
    PlacesFit(pre, a, b, post);
    Regrouped(pre, a, b, post);
    AfterShown(pre, a, post);
    BelowPlan(e.text, e.change, pre, a, b, post, first, lines.base);
    var plan := RevertPlan(e.text, e.change, Other(first), lines.base);
    MapCutAfter(plan, SpanOf(pre, a, post));
    assert Other(Other(first)) == first;
    OneLeft(e, lines, pre, post, Other(first), plan);
  }

  /** The edit that drops the side above, where it has lines. */
  lemma {:induction false} AbovePlan(e: Editor, lines: Lines, pre: seq<string>, post: seq<string>, first: Side)
    requires Stacked(e, lines, pre, post, first) && InText(e.text, e.change) && lines.sides.At(first) != []
    ensures var target := SnapToLines(e.text, SpanOf(pre, lines.sides.At(first), post));
      var edit := ReplaceLines(e.text, target, [], post == [], false);
      RevertPlan(e.text, e.change, first, lines.base) == EditPlan(edit.from, edit.upto, "", None, None)
  {
    assert Other(first) != first;
    assert e.change.status.At(Other(first)) == Applied;
  }

  /** A cut from the start of a span, and what is left of two spans it shortens or moves. */
  lemma {:induction false} MapCutBefore(plan: EditPlan, span: Span, below: Span)
    requires plan.insert == "" && plan.from == span.from < plan.upto == below.from <= below.upto == span.upto
    ensures MapSpan(plan, span, true) == Span(plan.from, plan.from + below.upto - below.from)
    ensures MapSpan(plan, below, false) == Span(plan.from, plan.from + below.upto - below.from)
  {
  }

  /** With lines after the conflict, dropping the side above takes exactly its lines. */
  lemma {:induction false} DropAboveBefore(e: Editor, lines: Lines, pre: seq<string>, post: seq<string>, first: Side)
    requires Stacked(e, lines, pre, post, first) && lines.sides.At(first) != [] && post != []
    ensures InText(e.text, e.change) && EditorOk(Clicked(e, lines, Revert(first)), lines, pre, post)
  {
    StackedInText(e, lines, pre, post, first);
    var a, b := lines.sides.At(first), lines.sides.At(Other(first));
    AbovePlan(e, lines, pre, post, first);
    PlacesBefore(pre, a, b, post);
    CutBefore(pre, a, b, post);
    var plan := RevertPlan(e.text, e.change, first, lines.base);
    MapCutBefore(plan, e.change.result, SpanOf(pre + a, b, post));
    OneLeft(e, lines, pre, post, first, plan);
  }

  lemma {:induction false} PlacesBefore(pre: seq<string>, a: seq<string>, b: seq<string>, post: seq<string>)
    requires post != []
    ensures SpanOf(pre, a, post) == Span(Len(pre), Len(pre) + Len(a)) && SpanOf(pre, b, post) == Span(Len(pre), Len(pre) + Len(b))
    ensures SpanOf(pre, a + b, post) == Span(Len(pre), Len(pre) + Len(a) + Len(b))
    ensures SpanOf(pre + a, b, post) == Span(Len(pre) + Len(a), Len(pre) + Len(a) + Len(b))
  {
    TextBefore(pre, a, post);
    TextBefore(pre, b, post);
    TextBefore(pre, a + b, post);
    TextBefore(pre + a, b, post);
    EndedConcat(a, b);
    EndedConcat(pre, a);
  }

  lemma {:induction false} CutBefore(pre: seq<string>, a: seq<string>, b: seq<string>, post: seq<string>)
    requires post != [] && a != []
    ensures SpanOf(pre, a, post).upto <= |Join(pre + (a + b) + post)|
    ensures var text := Join(pre + (a + b) + post);
      var edit := ReplaceLines(text, SnapToLines(text, SpanOf(pre, a, post)), [], false, false);
      && edit.from == Len(pre) && edit.upto == Len(pre) + Len(a) && edit.from < edit.upto
      && Spliced(text, edit.from, edit.upto, "") == Join(pre + b + post)
  {
    var text := Join(pre + (a + b) + post);
    PlacesBefore(pre, a, b, post);
    TextBefore(pre, a, b + post);
    Around(pre, a, b, post);
    SnapKeeps(pre, a, b + post);
    ReplaceSplices(pre, a, b + post, []);
    Removing(text, SpanOf(pre, a, b + post), false);
  }

  lemma {:induction false} Around(pre: seq<string>, a: seq<string>, b: seq<string>, post: seq<string>)
    ensures pre + (a + b) + post == pre + a + (b + post) && pre + [] + (b + post) == pre + b + post
  {
  }

  lemma {:induction false} CutAlone(pre: seq<string>, a: seq<string>)
    requires pre != [] && a != []
    ensures SpanOf(pre, a, []).upto == |Join(pre + a + [])| && SpanOf(pre, [], []) == Span(Len(pre) - 1, Len(pre) - 1)
    ensures var text := Join(pre + a + []);
      var edit := ReplaceLines(text, SnapToLines(text, SpanOf(pre, a, [])), [], true, false);
      && edit.from == Len(pre) - 1 && edit.upto == |text|
      && Spliced(text, edit.from, edit.upto, "") == Join(pre + [] + [])
  {
    var text := Join(pre + a + []);
    SnapKeeps(pre, a, []);
    ReplaceSplices(pre, a, [], []);
    Removing(text, SpanOf(pre, a, []), true);
    TextAtEnd(pre, a);
    TextAtEnd(pre, []);
  }

  lemma {:induction false} AlonePlan(e: Editor, lines: Lines, pre: seq<string>, first: Side)
    requires Stacked(e, lines, pre, [], first) && lines.sides.At(first) != [] && lines.sides.At(Other(first)) == []
    ensures InText(e.text, e.change) && pre != [] && Len(pre) - 1 <= e.change.result.from <= e.change.result.upto == |e.text|
    ensures e.change.taken.At(Other(first)) == Some(Span(|e.text|, |e.text|)) && SpanOf(pre, [], []) == Span(Len(pre) - 1, Len(pre) - 1)
    ensures var plan := RevertPlan(e.text, e.change, first, lines.base);
      && plan == EditPlan(Len(pre) - 1, |e.text|, "", None, None)
      && Spliced(e.text, plan.from, plan.upto, plan.insert) == Join(pre + [] + [])
  {
    StackedInText(e, lines, pre, [], first);
    var a := lines.sides.At(first);
    assert a + [] == a && SideFits(lines, Other(first), pre, []) && pre != [];
    AbovePlan(e, lines, pre, [], first);
    CutAlone(pre, a);
    AfterShown(pre, a, []);
    TextAtEnd(pre, a);
  }

  /** At the end of the file, with nothing below, dropping the side above empties the place. */
  lemma {:induction false} DropAboveAlone(e: Editor, lines: Lines, pre: seq<string>, first: Side)
    requires Stacked(e, lines, pre, [], first) && lines.sides.At(first) != [] && lines.sides.At(Other(first)) == []
    ensures InText(e.text, e.change) && EditorOk(Clicked(e, lines, Revert(first)), lines, pre, [])
  {
    AlonePlan(e, lines, pre, first);
    var plan := RevertPlan(e.text, e.change, first, lines.base);
    MapCutAll(plan, e.change.result);
    OneLeft(e, lines, pre, [], first, plan);
  }

  /** A cut that takes all of a span. */
  lemma {:induction false} MapCutAll(plan: EditPlan, span: Span)
    requires plan.insert == "" && plan.from <= span.from <= span.upto == plan.upto
    ensures MapSpan(plan, span, true) == Span(plan.from, plan.from)
    ensures MapSpan(plan, Span(span.upto, span.upto), false) == Span(plan.from, plan.from)
  {
  }

  /** The last lines of a file: some above, and others below after a newline. */
  lemma {:induction false} StackedAtEnd(pre: seq<string>, a: seq<string>, b: seq<string>)
    requires a != [] && b != []
    ensures Join(pre + (a + b) + []) == Ended(pre) + Join(a) + "\n" + Join(b)
    ensures SpanOf(pre, a, []) == Span(Len(pre), Len(pre) + |Join(a)|)
    ensures SpanOf(pre + a, b, []) == Span(Len(pre) + |Join(a)| + 1, Len(pre) + |Join(a)| + 1 + |Join(b)|)
    ensures SpanOf(pre, a + b, []).upto == Len(pre) + |Join(a)| + 1 + |Join(b)|
    ensures AtLineStart(Ended(pre))
  {
    TextAtEnd(pre, a + b);
    TextAtEnd(pre, a);
    TextAtEnd(pre + a, b);
    JoinConcat(a, b);
    EndedJoin(a);
    EndedConcat(pre, a);
    FourParts(Ended(pre), Join(a), "\n", Join(b));
  }

  lemma {:induction false} FourParts(p: string, q: string, r: string, s: string)
    ensures p + ((q + r) + s) == p + q + r + s
  {
  }

  /** A line's newline goes with it when it is taken from the middle. */
  lemma {:induction false} SnapLine(p: string, j: string, k: string)
    requires AtLineStart(p) && !AtLineStart(j)
    ensures SnapToLines(p + j + "\n" + k, Span(|p|, |p| + |j|)) == Span(|p|, |p| + |j| + 1)
  {
    var text := p + j + "\n" + k;
    LineStarts(text, |p|);
    assert text[|p| + |j| - 1] == j[|j| - 1] && text[|p| + |j|] == '\n';
    assert LineFrom(text, |p| + |j|) != |p| + |j| && LineTo(text, |p| + |j|) == |p| + |j|;
  }

  /** Lines that end with an empty one leave its newline behind. */
  lemma {:induction false} SnapBare(p: string, j: string, k: string)
    requires AtLineStart(p) && AtLineStart(j)
    ensures SnapToLines(p + j + "\n" + k, Span(|p|, |p| + |j|)) == Span(|p|, |p| + |j|)
  {
    var text := p + j + "\n" + k;
    LineStarts(text, |p|);
    if j != "" { assert text[|p| + |j| - 1] == j[|j| - 1]; }
    LineStarts(text, |p| + |j|);
  }

  lemma {:induction false} CutOut(p: string, q: string, r: string)
    ensures Spliced(p + q + r, |p|, |p| + |q|, "") == p + r
  {
  }

  /** The lines above end in text, and more than a bare last newline is below, or nothing is before them. */
  lemma {:induction false} CutLine(p: string, j: string, k: string)
    requires AtLineStart(p) && !AtLineStart(j) && (k != "" || p == "")
    ensures var text := p + j + "\n" + k;
      var edit := ReplaceLines(text, SnapToLines(text, Span(|p|, |p| + |j|)), [], true, false);
      && edit.from == |p| && edit.upto == |p| + |j| + 1 && Spliced(text, edit.from, edit.upto, "") == p + k
  {
    SnapLine(p, j, k);
    CutOut(p, j + "\n", k);
    assert p + j + "\n" + k == p + (j + "\n") + k;
  }

  /** Only a bare last newline is below: the cut takes the newline before the lines too. */
  lemma {:induction false} CutToEnd(p: string, j: string)
    requires AtLineStart(p) && !AtLineStart(j) && p != ""
    ensures var text := p + j + "\n" + "";
      var edit := ReplaceLines(text, SnapToLines(text, Span(|p|, |p| + |j|)), [], true, false);
      && edit.from == |p| - 1 && edit.upto == |text| && Spliced(text, edit.from, edit.upto, "") == p[..|p| - 1]
  {
    SnapLine(p, j, "");
  }

  lemma {:induction false} CutBare(p: string, j: string, k: string)
    requires AtLineStart(p) && AtLineStart(j)
    ensures var text := p + j + "\n" + k;
      var edit := ReplaceLines(text, SnapToLines(text, Span(|p|, |p| + |j|)), [], true, false);
      && edit.from == |p| && edit.upto == |p| + |j| && Spliced(text, edit.from, edit.upto, "") == p + ("\n" + k)
  {
    SnapBare(p, j, k);
    CutOut(p, j, "\n" + k);
    assert p + j + "\n" + k == p + j + ("\n" + k);
  }

  lemma {:induction false} CutLines(pre: seq<string>, a: seq<string>, b: seq<string>)
    requires a != [] && b != [] && !AtLineStart(Join(a)) && (Join(b) != "" || pre == [])
    ensures var text := Join(pre + (a + b) + []);
      && SpanOf(pre, a, []).upto <= |text|
      && var edit := ReplaceLines(text, SnapToLines(text, SpanOf(pre, a, [])), [], true, false);
      && edit.from == Len(pre) < edit.upto == SpanOf(pre + a, b, []).from && edit.upto <= |text|
      && Spliced(text, edit.from, edit.upto, "") == Join(pre + b + [])
    ensures SpanOf(pre, a, []).from == Len(pre) && SpanOf(pre + a, b, []).upto == SpanOf(pre, a + b, []).upto
    ensures SpanOf(pre, b, []) == Span(Len(pre), Len(pre) + SpanOf(pre + a, b, []).upto - SpanOf(pre + a, b, []).from)
  {
    StackedAtEnd(pre, a, b);
    TextAtEnd(pre, b);
    var p, j, k := Ended(pre), Join(a), Join(b);
    CutLine(p, j, k);
    assert Join(pre + (a + b) + []) == p + j + "\n" + k && SpanOf(pre, a, []) == Span(|p|, |p| + |j|);
  }

  /** At the end of the file, the side above is dropped and the one below is all there is. */
  lemma {:induction false} DropAboveLine(e: Editor, lines: Lines, pre: seq<string>, first: Side)
    requires Stacked(e, lines, pre, [], first) && lines.sides.At(first) != [] && lines.sides.At(Other(first)) != []
    requires !AtLineStart(Join(lines.sides.At(first))) && (Join(lines.sides.At(Other(first))) != "" || pre == [])
    ensures InText(e.text, e.change) && EditorOk(Clicked(e, lines, Revert(first)), lines, pre, [])
  {
    StackedInText(e, lines, pre, [], first);
    var a, b := lines.sides.At(first), lines.sides.At(Other(first));
    AbovePlan(e, lines, pre, [], first);
    CutLines(pre, a, b);
    var plan := RevertPlan(e.text, e.change, first, lines.base);
    MapCutBefore(plan, e.change.result, SpanOf(pre + a, b, []));
    OneLeft(e, lines, pre, [], first, plan);
  }

  /** A cut from the start of a span that leaves some of it. */
  lemma {:induction false} MapCutFront(plan: EditPlan, span: Span)
    requires plan.insert == "" && plan.from == span.from <= plan.upto < span.upto
    ensures MapSpan(plan, span, true) == Span(span.from, span.upto - (plan.upto - plan.from))
  {
  }

  /** A line break and the second side's lines, as lines of the file's end. */
  lemma {:induction false} BreakAbove(pre: seq<string>, b: seq<string>)
    requires b != []
    ensures Join(pre + ([""] + b) + []) == Ended(pre) + ("\n" + Join(b))
    ensures SpanOf(pre, [""] + b, []) == Span(Len(pre), Len(pre) + 1 + |Join(b)|)
  {
    TextAtEnd(pre, [""] + b);
    JoinConcat([""], b);
    assert Ended([""]) == "\n";
  }

  lemma {:induction false} CutToBreak(pre: seq<string>, a: seq<string>, b: seq<string>)
    requires a != [] && b != [] && AtLineStart(Join(a))
    ensures var text := Join(pre + (a + b) + []);
      && SpanOf(pre, a, []).upto <= |text|
      && var edit := ReplaceLines(text, SnapToLines(text, SpanOf(pre, a, [])), [], true, false);
      && edit.from == SpanOf(pre, a, []).from && edit.upto == SpanOf(pre, a, []).upto
      && Spliced(text, edit.from, edit.upto, "") == Join(pre + ([""] + b) + [])
    ensures SpanOf(pre, a, []).upto < SpanOf(pre, a + b, []).upto
    ensures var gone := SpanOf(pre, a, []).upto - SpanOf(pre, a, []).from;
      SpanOf(pre, [""] + b, []) == Span(SpanOf(pre, a, []).from, SpanOf(pre, a + b, []).upto - gone)
  {
    StackedAtEnd(pre, a, b);
    BreakAbove(pre, b);
    var p, j, k := Ended(pre), Join(a), Join(b);
    CutBare(p, j, k);
    assert Join(pre + (a + b) + []) == p + j + "\n" + k && SpanOf(pre, a, []) == Span(|p|, |p| + |j|);
  }

  /** Where the first side ends with an empty line, dropping it leaves a newline above the second's lines. */
  lemma {:induction false} DropAboveBare(e: Editor, lines: Lines, pre: seq<string>, first: Side)
    requires Stacked(e, lines, pre, [], first) && lines.sides.At(first) != [] && lines.sides.At(Other(first)) != []
    requires AtLineStart(Join(lines.sides.At(first)))
    ensures InText(e.text, e.change)
    ensures var next, left := Clicked(e, lines, Revert(first)), [""] + lines.sides.At(Other(first));
      && next.text == Join(pre + left + []) && next.change.result == SpanOf(pre, left, [])
  {
    StackedInText(e, lines, pre, [], first);
    var a, b := lines.sides.At(first), lines.sides.At(Other(first));
    AbovePlan(e, lines, pre, [], first);
    CutToBreak(pre, a, b);
    MapCutFront(RevertPlan(e.text, e.change, first, lines.base), e.change.result);
  }

  lemma {:induction false} CutAll(pre: seq<string>, a: seq<string>, b: seq<string>)
    requires a != [] && b != [] && !AtLineStart(Join(a)) && Join(b) == "" && pre != []
    ensures var text := Join(pre + (a + b) + []);
      && SpanOf(pre, a, []).upto <= |text|
      && var edit := ReplaceLines(text, SnapToLines(text, SpanOf(pre, a, [])), [], true, false);
      && edit.from == |Join(pre)| <= SpanOf(pre, a, []).from && edit.upto == |text| == SpanOf(pre, a + b, []).upto
      && Spliced(text, edit.from, edit.upto, "") == Join(pre)
  {
    StackedAtEnd(pre, a, b);
    EndedJoin(pre);
    CutToEnd(Ended(pre), Join(a));
  }

  /** Where the second side is one empty line, dropping the first takes the newline before both. */
  lemma {:induction false} DropAboveAll(e: Editor, lines: Lines, pre: seq<string>, first: Side)
    requires Stacked(e, lines, pre, [], first) && lines.sides.At(first) != [] && lines.sides.At(Other(first)) != []
    requires !AtLineStart(Join(lines.sides.At(first))) && Join(lines.sides.At(Other(first))) == "" && pre != []
    ensures InText(e.text, e.change)
    ensures var next := Clicked(e, lines, Revert(first));
      next.text == Join(pre) && next.change.result == Span(|Join(pre)|, |Join(pre)|)
  {
    StackedInText(e, lines, pre, [], first);
    var a, b := lines.sides.At(first), lines.sides.At(Other(first));
    AbovePlan(e, lines, pre, [], first);
    PlacesFit(pre, a, b, []);
    CutAll(pre, a, b);
    MapCutAll(RevertPlan(e.text, e.change, first, lines.base), e.change.result);
  }

  /** Where the editor's spans end up is inside the text an edit leaves. */
  lemma {:induction false} StaysInText(e: Editor, plan: EditPlan, side: Side, status: Status)
    requires InText(e.text, e.change) && plan.from <= plan.upto <= |e.text| && plan.result == None && plan.taken == None
    ensures InText(Dispatched(e, plan, side, status).text, Dispatched(e, plan, side, status).change)
  {
  }

  /** The base's lines put in place of the lines left, by the revert of the one side still in. */
  lemma {:induction false} LastReverted(d: Editor, lines: Lines, pre: seq<string>, left: seq<string>, post: seq<string>, side: Side)
    requires InText(d.text, d.change) && d.text == Join(pre + left + post) && d.change.result == SpanOf(pre, left, post)
    requires left != [] && d.change.endsAtEof == (post == []) && !IsEmpty(d.change.sides.At(side))
    requires d.change.status.At(side) == Applied && d.change.status.At(Other(side)) != Applied
    ensures Clicked(d, lines, Revert(side)).text == Join(pre + lines.base + post)
  {
    SnapKeeps(pre, left, post);
    ReplaceSplices(pre, left, post, lines.base);
  }

  lemma {:induction false} LastPlan(d: Editor, lines: Lines, side: Side)
    requires InText(d.text, d.change) && d.change.endsAtEof && !IsEmpty(d.change.sides.At(side))
    requires d.change.status.At(side) == Applied && d.change.status.At(Other(side)) != Applied
    ensures var edit := ReplaceLines(d.text, SnapToLines(d.text, d.change.result), lines.base, true, false);
      && edit.from <= edit.upto <= |d.text|
      && Clicked(d, lines, Revert(side)).text == Spliced(d.text, edit.from, edit.upto, edit.insert)
  {
  }

  /** Where the line before a newline starts. */
  lemma {:induction false} LineStartBefore(p: string, last: string, k: string)
    requires AtLineStart(p) && '\n' !in last
    ensures LineFrom(p + last + "\n" + k, |p| + |last|) == |p|
  {
    var text := p + last + "\n" + k;
    assert text[|p|..|p| + |last|] == last && (p != "" ==> text[|p| - 1] == '\n');
  }

  lemma {:induction false} LastOfPre(pre: seq<string>)
    requires pre != []
    ensures Ended(pre) == Ended(pre[..|pre| - 1]) + pre[|pre| - 1] + "\n" && Join(pre) == Ended(pre[..|pre| - 1]) + pre[|pre| - 1]
    ensures AtLineStart(Ended(pre[..|pre| - 1]))
  {
    var init, last := pre[..|pre| - 1], pre[|pre| - 1];
    assert init + [last] == pre;
    EndedConcat(init, [last]);
    JoinConcat(init, [last]);
    EndedJoin(pre);
  }

  lemma {:induction false} OverwrittenLine(text: string, at: nat, p: string, last: string, k: string, base: seq<string>)
    requires AtLineStart(p) && base != [] && text == p + last + "\n" + k && at == |p| + |last|
    ensures |RedoneFrom(text, at, base)| <= at + |Join(base)|
    ensures '\n' !in last ==> RedoneFrom(text, at, base) == p + Join(base)
  {
    Overwritten(text, at, base);
    if '\n' !in last {
      LineStartBefore(p, last, k);
      assert text[..|p|] == p;
    }
  }

  /** Lines at the end of the file, below the last line of `pre`, and the same with that line gone. */
  lemma {:induction false} BelowLast(pre: seq<string>, b: seq<string>)
    requires pre != [] && b != []
    ensures var p, last := Ended(pre[..|pre| - 1]), pre[|pre| - 1];
      && Join(pre + b + []) == p + last + "\n" + Join(b) && Join(pre[..|pre| - 1] + b) == p + Join(b)
      && Len(pre) == |p| + |last| + 1 && |Join(pre + b + [])| == Len(pre) + |Join(b)| && AtLineStart(p)
  {
    TextAtEnd(pre, b);
    LastOfPre(pre);
    JoinConcat(pre[..|pre| - 1], b);
  }

  /** The last line of `pre` in a text with lines below it, and what other lines there would make. */
  lemma {:induction false} AroundLast(text: string, pre: seq<string>, b: seq<string>, base: seq<string>) returns (p: string, last: string, k: string)
    requires pre != [] && b != [] && base != [] && text == Join(pre + b + [])
    ensures text == p + last + "\n" + k && AtLineStart(p) && last == pre[|pre| - 1] && Len(pre) == |p| + |last| + 1
    ensures |Join(pre + base + [])| == Len(pre) + |Join(base)| && Join(pre[..|pre| - 1] + base) == p + Join(base)
  {
    BelowLast(pre, b);
    BelowLast(pre, base);
    p, last, k := Ended(pre[..|pre| - 1]), pre[|pre| - 1], Join(b);
  }

  /** A place that starts at the end of the line above takes that line along when it is replaced. */
  lemma {:induction false} LineAboveLost(text: string, pre: seq<string>, b: seq<string>, base: seq<string>)
    requires pre != [] && b != [] && base != [] && text == Join(pre + b + [])
    ensures 0 < Len(pre) <= |text| && |RedoneFrom(text, Len(pre) - 1, base)| < |Join(pre + base + [])|
    ensures '\n' !in pre[|pre| - 1] ==> RedoneFrom(text, Len(pre) - 1, base) == Join(pre[..|pre| - 1] + base)
  {
    var p, last, k := AroundLast(text, pre, b, base);
    OverwrittenLine(text, Len(pre) - 1, p, last, k, base);
  }

  /** The text with everything from the line of `at` on replaced, as `replaceLines` replaces the file's end. */
  function RedoneFrom(text: string, at: nat, base: seq<string>): string
    requires at <= |text|
  {
    var edit := ReplaceLines(text, SnapToLines(text, Span(at, |text|)), base, true, false);
    Spliced(text, edit.from, edit.upto, edit.insert)
  }

  lemma {:induction false} Overwritten(text: string, at: nat, base: seq<string>)
    requires at < |text| && base != []
    ensures RedoneFrom(text, at, base) == text[..LineFrom(text, at)] + Join(base)
  {
    assert "" + Join(base) + "" == Join(base);
  }

  /** The same with the lines of the base, which may be none. */
  lemma {:induction false} BlankAbove(pre: seq<string>, base: seq<string>)
    requires pre != []
    ensures var text, p, last := Join(pre), Ended(pre[..|pre| - 1]), pre[|pre| - 1];
      && text == p + last
      && Join(pre + base + []) == (if base == [] then text else text + "\n" + Join(base))
      && Join(pre[..|pre| - 1] + base) == (if base != [] then p + Join(base) else if p == "" then "" else p[..|p| - 1])
  {
    LastOfPre(pre);
    if base != [] {
      BelowLast(pre, base);
    } else {
      assert pre + [] + [] == pre && pre[..|pre| - 1] + [] == pre[..|pre| - 1];
      if pre[..|pre| - 1] != [] { EndedJoin(pre[..|pre| - 1]); }
    }
  }

  /** Adding the base's lines at the end of a text that ends with an empty line fills that line. */
  lemma {:induction false} BlankAboveLost(pre: seq<string>, base: seq<string>)
    requires pre != []
    ensures var text := Join(pre);
      var edit := ReplaceLines(text, SnapToLines(text, Span(|text|, |text|)), base, true, false);
      var blank := AtLineStart(text) && (base != [] || text != "");
      && (Spliced(text, edit.from, edit.upto, edit.insert) == Join(pre + base + []) <==> !blank)
      && (blank && '\n' !in pre[|pre| - 1] ==> Spliced(text, edit.from, edit.upto, edit.insert) == Join(pre[..|pre| - 1] + base))
  {
    BlankAbove(pre, base);
    var text, p, last := Join(pre), Ended(pre[..|pre| - 1]), pre[|pre| - 1];
    if base != [] { FilledAtEnd(text, base); } else { ShortenedAtEnd(text); }
    assert last != "" ==> text[|text| - 1] == last[|last| - 1];
    if AtLineStart(text) && '\n' !in last {
      assert text == p;
    }
  }

  lemma {:induction false} FilledAtEnd(text: string, base: seq<string>)
    requires base != []
    ensures var edit := ReplaceLines(text, SnapToLines(text, Span(|text|, |text|)), base, true, false);
      Spliced(text, edit.from, edit.upto, edit.insert) == text + (if AtLineStart(text) then "" else "\n") + Join(base)
  {
    var prefix := if AtLineStart(text) then "" else "\n";
    assert prefix + Join(base) + "" == prefix + Join(base);
    assert text + (prefix + Join(base)) == text + prefix + Join(base);
    if AtLineStart(text) { LineStarts(text, |text|); }
  }

  lemma {:induction false} ShortenedAtEnd(text: string)
    ensures var edit := ReplaceLines(text, SnapToLines(text, Span(|text|, |text|)), [], true, false);
      Spliced(text, edit.from, edit.upto, "") == (if AtLineStart(text) && text != "" then text[..|text| - 1] else text) && edit.insert == ""
  {
    if AtLineStart(text) { LineStarts(text, |text|); }
  }

  /** The editor after some clicks, if its spans never leave its text. */
  function After(e: Editor, lines: Lines, clicks: seq<Click>): Option<Editor>
    decreases |clicks|
  {
    if clicks == [] then Some(e)
    else if !InText(e.text, e.change) then None
    else After(Clicked(e, lines, clicks[0]), lines, clicks[1..])
  }

  /** Both sides taken, `first` first, and both reverted, `order` first. */
  function TakeAndRevert(first: Side, order: Side): seq<Click>
  {
    [Apply(first), Apply(Other(first)), Revert(order), Revert(Other(order))]
  }

  lemma {:induction false} AfterOne(e: Editor, lines: Lines, clicks: seq<Click>)
    requires InText(e.text, e.change) && clicks != []
    ensures After(e, lines, clicks) == After(Clicked(e, lines, clicks[0]), lines, clicks[1..])
  {
  }

  /**
   * Where dropping the first side before the second loses a line of the file: the conflict ends the file, and the
   * first side has no lines there, or the second is one empty line and so is the line above the conflict.
   */
  ghost predicate LosesLine(lines: Lines, pre: seq<string>, post: seq<string>, first: Side)
  {
    var a, b := lines.sides.At(first), lines.sides.At(Other(first));
    && post == [] && pre != [] && b != []
    && (a == [] ||
        (Join(b) == "" && !AtLineStart(Join(a)) && AtLineStart(Join(pre)) && (lines.base != [] || Join(pre) != "")))
  }

  /** The text two reverts leave: the base's lines in place, or the line above them gone. */
  ghost predicate Restores(d: Editor, lines: Lines, pre: seq<string>, post: seq<string>, last: Side, loses: bool)
  {
    && InText(d.text, d.change)
    && var text := Clicked(d, lines, Revert(last)).text;
    && (text == Join(pre + lines.base + post) <==> !loses)
    && (loses && pre != [] && '\n' !in pre[|pre| - 1] ==> text == Join(pre[..|pre| - 1] + lines.base))
  }

  lemma {:induction false} OkRestores(d: Editor, lines: Lines, pre: seq<string>, post: seq<string>, last: Side)
    requires EditorOk(d, lines, pre, post) && d.change.status.At(last) == Applied && d.change.status.At(Other(last)) != Applied
    ensures Restores(d, lines, pre, post, last, false)
  {
    OkInText(d, lines, pre, post);
    RevertKeeps(d, lines, pre, post, last);
  }

  /** Dropping the side below first always works. */
  lemma {:induction false} BelowThenAbove(c: Editor, lines: Lines, pre: seq<string>, post: seq<string>, first: Side)
    requires Stacked(c, lines, pre, post, first)
    ensures InText(c.text, c.change) && Restores(Clicked(c, lines, Revert(Other(first))), lines, pre, post, first, false)
  {
    DropBelow(c, lines, pre, post, first);
    var d := Clicked(c, lines, Revert(Other(first)));
    assert d.change.status.At(first) == Applied && d.change.status.At(Other(first)) == Ignored;
    OkRestores(d, lines, pre, post, first);
  }

  lemma {:induction false} LeftIn(c: Editor, lines: Lines, pre: seq<string>, post: seq<string>, first: Side)
    requires Stacked(c, lines, pre, post, first) && InText(c.text, c.change)
    ensures var d := Clicked(c, lines, Revert(first));
      && d.change.status.At(Other(first)) == Applied && d.change.status.At(first) == Ignored
      && d.change.endsAtEof == (post == []) && d.change.sides == c.change.sides
      && (IsEmpty(d.change.sides.At(Other(first))) <==> lines.sides.At(Other(first)) == [])
  {
  }

  /** Dropping the side above first, where that leaves exactly the one below. */
  lemma {:induction false} AboveThenBelow(c: Editor, lines: Lines, pre: seq<string>, post: seq<string>, first: Side)
    requires Stacked(c, lines, pre, post, first) && InText(c.text, c.change)
    requires EditorOk(Clicked(c, lines, Revert(first)), lines, pre, post)
    ensures Restores(Clicked(c, lines, Revert(first)), lines, pre, post, Other(first), false)
  {
    LeftIn(c, lines, pre, post, first);
    assert Other(Other(first)) == first;
    OkRestores(Clicked(c, lines, Revert(first)), lines, pre, post, Other(first));
  }

  /** The first side has no lines: dropping it changes neither the text nor where the change is. */
  lemma {:induction false} DropEmptyAbove(c: Editor, lines: Lines, pre: seq<string>, post: seq<string>, first: Side)
    requires Stacked(c, lines, pre, post, first) && lines.sides.At(first) == []
    ensures InText(c.text, c.change)
    ensures var plan, place := RevertPlan(c.text, c.change, first, lines.base), SpanOf(pre, [], post);
      && plan == EditPlan(place.from, place.from, "", None, None)
      && Spliced(c.text, plan.from, plan.upto, plan.insert) == c.text == Join(pre + lines.sides.At(Other(first)) + post)
      && c.change.result == Span(place.from, SpanOf(pre, lines.sides.At(Other(first)), post).upto)
      && c.change.taken.At(Other(first)) == Some(SpanOf(pre, lines.sides.At(Other(first)), post))
  {
    StackedInText(c, lines, pre, post, first);
    assert [] + lines.sides.At(Other(first)) == lines.sides.At(Other(first)) && pre + [] == pre;
  }

  /** An edit that changes nothing maps every span to itself. */
  lemma {:induction false} MapNothing(plan: EditPlan, span: Span)
    requires plan.insert == "" && plan.from == plan.upto && span.from <= span.upto
    ensures MapSpan(plan, span, true) == span && MapSpan(plan, span, false) == span
  {
  }

  lemma {:induction false} EmptyAboveKept(c: Editor, lines: Lines, pre: seq<string>, post: seq<string>, first: Side)
    requires Stacked(c, lines, pre, post, first) && lines.sides.At(first) == []
    requires post != [] || lines.sides.At(Other(first)) == []
    ensures InText(c.text, c.change)
    ensures Restores(Clicked(c, lines, Revert(first)), lines, pre, post, Other(first), false)
  {
    DropEmptyAbove(c, lines, pre, post, first);
    var b := lines.sides.At(Other(first));
    if post != [] { PlacesBefore(pre, [], b, post); }
    var plan := RevertPlan(c.text, c.change, first, lines.base);
    MapNothing(plan, c.change.result);
    OneLeft(c, lines, pre, post, first, plan);
    AboveThenBelow(c, lines, pre, post, first);
  }

  lemma {:induction false} EmptyAboveState(c: Editor, lines: Lines, pre: seq<string>, first: Side)
    requires Stacked(c, lines, pre, [], first) && lines.sides.At(first) == [] && lines.sides.At(Other(first)) != []
    ensures InText(c.text, c.change) && pre != [] && lines.base != [] && Len(pre) > 0
    ensures var d := Clicked(c, lines, Revert(first));
      && InText(d.text, d.change) && d.text == Join(pre + lines.sides.At(Other(first)) + [])
      && d.change.result == Span(Len(pre) - 1, |d.text|)
  {
    assert SideFits(lines, first, pre, []) && pre != [] && lines.base != [];
    DropEmptyAbove(c, lines, pre, [], first);
    var plan := RevertPlan(c.text, c.change, first, lines.base);
    StaysInText(c, plan, first, Ignored);
    MapNothing(plan, c.change.result);
    TextAtEnd(pre, []);
    TextAtEnd(pre, lines.sides.At(Other(first)));
  }

  lemma {:induction false} LineAboveReverted(d: Editor, lines: Lines, pre: seq<string>, b: seq<string>, last: Side)
    requires InText(d.text, d.change) && d.change.endsAtEof && !IsEmpty(d.change.sides.At(last))
    requires d.change.status.At(last) == Applied && d.change.status.At(Other(last)) != Applied
    requires pre != [] && b != [] && lines.base != [] && d.text == Join(pre + b + []) && Len(pre) > 0 && d.change.result == Span(Len(pre) - 1, |d.text|)
    ensures Restores(d, lines, pre, [], last, true)
  {
    LastPlan(d, lines, last);
    LineAboveLost(d.text, pre, b, lines.base);
    assert Clicked(d, lines, Revert(last)).text == RedoneFrom(d.text, Len(pre) - 1, lines.base);
  }

  lemma {:induction false} EmptyAboveLost(c: Editor, lines: Lines, pre: seq<string>, first: Side)
    requires Stacked(c, lines, pre, [], first) && lines.sides.At(first) == [] && lines.sides.At(Other(first)) != []
    ensures InText(c.text, c.change) && pre != []
    ensures Restores(Clicked(c, lines, Revert(first)), lines, pre, [], Other(first), true)
  {
    EmptyAboveState(c, lines, pre, first);
    LeftIn(c, lines, pre, [], first);
    assert Other(Other(first)) == first;
    LineAboveReverted(Clicked(c, lines, Revert(first)), lines, pre, lines.sides.At(Other(first)), Other(first));
  }

  /** The first side ends with an empty line at the end of the file: the newline left goes with the last revert. */
  lemma {:induction false} BareThenBelow(c: Editor, lines: Lines, pre: seq<string>, first: Side)
    requires Stacked(c, lines, pre, [], first) && lines.sides.At(first) != [] && lines.sides.At(Other(first)) != []
    requires AtLineStart(Join(lines.sides.At(first)))
    ensures InText(c.text, c.change)
    ensures Restores(Clicked(c, lines, Revert(first)), lines, pre, [], Other(first), false)
  {
    StackedInText(c, lines, pre, [], first);
    DropAboveBare(c, lines, pre, first);
    AbovePlan(c, lines, pre, [], first);
    LeftIn(c, lines, pre, [], first);
    StaysInText(c, RevertPlan(c.text, c.change, first, lines.base), first, Ignored);
    assert Other(Other(first)) == first;
    LastReverted(Clicked(c, lines, Revert(first)), lines, pre, [""] + lines.sides.At(Other(first)), [], Other(first));
  }

  /** The second side is one empty line: the line above must not be empty too. */
  lemma {:induction false} AllThenBelow(c: Editor, lines: Lines, pre: seq<string>, first: Side)
    requires Stacked(c, lines, pre, [], first) && lines.sides.At(first) != [] && lines.sides.At(Other(first)) != []
    requires !AtLineStart(Join(lines.sides.At(first))) && Join(lines.sides.At(Other(first))) == "" && pre != []
    ensures InText(c.text, c.change)
    ensures Restores(Clicked(c, lines, Revert(first)), lines, pre, [], Other(first),
      AtLineStart(Join(pre)) && (lines.base != [] || Join(pre) != ""))
  {
    StackedInText(c, lines, pre, [], first);
    DropAboveAll(c, lines, pre, first);
    AbovePlan(c, lines, pre, [], first);
    LeftIn(c, lines, pre, [], first);
    StaysInText(c, RevertPlan(c.text, c.change, first, lines.base), first, Ignored);
    assert Other(Other(first)) == first;
    LastPlan(Clicked(c, lines, Revert(first)), lines, Other(first));
    BlankAboveLost(pre, lines.base);
  }

  /** Dropping the side above first works but for the lines `LosesLine` tells. */
  lemma {:induction false} AboveFirst(c: Editor, lines: Lines, pre: seq<string>, post: seq<string>, first: Side)
    requires Stacked(c, lines, pre, post, first)
    ensures InText(c.text, c.change)
    ensures Restores(Clicked(c, lines, Revert(first)), lines, pre, post, Other(first), LosesLine(lines, pre, post, first))
  {
    StackedInText(c, lines, pre, post, first);
    var a, b := lines.sides.At(first), lines.sides.At(Other(first));
    if a == [] {
      if post == [] && b != [] { EmptyAboveLost(c, lines, pre, first); } else { EmptyAboveKept(c, lines, pre, post, first); }
    } else if post != [] {
      DropAboveBefore(c, lines, pre, post, first);
      AboveThenBelow(c, lines, pre, post, first);
    } else if b == [] {
      DropAboveAlone(c, lines, pre, first);
      AboveThenBelow(c, lines, pre, post, first);
    } else if AtLineStart(Join(a)) {
      BareThenBelow(c, lines, pre, first);
    } else if Join(b) == "" && pre != [] {
      AllThenBelow(c, lines, pre, first);
    } else {
      DropAboveLine(c, lines, pre, first);
      AboveThenBelow(c, lines, pre, post, first);
    }
  }

  /**
   * Where dropping the first side does not leave exactly the second's lines, at the end of the file: an empty last
   * line of the first's stays, or the second's only empty line goes with it.
   */
  ghost predicate TakesOther(lines: Lines, pre: seq<string>, post: seq<string>, first: Side)
  {
    var a, b := lines.sides.At(first), lines.sides.At(Other(first));
    post == [] && a != [] && b != [] && (AtLineStart(Join(a)) || (Join(b) == "" && pre != []))
  }

  lemma {:induction false} LeftShown(d: Editor, lines: Lines, pre: seq<string>, post: seq<string>, side: Side)
    requires EditorOk(d, lines, pre, post) && d.change.status.At(side) == Applied && d.change.status.At(Other(side)) != Applied
    ensures d.text == Join(pre + lines.sides.At(side) + post)
  {
  }

  lemma {:induction false} AboveTaken(c: Editor, lines: Lines, pre: seq<string>, post: seq<string>, first: Side)
    requires Stacked(c, lines, pre, post, first) && lines.sides.At(first) != [] && !TakesOther(lines, pre, post, first)
    ensures InText(c.text, c.change)
    ensures Clicked(c, lines, Revert(first)).text == Join(pre + lines.sides.At(Other(first)) + post)
  {
    StackedInText(c, lines, pre, post, first);
    LeftIn(c, lines, pre, post, first);
    if post != [] { DropAboveBefore(c, lines, pre, post, first); }
    else if lines.sides.At(Other(first)) == [] { DropAboveAlone(c, lines, pre, first); }
    else { DropAboveLine(c, lines, pre, first); }
    assert Other(Other(first)) == first;
    LeftShown(Clicked(c, lines, Revert(first)), lines, pre, post, Other(first));
  }

  lemma {:induction false} OtherTaken(c: Editor, lines: Lines, pre: seq<string>, post: seq<string>, first: Side)
    requires Stacked(c, lines, pre, post, first) && TakesOther(lines, pre, post, first)
    ensures InText(c.text, c.change)
    ensures Clicked(c, lines, Revert(first)).text != Join(pre + lines.sides.At(Other(first)) + post)
  {
    var b := lines.sides.At(Other(first));
    TextAtEnd(pre, b);
    if AtLineStart(Join(lines.sides.At(first))) {
      DropAboveBare(c, lines, pre, first);
      BreakAbove(pre, b);
    } else {
      DropAboveAll(c, lines, pre, first);
      EndedJoin(pre);
    }
  }

  /** With both sides in, dropping one leaves exactly the other's lines but where `TakesOther` tells. */
  lemma {:induction false} RevertOne(c: Editor, lines: Lines, pre: seq<string>, post: seq<string>, first: Side, side: Side)
    requires Stacked(c, lines, pre, post, first)
    ensures InText(c.text, c.change)
    ensures Clicked(c, lines, Revert(side)).text == Join(pre + lines.sides.At(Other(side)) + post)
      <==> !(side == first && TakesOther(lines, pre, post, first))
  {
    assert Other(Other(first)) == first;
    if side != first {
      assert side == Other(first);
      DropBelow(c, lines, pre, post, first);
      LeftShown(Clicked(c, lines, Revert(side)), lines, pre, post, first);
    } else if lines.sides.At(first) == [] {
      DropEmptyAbove(c, lines, pre, post, first);
    } else if TakesOther(lines, pre, post, first) {
      OtherTaken(c, lines, pre, post, first);
    } else {
      AboveTaken(c, lines, pre, post, first);
    }
  }

  /** The editor after both sides of a conflict were taken, `first` first. */
  lemma {:induction false} BothTaken(e: Editor, lines: Lines, pre: seq<string>, post: seq<string>, first: Side)
    requires EditorOk(e, lines, pre, post) && e.change.conflict
    requires e.change.status.At(first) in {Open, Ignored} && e.change.status.At(Other(first)) in {Open, Ignored}
    ensures InText(e.text, e.change)
    ensures var b := Clicked(e, lines, Apply(first));
      InText(b.text, b.change) && Stacked(Clicked(b, lines, Apply(Other(first))), lines, pre, post, first)
  {
    OkInText(e, lines, pre, post);
    ApplyKeeps(e, lines, pre, post, first);
    var b := Clicked(e, lines, Apply(first));
    assert Other(Other(first)) == first && b.change.status.At(first) == Applied && b.change.status.At(Other(first)) in {Open, Ignored};
    AppendSecond(b, lines, pre, post, Other(first));
  }

  lemma {:induction false} AfterTwo(e: Editor, lines: Lines, clicks: seq<Click>)
    requires |clicks| >= 2 && InText(e.text, e.change)
    requires var b := Clicked(e, lines, clicks[0]); InText(b.text, b.change)
    ensures After(e, lines, clicks) == After(Clicked(Clicked(e, lines, clicks[0]), lines, clicks[1]), lines, clicks[2..])
  {
    AfterOne(e, lines, clicks);
    AfterOne(Clicked(e, lines, clicks[0]), lines, clicks[1..]);
    assert clicks[1..][1..] == clicks[2..];
  }

  /** The text is there, and it is the lines around the region with the base's in it, unless the line above is lost. */
  ghost predicate Ends(last: Option<Editor>, lines: Lines, pre: seq<string>, post: seq<string>, loses: bool)
  {
    && last.Some?
    && (last.value.text == Join(pre + lines.base + post) <==> !loses)
    && (loses && pre != [] && '\n' !in pre[|pre| - 1] ==> last.value.text == Join(pre[..|pre| - 1] + lines.base))
  }

  /** Both reverts, once both sides are taken. */
  lemma {:induction false} EitherOrder(c: Editor, lines: Lines, pre: seq<string>, post: seq<string>, first: Side, order: Side)
    requires Stacked(c, lines, pre, post, first)
    ensures InText(c.text, c.change)
    ensures Restores(Clicked(c, lines, Revert(order)), lines, pre, post, Other(order), order == first && LosesLine(lines, pre, post, first))
  {
    if order == first {
      AboveFirst(c, lines, pre, post, first);
    } else {
      assert order == Other(first) && Other(order) == first;
      BelowThenAbove(c, lines, pre, post, first);
    }
  }

  lemma {:induction false} RevertsEnd(c: Editor, lines: Lines, pre: seq<string>, post: seq<string>, first: Side, order: Side)
    requires Stacked(c, lines, pre, post, first)
    ensures Ends(After(c, lines, [Revert(order), Revert(Other(order))]), lines, pre, post, order == first && LosesLine(lines, pre, post, first))
  {
    EitherOrder(c, lines, pre, post, first, order);
    var clicks := [Revert(order), Revert(Other(order))];
    AfterTwo(c, lines, clicks);
    assert clicks[2..] == [];
  }

  /**
   * Taking both sides of a conflict and reverting both gives the text back, whichever is reverted first, if and only
   * if that order is not the one that `LosesLine` tells; then the line above the conflict is gone.
   */
  lemma {:induction false} RevertBoth(e: Editor, lines: Lines, pre: seq<string>, post: seq<string>, first: Side, order: Side)
    requires EditorOk(e, lines, pre, post) && e.change.conflict
    requires e.change.status.At(first) in {Open, Ignored} && e.change.status.At(Other(first)) in {Open, Ignored}
    ensures Ends(After(e, lines, TakeAndRevert(first, order)), lines, pre, post, order == first && LosesLine(lines, pre, post, first))
  {
    BothTaken(e, lines, pre, post, first);
    var clicks := TakeAndRevert(first, order);
    AfterTwo(e, lines, clicks);
    assert clicks[2..] == [Revert(order), Revert(Other(order))];
    RevertsEnd(Clicked(Clicked(e, lines, clicks[0]), lines, clicks[1]), lines, pre, post, first, order);
  }

  /** What is left where the line above is lost. */
  lemma {:induction false} LineAboveGone(e: Editor, lines: Lines, above: seq<string>, last: string, first: Side, kept: string)
    requires EditorOk(e, lines, above + [last], []) && e.change.conflict && LosesLine(lines, above + [last], [], first)
    requires e.change.status.At(first) in {Open, Ignored} && e.change.status.At(Other(first)) in {Open, Ignored}
    requires '\n' !in last && kept == Join(above + lines.base)
    ensures After(e, lines, TakeAndRevert(first, first)).Some? && After(e, lines, TakeAndRevert(first, first)).value.text == kept
  {
    var pre := above + [last];
    assert pre[..|pre| - 1] == above && pre[|pre| - 1] == last;
    RevertBoth(e, lines, pre, [], first, first);
  }
}
