/**
 * What the merge editor's buttons do to one change: `applyPlan` and `revertPlan` of
 * packages/plugin/src/sync/merge-model.ts, as packages/plugin/src/ui/diff/merge-editor.ts dispatches them.
 */
module MergeChoices {
  import opened Common
  import opened Texts
  import opened Regions
  import opened MergeEdits

  /** `NotThere` is a side that made no change; a reverted side is `Ignored` again. */
  datatype Status = NotThere | Open | Applied | Ignored

  datatype Both<T> = Both(local: T, remote: T) {
    function At(side: Side): T { if side == Local then local else remote }

    function With(side: Side, value: T): Both<T>
    {
      if side == Local then this.(local := value) else this.(remote := value)
    }
  }

  /** One region of a merge session; `taken` is where a side's lines are in the result. */
  datatype MergeChange = MergeChange(index: nat, conflict: bool, base: Range, endsAtEof: bool, sides: Both<Range>,
                                     result: Span, taken: Both<Option<Span>>, status: Both<Status>)

  /** An edit of the result, the change's new place if mapping alone does not give it, and one side's new place. */
  datatype EditPlan = EditPlan(from: nat, upto: nat, insert: string, result: Option<Span>, taken: Option<Span>)

  predicate IsEmpty(r: Range) { r.from == r.upto }

  predicate EmptyResult(change: MergeChange)
  {
    var a, b := change.status.local == Applied, change.status.remote == Applied;
    if a || b then (a ==> IsEmpty(change.sides.local)) && (b ==> IsEmpty(change.sides.remote))
    else IsEmpty(change.base)
  }

  predicate InText(text: string, change: MergeChange)
  {
    && change.result.from <= change.result.upto <= |text|
    && (change.taken.local.Some? ==> change.taken.local.value.from <= change.taken.local.value.upto <= |text|)
    && (change.taken.remote.Some? ==> change.taken.remote.value.from <= change.taken.remote.value.upto <= |text|)
  }

  /** Three cases: a shared change is only marked, a conflict's second side goes after the span, any other replaces it. */
  function ApplyPlan(text: string, change: MergeChange, side: Side, sideLines: seq<string>): (r: EditPlan)
    requires InText(text, change)
    ensures r.from <= r.upto <= |text|
  {
    var span := SnapToLines(text, change.result);
    var otherApplied := change.status.At(Other(side)) == Applied;
    var otherPart := change.taken.At(Other(side));
    if !change.conflict && otherApplied && otherPart.Some? then
      EditPlan(otherPart.value.from, otherPart.value.from, "", Some(change.result), otherPart)
    else if otherApplied && sideLines == [] then
      EditPlan(span.upto, span.upto, "", Some(span), Some(Span(span.upto, span.upto)))
    else
      var target := if otherApplied then Span(span.upto, span.upto) else span;
      var edit := ReplaceLines(text, target, sideLines, change.endsAtEof, otherApplied || EmptyResult(change));
      EditPlan(edit.from, edit.upto, edit.insert,
        Some(if otherApplied then Span(span.from, edit.result.upto) else edit.result), Some(edit.result))
  }

  /** Three cases: a shared change is only unmarked, one of two sides in is cut out, a lone one gives way to the base. */
  function RevertPlan(text: string, change: MergeChange, side: Side, baseLines: seq<string>): (r: EditPlan)
    requires InText(text, change)
    ensures r.from <= r.upto <= |text|
  {
    var part, otherPart := change.taken.At(side), change.taken.At(Other(side));
    var otherApplied := change.status.At(Other(side)) == Applied;
    if !change.conflict && otherApplied && part.Some? && otherPart == part then
      EditPlan(part.value.from, part.value.from, "", None, None)
    else if part.Some? && otherApplied then
      if part.value.from == part.value.upto && IsEmpty(change.sides.At(side)) then
        EditPlan(part.value.from, part.value.from, "", None, None)
      else
        var edit := ReplaceLines(text, SnapToLines(text, part.value), [], change.endsAtEof, false);
        EditPlan(edit.from, edit.upto, "", None, None)
    else
      var edit := ReplaceLines(text, SnapToLines(text, change.result), baseLines, change.endsAtEof, EmptyResult(change));
      EditPlan(edit.from, edit.upto, edit.insert, Some(edit.result), None)
  }

  /** The result text and one of its changes. */
  datatype Editor = Editor(text: string, change: MergeChange)

  /** The lines of the change's region on the three sides. */
  datatype Lines = Lines(base: seq<string>, sides: Both<seq<string>>)

  datatype Click = Apply(side: Side) | Revert(side: Side) | Ignore(side: Side)

  /** The buttons a side offers as it stands; taking both sides of a conflict is what `MergeStacks` is about. */
  predicate Offered(e: Editor, click: Click)
  {
    match click
    case Apply(side) =>
      e.change.status.At(side) in {Open, Ignored} && (e.change.conflict ==> e.change.status.At(Other(side)) != Applied)
    case Revert(side) => e.change.status.At(side) == Applied
    case Ignore(side) => e.change.status.At(side) == Open
  }

  /** Where the editor takes a position across one edit; at a pure insertion, `after` is the side it stays on. */
  function MapPos(plan: EditPlan, pos: nat, after: bool): nat
    requires plan.from <= plan.upto
  {
    if pos < plan.from then pos
    else if pos < plan.upto || (pos == plan.from && !after) then
      if pos == plan.from || !after then plan.from else plan.from + |plan.insert|
    else pos - plan.upto + plan.from + |plan.insert|
  }

  /** The start never moves past an insertion at it; the end does only where the span is empty and `grow` is set. */
  function MapSpan(plan: EditPlan, span: Span, grow: bool): (r: Span)
    requires plan.from <= plan.upto
    ensures r.from <= r.upto
  {
    var from := MapPos(plan, span.from, false);
    Span(from, Max(from, MapPos(plan, span.upto, grow && span.from == span.upto)))
  }

  function MapTaken(plan: EditPlan, part: Option<Span>): Option<Span>
    requires plan.from <= plan.upto
  {
    if part.Some? then Some(MapSpan(plan, part.value, false)) else None
  }

  function Dispatched(e: Editor, plan: EditPlan, side: Side, status: Status): Editor
    requires plan.from <= plan.upto <= |e.text|
  {
    var taken := Both(MapTaken(plan, e.change.taken.local), MapTaken(plan, e.change.taken.remote));
    Editor(Spliced(e.text, plan.from, plan.upto, plan.insert),
      e.change.(result := if plan.result.Some? then plan.result.value else MapSpan(plan, e.change.result, true),
                taken := taken.With(side, plan.taken), status := e.change.status.With(side, status)))
  }

  function Clicked(e: Editor, lines: Lines, click: Click): Editor
    requires InText(e.text, e.change)
  {
    match click
    case Apply(side) => Dispatched(e, ApplyPlan(e.text, e.change, side, lines.sides.At(side)), side, Applied)
    case Revert(side) => Dispatched(e, RevertPlan(e.text, e.change, side, lines.base), side, Ignored)
    case Ignore(side) => e.(change := e.change.(status := e.change.status.With(side, Ignored)))
  }

  /** The region's lines now in the result. */
  function Shown(change: MergeChange, lines: Lines): seq<string>
  {
    if change.status.local == Applied then lines.sides.local
    else if change.status.remote == Applied then lines.sides.remote
    else lines.base
  }

  /** The region's ranges hold its lines, and its sides are told apart as a session builds them. */
  ghost predicate ChangeFits(change: MergeChange, lines: Lines, pre: seq<string>, post: seq<string>)
  {
    && change.base.from + |lines.base| == change.base.upto
    && (forall side :: change.sides.At(side).from + |lines.sides.At(side)| == change.sides.At(side).upto)
    && change.endsAtEof == (post == [])
    && (forall side :: change.status.At(side) != NotThere ==> SideFits(lines, side, pre, post))
    && (!change.conflict && change.status.local != NotThere && change.status.remote != NotThere ==> lines.sides.local == lines.sides.remote)
  }

  /** A changed side and the base are not both empty there, nor either one where they are the whole file. */
  ghost predicate SideFits(lines: Lines, side: Side, pre: seq<string>, post: seq<string>)
  {
    var own := lines.sides.At(side);
    if pre + post == [] then lines.base != [] && own != [] else lines.base != [] || own != []
  }

  /** The text is the lines around the region with the shown lines in it, and the change knows where they are. */
  ghost predicate EditorOk(e: Editor, lines: Lines, pre: seq<string>, post: seq<string>)
  {
    var shown := Shown(e.change, lines);
    && ChangeFits(e.change, lines, pre, post)
    && e.text == Join(pre + shown + post) && e.change.result == SpanOf(pre, shown, post)
    && (e.change.conflict ==> e.change.status.local != Applied || e.change.status.remote != Applied)
    && (forall side :: e.change.taken.At(side) == if e.change.status.At(side) == Applied then Some(e.change.result) else None)
  }

  lemma {:induction false} OkInText(e: Editor, lines: Lines, pre: seq<string>, post: seq<string>)
    requires EditorOk(e, lines, pre, post)
    ensures InText(e.text, e.change)
    ensures EmptyResult(e.change) <==> Shown(e.change, lines) == []
  {
    assert e.change.taken.At(Local) == e.change.taken.local && e.change.taken.At(Remote) == e.change.taken.remote;
    assert e.change.sides.At(Local) == e.change.sides.local && e.change.sides.At(Remote) == e.change.sides.remote;
    assert e.change.status.At(Local) == e.change.status.local && e.change.status.At(Remote) == e.change.status.remote;
    assert lines.sides.At(Local) == lines.sides.local && lines.sides.At(Remote) == lines.sides.remote;
  }

  /** Replacing what is shown by other lines of the region. */
  lemma {:induction false} ReplaceShown(e: Editor, lines: Lines, pre: seq<string>, post: seq<string>, own: seq<string>)
    requires EditorOk(e, lines, pre, post) && InText(e.text, e.change)
    requires Shown(e.change, lines) != [] || own != []
    requires Shown(e.change, lines) == [] ==> pre + post != []
    ensures SnapToLines(e.text, e.change.result) == e.change.result
    ensures Splices(pre, Shown(e.change, lines), post, own,
      ReplaceLines(e.text, e.change.result, own, e.change.endsAtEof, EmptyResult(e.change)))
  {
    OkInText(e, lines, pre, post);
    SnapKeeps(pre, Shown(e.change, lines), post);
    ReplaceSplices(pre, Shown(e.change, lines), post, own);
  }

  /** An edit that shows `own`, taken in by `side` or dropped by it. */
  lemma {:induction false} ShownNext(e: Editor, lines: Lines, pre: seq<string>, post: seq<string>, side: Side, plan: EditPlan, status: Status, own: seq<string>)
    requires EditorOk(e, lines, pre, post) && e.change.status.At(side) != NotThere && status in {Applied, Ignored}
    requires e.change.status.At(Other(side)) != Applied
    requires own == if status == Applied then lines.sides.At(side) else lines.base
    requires plan.from <= plan.upto <= |e.text|
    requires Spliced(e.text, plan.from, plan.upto, plan.insert) == Join(pre + own + post)
    requires plan.result == Some(SpanOf(pre, own, post)) && plan.taken == if status == Applied then plan.result else None
    ensures EditorOk(Dispatched(e, plan, side, status), lines, pre, post)
    ensures Shown(Dispatched(e, plan, side, status).change, lines) == own
  {
    var next := Dispatched(e, plan, side, status);
    forall s: Side ensures next.change.taken.At(s) == if next.change.status.At(s) == Applied then Some(next.change.result) else None {
      if s != side { assert s == Other(side); }
    }
    ChangeStillFits(e.change, next.change, lines, pre, post, side);
  }

  lemma {:induction false} ChangeStillFits(change: MergeChange, next: MergeChange, lines: Lines, pre: seq<string>, post: seq<string>, side: Side)
    requires ChangeFits(change, lines, pre, post) && change.status.At(side) != NotThere
    requires next == change.(result := next.result, taken := next.taken, status := next.status)
    requires next.status == change.status.With(side, next.status.At(side))
    ensures ChangeFits(next, lines, pre, post)
  {
    forall s: Side | next.status.At(s) != NotThere ensures SideFits(lines, s, pre, post) {
      assert change.status.At(s) != NotThere;
    }
    assert change.status.At(Local) == change.status.local && change.status.At(Remote) == change.status.remote;
  }

  /** Taking a side while the other is not in puts exactly its lines there. */
  lemma {:induction false} ApplyKeeps(e: Editor, lines: Lines, pre: seq<string>, post: seq<string>, side: Side)
    requires EditorOk(e, lines, pre, post) && InText(e.text, e.change) && Offered(e, Apply(side))
    requires e.change.status.At(Other(side)) != Applied
    ensures EditorOk(Clicked(e, lines, Apply(side)), lines, pre, post)
    ensures Clicked(e, lines, Apply(side)).text == Join(pre + lines.sides.At(side) + post)
  {
    var own := lines.sides.At(side);
    assert SideFits(lines, side, pre, post);
    NoneShown(e, lines, side);
    ReplaceShown(e, lines, pre, post, own);
    ShownNext(e, lines, pre, post, side, ApplyPlan(e.text, e.change, side, own), Applied, own);
  }

  lemma {:induction false} NoneShown(e: Editor, lines: Lines, side: Side)
    requires e.change.status.At(side) != Applied && e.change.status.At(Other(side)) != Applied
    ensures Shown(e.change, lines) == lines.base
  {
  }

  /** Dropping the only side in brings the base's lines back. */
  lemma {:induction false} RevertKeeps(e: Editor, lines: Lines, pre: seq<string>, post: seq<string>, side: Side)
    requires EditorOk(e, lines, pre, post) && InText(e.text, e.change) && Offered(e, Revert(side))
    requires e.change.status.At(Other(side)) != Applied
    ensures EditorOk(Clicked(e, lines, Revert(side)), lines, pre, post)
    ensures Clicked(e, lines, Revert(side)).text == Join(pre + lines.base + post)
  {
    assert SideFits(lines, side, pre, post);
    assert Shown(e.change, lines) == lines.sides.At(side);
    ReplaceShown(e, lines, pre, post, lines.base);
    ShownNext(e, lines, pre, post, side, RevertPlan(e.text, e.change, side, lines.base), Ignored, lines.base);
  }

  /** With equal sides, one of them in: the click's edit changes nothing. */
  lemma {:induction false} SharedPlan(e: Editor, lines: Lines, pre: seq<string>, post: seq<string>, click: Click)
    requires EditorOk(e, lines, pre, post) && InText(e.text, e.change) && Offered(e, click) && !click.Ignore?
    requires e.change.status.At(Other(click.side)) == Applied
    ensures !e.change.conflict && lines.sides.local == lines.sides.remote && e.change.taken.At(Other(click.side)) == Some(e.change.result)
    ensures Clicked(e, lines, click).text == e.text && Clicked(e, lines, click).change.result == e.change.result
  {
    SharedSides(e, lines, pre, post, click);
    var side := click.side;
    var plan := if click.Apply? then ApplyPlan(e.text, e.change, side, lines.sides.At(side)) else RevertPlan(e.text, e.change, side, lines.base);
    assert plan.from == plan.upto == e.change.result.from && plan.insert == "";
    assert Spliced(e.text, plan.from, plan.upto, plan.insert) == e.text;
  }

  lemma {:induction false} SharedSides(e: Editor, lines: Lines, pre: seq<string>, post: seq<string>, click: Click)
    requires EditorOk(e, lines, pre, post) && Offered(e, click) && !click.Ignore? && e.change.status.At(Other(click.side)) == Applied
    ensures !e.change.conflict && lines.sides.local == lines.sides.remote && e.change.taken.At(Other(click.side)) == Some(e.change.result)
    ensures click.Revert? ==> e.change.taken.At(click.side) == Some(e.change.result)
  {
    assert e.change.status.At(Local) == e.change.status.local && e.change.status.At(Remote) == e.change.status.remote;
    assert e.change.taken.At(Other(click.side)) == Some(e.change.result);
  }

  /** Taking or dropping one of two equal sides while the other is in leaves the text alone. */
  lemma {:induction false} SharedKeeps(e: Editor, lines: Lines, pre: seq<string>, post: seq<string>, click: Click)
    requires EditorOk(e, lines, pre, post) && InText(e.text, e.change) && Offered(e, click) && !click.Ignore?
    requires e.change.status.At(Other(click.side)) == Applied
    ensures EditorOk(Clicked(e, lines, click), lines, pre, post) && Clicked(e, lines, click).text == e.text
  {
    var side := click.side;
    SharedPlan(e, lines, pre, post, click);
    var next := Clicked(e, lines, click);
    ChangeStillFits(e.change, next.change, lines, pre, post, side);
    forall s: Side ensures next.change.taken.At(s) == if next.change.status.At(s) == Applied then Some(next.change.result) else None {
      if s != side { assert s == Other(side); }
    }
  }

  lemma {:induction false} IgnoreKeeps(e: Editor, lines: Lines, pre: seq<string>, post: seq<string>, side: Side)
    requires EditorOk(e, lines, pre, post) && InText(e.text, e.change) && Offered(e, Ignore(side))
    ensures EditorOk(Clicked(e, lines, Ignore(side)), lines, pre, post) && Clicked(e, lines, Ignore(side)).text == e.text
  {
    var next := Clicked(e, lines, Ignore(side));
    ChangeStillFits(e.change, next.change, lines, pre, post, side);
    forall s: Side ensures next.change.taken.At(s) == if next.change.status.At(s) == Applied then Some(next.change.result) else None {
      assert e.change.taken.At(s) == if e.change.status.At(s) == Applied then Some(e.change.result) else None;
    }
  }

  /** Every offered click keeps the text right: the lines around the region, and the taken side's or the base's in it. */
  lemma {:induction false} ClickKeeps(e: Editor, lines: Lines, pre: seq<string>, post: seq<string>, click: Click)
    requires EditorOk(e, lines, pre, post) && Offered(e, click)
    ensures InText(e.text, e.change) && EditorOk(Clicked(e, lines, click), lines, pre, post)
  {
    OkInText(e, lines, pre, post);
    if click.Ignore? { IgnoreKeeps(e, lines, pre, post, click.side); }
    else if e.change.status.At(Other(click.side)) == Applied { SharedKeeps(e, lines, pre, post, click); }
    else if click.Apply? { ApplyKeeps(e, lines, pre, post, click.side); }
    else { RevertKeeps(e, lines, pre, post, click.side); }
  }

  /** `es` are the editors a run of clicks goes through. */
  ghost predicate Run(es: seq<Editor>, clicks: seq<Click>, lines: Lines)
  {
    && |es| == |clicks| + 1
    && forall i :: 0 <= i < |clicks| ==> Offered(es[i], clicks[i]) && InText(es[i].text, es[i].change) && es[i + 1] == Clicked(es[i], lines, clicks[i])
  }

  /** Any run of clicks on one change ends with the right text: what it shows is all that tells two ends apart. */
  lemma {:induction false} RunKeeps(es: seq<Editor>, clicks: seq<Click>, lines: Lines, pre: seq<string>, post: seq<string>)
    requires Run(es, clicks, lines) && EditorOk(es[0], lines, pre, post)
    ensures EditorOk(es[|clicks|], lines, pre, post)
    decreases |clicks|
  {
    if |clicks| > 0 {
      ClickKeeps(es[0], lines, pre, post, clicks[0]);
      RunKeeps(es[1..], clicks[1..], lines, pre, post);
    }
  }

  /** Reverting a side at once restores the text, with and without a final newline. */
  lemma {:induction false} RevertUndoesApply(e: Editor, lines: Lines, pre: seq<string>, post: seq<string>, side: Side)
    requires EditorOk(e, lines, pre, post) && Offered(e, Apply(side)) && e.change.status.At(Other(side)) != Applied
    ensures InText(e.text, e.change)
    ensures InText(Clicked(e, lines, Apply(side)).text, Clicked(e, lines, Apply(side)).change)
    ensures Offered(Clicked(e, lines, Apply(side)), Revert(side))
    ensures Clicked(Clicked(e, lines, Apply(side)), lines, Revert(side)).text == e.text
  {
    OkInText(e, lines, pre, post);
    ApplyKeeps(e, lines, pre, post, side);
    NoneShown(e, lines, side);
    var applied := Clicked(e, lines, Apply(side));
    OkInText(applied, lines, pre, post);
    assert applied.change.status == e.change.status.With(side, Applied);
    RevertKeeps(applied, lines, pre, post, side);
  }

  /** A side that is not in, and not kept out by the other, can be taken: its lines stand there then, and can be dropped again. */
  lemma {:induction false} TakesSide(e: Editor, lines: Lines, pre: seq<string>, post: seq<string>, side: Side)
    requires EditorOk(e, lines, pre, post) && e.change.status.At(side) in {Open, Ignored} && e.change.status.At(Other(side)) != Applied
    ensures Offered(e, Apply(side)) && InText(e.text, e.change)
    ensures var r := Clicked(e, lines, Apply(side));
      r.text == Join(pre + lines.sides.At(side) + post) && r.change.status == e.change.status.With(side, Applied) && Offered(r, Revert(side))
  {
    OkInText(e, lines, pre, post);
    ApplyKeeps(e, lines, pre, post, side);
  }

  /** A side that is in alone can be dropped: the base's lines stand there then, and it can be taken again. */
  lemma {:induction false} DropsSide(e: Editor, lines: Lines, pre: seq<string>, post: seq<string>, side: Side)
    requires EditorOk(e, lines, pre, post) && e.change.status.At(side) == Applied && e.change.status.At(Other(side)) != Applied
    ensures Offered(e, Revert(side)) && InText(e.text, e.change)
    ensures var r := Clicked(e, lines, Revert(side));
      r.text == Join(pre + lines.base + post) && r.change.status == e.change.status.With(side, Ignored) && Offered(r, Apply(side))
  {
    OkInText(e, lines, pre, post);
    RevertKeeps(e, lines, pre, post, side);
  }

  /** An open side can be ignored, which changes no text, and taken all the same. */
  lemma {:induction false} IgnoresSide(e: Editor, lines: Lines, pre: seq<string>, post: seq<string>, side: Side)
    requires EditorOk(e, lines, pre, post) && e.change.status.At(side) == Open
    ensures Offered(e, Ignore(side)) && InText(e.text, e.change)
    ensures var r := Clicked(e, lines, Ignore(side));
      r.text == e.text && r.change.status == e.change.status.With(side, Ignored)
      && (e.change.status.At(Other(side)) != Applied ==> Offered(r, Apply(side)))
  {
    OkInText(e, lines, pre, post);
  }
}
