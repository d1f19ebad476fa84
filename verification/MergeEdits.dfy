/**
 * The merge editor's spans and edits: `snapToLines`, `replaceLines`, `applyPlan` and `revertPlan` of
 * packages/plugin/src/sync/merge-model.ts, on a text seen as its lines.
 */
module MergeEdits {
  import opened Common
  import opened Texts

  /** A half-open span of characters. */
  datatype Span = Span(from: nat, upto: nat)

  /** Characters the lines take, a newline after each counted. */
  function Len(lines: seq<string>): nat
  {
    if lines == [] then 0 else |lines[0]| + 1 + Len(lines[1..])
  }

  /** The lines, a newline after each. */
  function Ended(lines: seq<string>): (s: string)
    ensures |s| == Len(lines)
    ensures lines != [] ==> |s| > 0 && s[|s| - 1] == '\n'
  {
    if lines == [] then "" else lines[0] + "\n" + Ended(lines[1..])
  }

  lemma {:induction false} EndedConcat(a: seq<string>, b: seq<string>)
    ensures Ended(a + b) == Ended(a) + Ended(b) && Len(a + b) == Len(a) + Len(b)
  {
    if a == [] {
      assert a + b == b;
    } else {
      EndedConcat(a[1..], b);
      EndedStep(a, b);
    }
  }

  lemma {:induction false} EndedStep(a: seq<string>, b: seq<string>)
    requires a != []
    ensures Ended(a + b) == a[0] + "\n" + Ended(a[1..] + b) && Len(a + b) == |a[0]| + 1 + Len(a[1..] + b)
  {
    assert (a + b)[1..] == a[1..] + b && (a + b)[0] == a[0];
  }

  lemma {:induction false} EndedJoin(a: seq<string>)
    requires a != []
    ensures Ended(a) == Join(a) + "\n"
  {
    if |a| > 1 { EndedJoin(a[1..]); }
  }

  lemma {:induction false} JoinConcat(a: seq<string>, b: seq<string>)
    requires b != []
    ensures Join(a + b) == Ended(a) + Join(b)
  {
    if a == [] {
      assert a + b == b;
    } else {
      JoinConcat(a[1..], b);
      JoinStep(a, b);
      Regroup(a[0] + "\n", Ended(a[1..]), Join(b));
    }
  }

  lemma {:induction false} JoinStep(a: seq<string>, b: seq<string>)
    requires a != [] && b != []
    ensures Join(a + b) == (a[0] + "\n") + Join(a[1..] + b) && Ended(a) == (a[0] + "\n") + Ended(a[1..])
  {
    assert (a + b)[1..] == a[1..] + b && (a + b)[0] == a[0];
  }

  /** Where the lines `mid` sit in the text of pre + mid + post. */
  function SpanOf(pre: seq<string>, mid: seq<string>, post: seq<string>): (r: Span)
    ensures r.from <= r.upto <= |Join(pre + mid + post)|
  {
    var n := |Join(pre + mid + post)|;
    Span(Min(Len(pre), n), Min(Len(pre) + Len(mid), n))
  }

  /** Start of the line `pos` is on. */
  function LineFrom(text: string, pos: nat): (r: nat)
    requires pos <= |text|
    ensures r <= pos && (r == 0 || text[r - 1] == '\n') && forall i :: r <= i < pos ==> text[i] != '\n'
  {
    if pos == 0 || text[pos - 1] == '\n' then pos else LineFrom(text, pos - 1)
  }

  /** End of the line `pos` is on, before its newline. */
  function LineTo(text: string, pos: nat): (r: nat)
    requires pos <= |text|
    ensures pos <= r <= |text| && (r == |text| || text[r] == '\n') && forall i :: pos <= i < r ==> text[i] != '\n'
    decreases |text| - pos
  {
    if pos == |text| || text[pos] == '\n' then pos else LineTo(text, pos + 1)
  }

  /** Rounds a span to lines: a span with characters down and up, an empty one in mid-line to the next line. */
  function SnapToLines(text: string, span: Span): (r: Span)
    requires span.from <= |text| && span.upto <= |text|
    ensures r.from <= r.upto <= |text|
  {
    if span.upto <= span.from then
      var at := if span.from == LineFrom(text, span.from) || span.from == |text| then span.from
                else Min(LineTo(text, span.from) + 1, |text|);
      Span(at, at)
    else
      Span(LineFrom(text, span.from),
        if LineFrom(text, span.upto) == span.upto then span.upto else Min(LineTo(text, span.upto) + 1, |text|))
  }

  datatype LineEdit = LineEdit(from: nat, upto: nat, insert: string, result: Span)

  function ReplaceLines(text: string, target: Span, lines: seq<string>, endsAtEof: bool, afterLastLine: bool): (r: LineEdit)
    requires target.from <= target.upto <= |text|
    ensures r.from <= r.upto == target.upto
  {
    var atEnd := endsAtEof && target.upto == |text|;
    if lines == [] then
      var from := if atEnd && target.from > 0 && (target.from < target.upto || LineFrom(text, target.from) == target.from)
                  then target.from - 1 else target.from;
      LineEdit(from, target.upto, "", Span(from, from))
    else
      var prefix := if target.from == target.upto && ((atEnd && afterLastLine) || LineFrom(text, target.from) != target.from)
                    then "\n" else "";
      var insert := prefix + Join(lines) + if atEnd then "" else "\n";
      LineEdit(target.from, target.upto, insert, Span(target.from + |prefix|, target.from + |insert|))
  }

  function Spliced(text: string, from: nat, upto: nat, insert: string): string
    requires from <= upto <= |text|
  {
    text[..from] + insert + text[upto..]
  }

  /** The text around the lines `mid`, when lines follow them. */
  lemma {:induction false} TextBefore(pre: seq<string>, mid: seq<string>, post: seq<string>)
    requires post != []
    ensures Join(pre + mid + post) == Ended(pre) + Ended(mid) + Join(post)
    ensures SpanOf(pre, mid, post) == Span(Len(pre), Len(pre) + Len(mid))
  {
    JoinConcat(pre + mid, post);
    EndedConcat(pre, mid);
  }

  /** The text around the lines `mid` at the end of the file. */
  lemma {:induction false} TextAtEnd(pre: seq<string>, mid: seq<string>)
    ensures mid != [] ==> Join(pre + mid + []) == Ended(pre) + Join(mid) && SpanOf(pre, mid, []) == Span(Len(pre), Len(pre) + |Join(mid)|)
    ensures mid == [] && pre != [] ==>
      Join(pre + mid + []) + "\n" == Ended(pre) && SpanOf(pre, mid, []) == Span(Len(pre) - 1, Len(pre) - 1)
    ensures mid == [] && pre == [] ==> Join(pre + mid + []) == "" && SpanOf(pre, mid, []) == Span(0, 0)
  {
    assert pre + mid + [] == pre + mid;
    if mid != [] {
      JoinConcat(pre, mid);
      EndedJoin(mid);
    } else if pre != [] {
      EndedJoin(pre);
      assert pre + mid == pre;
    } else {
      assert pre + mid == [];
    }
  }

  /** The span holds exactly the lines, with a newline after the last unless they end the file. */
  lemma {:induction false} SpanCovers(pre: seq<string>, mid: seq<string>, post: seq<string>)
    ensures var text, span := Join(pre + mid + post), SpanOf(pre, mid, post);
      text[span.from..span.upto] == if post != [] then Ended(mid) else Join(mid)
  {
    if post != [] { TextBefore(pre, mid, post); } else { TextAtEnd(pre, mid); }
  }

  /** A position right after a newline starts its line. */
  lemma {:induction false} LineStarts(text: string, pos: nat)
    requires pos <= |text| && (pos == 0 || text[pos - 1] == '\n')
    ensures LineFrom(text, pos) == pos
  {
  }

  /** The span of whole lines is where it snaps to. */
  lemma {:induction false} SnapKeeps(pre: seq<string>, mid: seq<string>, post: seq<string>)
    ensures var text, span := Join(pre + mid + post), SpanOf(pre, mid, post); SnapToLines(text, span) == span
  {
    var text, span := Join(pre + mid + post), SpanOf(pre, mid, post);
    if post != [] {
      TextBefore(pre, mid, post);
      assert text[..Len(pre)] == Ended(pre) && text[..Len(pre) + Len(mid)] == Ended(pre) + Ended(mid);
      LineStarts(text, span.from);
      LineStarts(text, span.upto);
    } else {
      TextAtEnd(pre, mid);
      if mid != [] {
        assert text[..Len(pre)] == Ended(pre);
        LineStarts(text, span.from);
      }
    }
  }

  lemma {:induction false} SpliceBetween(a: string, b: string, c: string, insert: string)
    ensures Spliced(a + b + c, |a|, |a| + |b|, insert) == a + insert + c
  {
  }

  ghost predicate AtLineStart(a: string)
  {
    a == "" || a[|a| - 1] == '\n'
  }

  /** Whole lines replaced with more text after them. */
  lemma {:induction false} ReplaceMiddle(a: string, b: string, c: string, lines: seq<string>, afterLastLine: bool)
    requires AtLineStart(a)
    ensures var edit := ReplaceLines(a + b + c, Span(|a|, |a| + |b|), lines, false, afterLastLine);
      && edit.from == |a| && edit.upto == |a| + |b| && edit.insert == Ended(lines)
      && edit.result == Span(|a|, |a| + Len(lines))
  {
    LineStarts(a + b + c, |a|);
    if lines != [] {
      EndedJoin(lines);
      assert "" + Join(lines) + "\n" == Ended(lines);
    }
  }

  /** The last lines replaced by other lines. */
  lemma {:induction false} ReplaceTail(a: string, b: string, lines: seq<string>)
    requires AtLineStart(a) && lines != []
    ensures var edit := ReplaceLines(a + b, Span(|a|, |a| + |b|), lines, true, false);
      && edit.from == |a| && edit.upto == |a| + |b| && edit.insert == Join(lines)
      && edit.result == Span(|a|, |a| + |Join(lines)|)
  {
    LineStarts(a + b, |a|);
    assert "" + Join(lines) + "" == Join(lines);
  }

  /** The last lines removed, with the newline before them. */
  lemma {:induction false} RemoveTail(a: string, b: string)
    requires AtLineStart(a) && a != ""
    ensures var edit := ReplaceLines(a + b, Span(|a|, |a| + |b|), [], true, false);
      && edit.from == |a| - 1 && edit.upto == |a| + |b| && edit.insert == "" && edit.result == Span(|a| - 1, |a| - 1)
  {
    LineStarts(a + b, |a|);
  }

  /** Lines added after a last line without a newline. */
  lemma {:induction false} AddTail(a: string, lines: seq<string>)
    requires lines != []
    ensures var edit := ReplaceLines(a, Span(|a|, |a|), lines, true, true);
      && edit.from == |a| && edit.upto == |a| && edit.insert == "\n" + Join(lines)
      && edit.result == Span(|a| + 1, |a| + 1 + |Join(lines)|)
  {
    assert "\n" + Join(lines) + "" == "\n" + Join(lines);
  }

  /** Replacing the lines `mid` splices in the new lines, and the result's span is where they sit. */
  ghost predicate Splices(pre: seq<string>, mid: seq<string>, post: seq<string>, lines: seq<string>, edit: LineEdit)
  {
    var text := Join(pre + mid + post);
    && edit.from <= edit.upto <= |text|
    && Spliced(text, edit.from, edit.upto, edit.insert) == Join(pre + lines + post)
    && edit.result == SpanOf(pre, lines, post)
  }

  lemma {:induction false} ReplaceSplices(pre: seq<string>, mid: seq<string>, post: seq<string>, lines: seq<string>)
    requires mid != [] || lines != []
    requires mid == [] ==> pre + post != []
    ensures Splices(pre, mid, post, lines, ReplaceLines(Join(pre + mid + post), SpanOf(pre, mid, post), lines, post == [], mid == []))
  {
    if post != [] {
      ReplaceBefore(pre, mid, post, lines);
    } else if mid != [] {
      ReplaceAtEnd(pre, mid, lines);
    } else {
      AddAtEnd(pre, lines);
    }
  }

  lemma {:induction false} ReplaceBefore(pre: seq<string>, mid: seq<string>, post: seq<string>, lines: seq<string>)
    requires post != []
    ensures Splices(pre, mid, post, lines, ReplaceLines(Join(pre + mid + post), SpanOf(pre, mid, post), lines, false, mid == []))
  {
    TextBefore(pre, mid, post);
    TextBefore(pre, lines, post);
    ReplacedBetween(Ended(pre), Ended(mid), Join(post), lines, mid == []);
  }

  lemma {:induction false} ReplacedBetween(a: string, b: string, c: string, lines: seq<string>, afterLastLine: bool)
    requires AtLineStart(a)
    ensures var edit := ReplaceLines(a + b + c, Span(|a|, |a| + |b|), lines, false, afterLastLine);
      && Spliced(a + b + c, edit.from, edit.upto, edit.insert) == a + Ended(lines) + c && edit.result == Span(|a|, |a| + Len(lines))
  {
    ReplaceMiddle(a, b, c, lines, afterLastLine);
    SpliceBetween(a, b, c, Ended(lines));
  }

  lemma {:induction false} ReplaceAtEnd(pre: seq<string>, mid: seq<string>, lines: seq<string>)
    requires mid != []
    ensures Splices(pre, mid, [], lines, ReplaceLines(Join(pre + mid + []), SpanOf(pre, mid, []), lines, true, false))
  {
    TextAtEnd(pre, mid);
    TextAtEnd(pre, lines);
    var a, b := Ended(pre), Join(mid);
    if lines != [] {
      ReplaceTail(a, b, lines);
      assert Spliced(a + b, |a|, |a| + |b|, Join(lines)) == a + Join(lines);
    } else if pre != [] {
      RemoveTail(a, b);
      assert Spliced(a + b, |a| - 1, |a| + |b|, "") == a[..|a| - 1];
    } else {
      assert a == "" && Spliced(a + b, 0, |b|, "") == "";
    }
  }

  lemma {:induction false} AddAtEnd(pre: seq<string>, lines: seq<string>)
    requires pre != [] && lines != []
    ensures Splices(pre, [], [], lines, ReplaceLines(Join(pre + [] + []), SpanOf(pre, [], []), lines, true, true))
  {
    TextAtEnd(pre, []);
    TextAtEnd(pre, lines);
    var a := Join(pre + [] + []);
    AddTail(a, lines);
    EndSpliced(a, "\n", Join(lines));
  }

  lemma {:induction false} EndSpliced(a: string, b: string, c: string)
    ensures Spliced(a, |a|, |a|, b + c) == (a + b) + c
  {
  }
}
