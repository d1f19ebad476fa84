/** Texts and their lines: packages/plugin/src/utils/eol.ts and `toLines` of packages/plugin/src/sync/merge-model.ts. */
module Texts {
  import opened Common

  /** CRLF and a lone CR are line breaks too. */
  function ToLf(text: string): string
  {
    if text == "" then ""
    else if text[0] != '\r' then [text[0]] + ToLf(text[1..])
    else ['\n'] + ToLf(if |text| > 1 && text[1] == '\n' then text[2..] else text[1..])
  }

  lemma {:induction false} ToLfHasNoCr(text: string)
    ensures '\r' !in ToLf(text)
    decreases |text|
  {
    if text != "" {
      if text[0] != '\r' { ToLfHasNoCr(text[1..]); }
      else { ToLfHasNoCr(if |text| > 1 && text[1] == '\n' then text[2..] else text[1..]); }
    }
  }

  /** A text without CR is its own LF form, so normalising twice changes nothing. */
  lemma {:induction false} ToLfKeeps(text: string)
    requires '\r' !in text
    ensures ToLf(text) == text
  {
    if text != "" {
      assert text[0] in text && forall c :: c in text[1..] ==> c in text;
      ToLfKeeps(text[1..]);
    }
  }

  /** A line break, however it is written. */
  predicate IsBreak(s: string)
  {
    s == "\n" || s == "\r" || s == "\r\n"
  }

  lemma {:induction false} BreakFirst(lineBreak: string, rest: string)
    requires IsBreak(lineBreak) && (lineBreak == "\r" && rest != "" ==> rest[0] != '\n')
    ensures ToLf(lineBreak + rest) == "\n" + ToLf(rest)
  {
    var text := lineBreak + rest;
    if |lineBreak| == 2 { assert text[2..] == rest; } else { assert text[1..] == rest; }
  }

  lemma {:induction false} FirstKept(c: char, line: string, lineBreak: string, rest: string)
    requires c != '\r' && ToLf(line + lineBreak + rest) == line + "\n" + ToLf(rest)
    ensures ToLf([c] + line + lineBreak + rest) == [c] + line + "\n" + ToLf(rest)
  {
    var text := [c] + line + lineBreak + rest;
    assert text[1..] == line + lineBreak + rest;
    Regroup([c], line, "\n");
    Regroup([c], line + "\n", ToLf(rest));
  }

  lemma {:induction false} NoneBelow(x: char, line: string)
    requires x !in line && line != ""
    ensures line[0] != x && x !in line[1..] && [line[0]] + line[1..] == line
  {
    assert line[0] in line && forall c :: c in line[1..] ==> c in line;
  }

  /** Every line break becomes exactly one newline, and nothing else changes. */
  lemma {:induction false} ToLfBreak(line: string, lineBreak: string, rest: string)
    requires '\r' !in line && '\n' !in line && IsBreak(lineBreak)
    requires lineBreak == "\r" && rest != "" ==> rest[0] != '\n'
    ensures ToLf(line + lineBreak + rest) == line + "\n" + ToLf(rest)
  {
    if line == "" {
      assert line + lineBreak + rest == lineBreak + rest;
      BreakFirst(lineBreak, rest);
    } else {
      NoneBelow('\r', line);
      NoneBelow('\n', line);
      ToLfBreak(line[1..], lineBreak, rest);
      FirstKept(line[0], line[1..], lineBreak, rest);
    }
  }

  function Split(text: string): (lines: seq<string>)
    ensures |lines| > 0
  {
    if text == "" then [""]
    else
      var rest := Split(text[1..]);
      if text[0] == '\n' then [""] + rest else [[text[0]] + rest[0]] + rest[1..]
  }

  function Join(lines: seq<string>): string
  {
    if lines == [] then ""
    else if |lines| == 1 then lines[0]
    else lines[0] + "\n" + Join(lines[1..])
  }

  function ToLines(text: string): (lines: seq<string>)
    ensures |lines| > 0
  {
    Split(ToLf(text))
  }

  ghost predicate NoBreaks(lines: seq<string>)
  {
    forall i :: 0 <= i < |lines| ==> '\n' !in lines[i]
  }

  lemma {:induction false} JoinSplit(text: string)
    ensures Join(Split(text)) == text && NoBreaks(Split(text))
  {
    if text != "" {
      JoinSplit(text[1..]);
      var rest, lines := Split(text[1..]), Split(text);
      if text[0] == '\n' {
        assert lines[1..] == rest;
      } else {
        assert lines[1..] == rest[1..] && forall i :: 0 < i < |lines| ==> lines[i] == rest[i];
      }
    }
  }

  lemma {:induction false} LetterJoined(lines: seq<string>, c: char, shorter: seq<string>)
    requires lines != [] && lines[0] != "" && c == lines[0][0] && shorter == [lines[0][1..]] + lines[1..]
    ensures Join(lines) == [c] + Join(shorter) && Join(lines)[1..] == Join(shorter) && [[c] + shorter[0]] + shorter[1..] == lines
  {
    assert shorter[1..] == lines[1..] && lines[0] == [c] + shorter[0];
  }

  lemma {:induction false} SplitJoin(lines: seq<string>)
    requires |lines| > 0 && NoBreaks(lines)
    ensures Split(Join(lines)) == lines
    decreases |lines|, if |lines| > 0 then |lines[0]| else 0
  {
    if lines[0] != "" {
      var c, shorter := lines[0][0], [lines[0][1..]] + lines[1..];
      NoneBelow('\n', lines[0]);
      LetterJoined(lines, c, shorter);
      SplitJoin(shorter);
    } else if |lines| > 1 {
      SplitJoin(lines[1..]);
      assert Join(lines) == "\n" + Join(lines[1..]);
      assert Join(lines)[1..] == Join(lines[1..]);
      assert [""] + lines[1..] == lines;
    } else {
      assert lines == [""];
    }
  }

  /** A text's lines are the pieces between its line breaks. */
  lemma {:induction false} LinesBreak(line: string, lineBreak: string, rest: string)
    requires '\r' !in line && '\n' !in line && IsBreak(lineBreak)
    requires lineBreak == "\r" && rest != "" ==> rest[0] != '\n'
    ensures ToLines(line + lineBreak + rest) == [line] + ToLines(rest) && ToLines(line) == [line]
  {
    ToLfBreak(line, lineBreak, rest);
    ToLfKeeps(line);
    SplitBreak(line, ToLf(rest));
  }

  lemma {:induction false} SplitBreak(line: string, rest: string)
    requires '\n' !in line
    ensures Split(line + "\n" + rest) == [line] + Split(rest) && Split(line) == [line]
  {
    if line == "" {
      assert line + "\n" + rest == "\n" + rest && ("\n" + rest)[1..] == rest;
    } else {
      assert line[0] in line && forall c :: c in line[1..] ==> c in line;
      SplitBreak(line[1..], rest);
      assert (line + "\n" + rest)[1..] == line[1..] + "\n" + rest && line == [line[0]] + line[1..];
    }
  }

  /** The items of `a` are among those of `b`, in the same order. */
  ghost predicate IsSub<T>(a: seq<T>, b: seq<T>)
  {
    if a == [] then true
    else b != [] && if a[0] == b[0] then IsSub(a[1..], b[1..]) || IsSub(a, b[1..]) else IsSub(a, b[1..])
  }

  lemma {:induction false} SubMore<T>(a: seq<T>, x: seq<T>, b: seq<T>)
    requires IsSub(a, b)
    ensures IsSub(a, x + b)
  {
    if x != [] {
      SubMore(a, x[1..], b);
      assert (x + b)[1..] == x[1..] + b;
    } else {
      assert x + b == b;
    }
  }

  lemma {:induction false} SubConcat<T>(a: seq<T>, b: seq<T>, c: seq<T>, d: seq<T>)
    requires IsSub(a, b) && IsSub(c, d)
    ensures IsSub(a + c, b + d)
    decreases |b|
  {
    if a == [] {
      assert a + c == c;
      SubMore(c, b, d);
    } else {
      assert (a + c)[1..] == a[1..] + c && (b + d)[1..] == b[1..] + d;
      if a[0] == b[0] && IsSub(a[1..], b[1..]) { SubConcat(a[1..], b[1..], c, d); } else { SubConcat(a, b[1..], c, d); }
    }
  }

  lemma {:induction false} SubSelf<T>(a: seq<T>)
    ensures IsSub(a, a)
  {
    if a != [] { SubSelf(a[1..]); }
  }

  lemma {:induction false} SubNone<T>(a: seq<T>)
    ensures IsSub([], a)
  {
  }

  /** The text cut after each newline; only the last token may lack one, and it is not empty. */
  function LineTokens(text: string): seq<string>
  {
    if text == "" then []
    else
      var rest := LineTokens(text[1..]);
      if text[0] == '\n' || rest == [] then [[text[0]]] + rest else [[text[0]] + rest[0]] + rest[1..]
  }

  /** Each token is one line: its only newline ends it, and but for the last it has one. */
  ghost predicate IsToken(tokens: seq<string>, i: nat)
    requires i < |tokens|
  {
    var t := tokens[i];
    t != "" && '\n' !in t[..|t| - 1] && (i < |tokens| - 1 ==> t[|t| - 1] == '\n')
  }

  lemma {:induction false} TokensAreLines(text: string)
    ensures forall i :: 0 <= i < |LineTokens(text)| ==> IsToken(LineTokens(text), i)
  {
    if text != "" {
      var rest, tokens := LineTokens(text[1..]), LineTokens(text);
      TokensAreLines(text[1..]);
      if text[0] == '\n' || rest == [] {
        forall i | 0 <= i < |tokens| ensures IsToken(tokens, i) { if i > 0 { assert tokens[i] == rest[i - 1] && IsToken(rest, i - 1); } }
      } else {
        forall i | 0 <= i < |tokens| ensures IsToken(tokens, i) { LongerToken(text[0], rest, i); }
      }
    }
  }

  lemma {:induction false} LongerToken(c: char, rest: seq<string>, i: nat)
    requires i < |rest| && IsToken(rest, i) && c != '\n'
    ensures var tokens := [[c] + rest[0]] + rest[1..]; IsToken(tokens, i)
  {
    var tokens := [[c] + rest[0]] + rest[1..];
    if i == 0 {
      var t := rest[0];
      assert ([c] + t)[..|t|] == [c] + t[..|t| - 1];
    } else {
      assert tokens[i] == rest[i];
    }
  }

  function Concat(tokens: seq<string>): string
  {
    if tokens == [] then "" else tokens[0] + Concat(tokens[1..])
  }

  lemma {:induction false} ConcatTokens(text: string)
    ensures Concat(LineTokens(text)) == text
  {
    if text != "" {
      ConcatTokens(text[1..]);
      var rest, tokens := LineTokens(text[1..]), LineTokens(text);
      if text[0] == '\n' || rest == [] { assert tokens[1..] == rest; } else { assert tokens[1..] == rest[1..]; }
    }
  }

  lemma {:induction false} ConcatAppend(a: seq<string>, b: seq<string>)
    ensures Concat(a + b) == Concat(a) + Concat(b)
  {
    if a == [] {
      assert a + b == b;
    } else {
      ConcatAppend(a[1..], b);
      ConcatStep(a, b);
      assert a[0] + (Concat(a[1..]) + Concat(b)) == (a[0] + Concat(a[1..])) + Concat(b);
    }
  }

  lemma {:induction false} ConcatStep(a: seq<string>, b: seq<string>)
    requires a != []
    ensures Concat(a + b) == a[0] + Concat(a[1..] + b) && Concat(a) == a[0] + Concat(a[1..])
  {
    assert (a + b)[1..] == a[1..] + b && (a + b)[0] == a[0];
  }
}
