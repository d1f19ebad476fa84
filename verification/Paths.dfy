/** Vault paths, split at every slash. */
module Paths {
  /** A path's folders, outermost first, and its name. */
  ghost function Segments(path: string): (segments: seq<string>)
    ensures segments != []
  {
    if path == "" then [""]
    else
      var rest := Segments(path[1..]);
      if path[0] == '/' then [""] + rest else [[path[0]] + rest[0]] + rest[1..]
  }

  ghost function Joined(segments: seq<string>): string
  {
    if segments == [] then ""
    else if |segments| == 1 then segments[0]
    else segments[0] + "/" + Joined(segments[1..])
  }

  ghost predicate NoSlashes(segments: seq<string>) { forall i :: 0 <= i < |segments| ==> '/' !in segments[i] }

  /** The segments are the path's, and none has a slash in it. */
  lemma {:induction false} JoinedSegments(path: string)
    ensures Joined(Segments(path)) == path && NoSlashes(Segments(path))
  {
    if path != "" {
      JoinedSegments(path[1..]);
      var rest, all := Segments(path[1..]), Segments(path);
      if path[0] == '/' {
        assert all[1..] == rest;
      } else {
        assert all[1..] == rest[1..] && forall i :: 0 < i < |all| ==> all[i] == rest[i];
      }
    }
  }

  /** No other list of such segments makes the path. */
  lemma {:induction false} SegmentsJoined(segments: seq<string>)
    requires segments != [] && NoSlashes(segments)
    ensures Segments(Joined(segments)) == segments
    decreases |segments|, |segments[0]|
  {
    if segments[0] != "" {
      var c, shorter := segments[0][0], [segments[0][1..]] + segments[1..];
      LetterFirst(segments, c, shorter);
      SegmentsJoined(shorter);
    } else if |segments| > 1 {
      SegmentsJoined(segments[1..]);
      assert Joined(segments) == "/" + Joined(segments[1..]);
      assert Joined(segments)[1..] == Joined(segments[1..]);
      assert [""] + segments[1..] == segments;
    } else {
      assert segments == [""];
    }
  }

  lemma {:induction false} LetterFirst(segments: seq<string>, c: char, shorter: seq<string>)
    requires segments != [] && NoSlashes(segments) && segments[0] != "" && c == segments[0][0]
    requires shorter == [segments[0][1..]] + segments[1..]
    ensures NoSlashes(shorter) && c != '/' && Joined(segments) == [c] + Joined(shorter) && Joined(segments)[1..] == Joined(shorter)
    ensures segments == [[c] + shorter[0]] + shorter[1..]
  {
    var first, rest := segments[0], segments[1..];
    assert c in first && forall x :: x in shorter[0] ==> x in first;
    assert shorter[1..] == rest && first == [c] + shorter[0];
    forall i | 0 < i < |shorter| ensures '/' !in shorter[i] { assert shorter[i] == segments[i]; }
    if rest != [] {
      assert Joined(segments) == first + "/" + Joined(rest) && Joined(shorter) == shorter[0] + "/" + Joined(rest);
    }
  }

  /** At the root or anywhere below it; everything is inside the vault's own, the empty one. */
  ghost predicate Inside(path: string, root: string) { root == "" || Segments(root) <= Segments(path) }

  lemma {:induction false} SegmentsBelow(root: string, rest: string)
    ensures Segments(root + "/" + rest) == Segments(root) + Segments(rest)
  {
    var path := root + "/" + rest;
    if root == "" {
      assert path[0] == '/' && path[1..] == rest;
    } else {
      assert path[0] == root[0] && path[1..] == root[1..] + "/" + rest;
      SegmentsBelow(root[1..], rest);
    }
  }

  lemma {:induction false} JoinedBelow(a: seq<string>, b: seq<string>)
    requires a != [] && b != []
    ensures Joined(a + b) == Joined(a) + "/" + Joined(b)
  {
    if |a| == 1 {
      assert (a + b)[1..] == b;
    } else {
      JoinedBelow(a[1..], b);
      assert (a + b)[1..] == a[1..] + b;
    }
  }

  /** A path inside a root is the root, or the root, a slash and more. */
  lemma {:induction false} InsideIs(path: string, root: string)
    requires root != ""
    ensures Inside(path, root) <==> path == root || root + "/" <= path
  {
    var a, b := Segments(root), Segments(path);
    if root + "/" <= path {
      var rest := path[|root| + 1..];
      assert path == root + "/" + rest;
      SegmentsBelow(root, rest);
    }
    if a <= b {
      var more := b[|a|..];
      assert b == a + more;
      JoinedSegments(root);
      JoinedSegments(path);
      if more != [] { JoinedBelow(a, more); } else { assert b == a; }
    }
  }

  /** Two folders above one path: one is inside the other, the one with fewer letters the outer one. */
  lemma {:induction false} AboveOne(path: string, a: string, b: string)
    requires Inside(path, a) && Inside(path, b) && |a| <= |b|
    ensures Inside(b, a)
  {
    if a != "" && b != "" {
      var s, t, all := Segments(a), Segments(b), Segments(path);
      if |s| <= |t| {
        assert s == all[..|s|] && t == all[..|t|];
      } else {
        assert t == all[..|t|] && s == all[..|s|] && t == s[..|t|];
        InsideIs(a, b);
      }
    }
  }

  /** Some folder on the way, or the name itself, starts with a dot. */
  ghost predicate Hidden(path: string)
  {
    exists i :: 0 <= i < |Segments(path)| && StartsWithDot(Segments(path)[i])
  }

  predicate StartsWithDot(segment: string) { segment != "" && segment[0] == '.' }

  lemma {:induction false} FirstSegment(path: string)
    ensures StartsWithDot(Segments(path)[0]) <==> StartsWithDot(path)
  {
  }

  ghost predicate DotBelow(path: string) { exists i :: 0 <= i < |path| - 1 && path[i] == '/' && path[i + 1] == '.' }

  ghost predicate HiddenBelow(segments: seq<string>) { exists i :: 0 < i < |segments| && StartsWithDot(segments[i]) }

  /** Below the first folder, what starts with a dot follows a slash. */
  lemma {:induction false} DotsBelow(path: string)
    ensures DotBelow(path) <==> HiddenBelow(Segments(path))
  {
    if path != "" {
      var rest, segments := path[1..], Segments(path);
      DotsBelow(rest);
      FirstSegment(rest);
      if path[0] == '/' { AfterSlash(path); } else { AfterLetter(path); }
    }
  }

  lemma {:induction false} AfterSlash(path: string)
    requires path != "" && path[0] == '/'
    ensures DotBelow(path) <==> StartsWithDot(path[1..]) || DotBelow(path[1..])
    ensures HiddenBelow(Segments(path)) <==> StartsWithDot(Segments(path[1..])[0]) || HiddenBelow(Segments(path[1..]))
  {
    var rest, all, below := path[1..], Segments(path), Segments(path[1..]);
    assert forall i :: 0 < i < |all| ==> all[i] == below[i - 1];
    if DotBelow(rest) { var i :| 0 <= i < |rest| - 1 && rest[i] == '/' && rest[i + 1] == '.'; assert path[i + 1] == '/' && path[i + 2] == '.'; }
    if DotBelow(path) { var i :| 0 <= i < |path| - 1 && path[i] == '/' && path[i + 1] == '.'; if i > 0 { assert rest[i - 1] == '/' && rest[i] == '.'; } }
    if HiddenBelow(below) { var i :| 0 < i < |below| && StartsWithDot(below[i]); assert all[i + 1] == below[i]; }
    if StartsWithDot(below[0]) { assert all[1] == below[0]; }
    if StartsWithDot(rest) { assert path[0] == '/' && path[0 + 1] == '.'; }
  }

  lemma {:induction false} AfterLetter(path: string)
    requires path != "" && path[0] != '/'
    ensures DotBelow(path) <==> DotBelow(path[1..])
    ensures HiddenBelow(Segments(path)) <==> HiddenBelow(Segments(path[1..]))
  {
    var rest, all, below := path[1..], Segments(path), Segments(path[1..]);
    assert |all| == |below| && forall i :: 0 < i < |all| ==> all[i] == below[i];
    if DotBelow(rest) { var i :| 0 <= i < |rest| - 1 && rest[i] == '/' && rest[i + 1] == '.'; assert path[i + 1] == '/' && path[i + 2] == '.'; }
    if DotBelow(path) { var i :| 0 <= i < |path| - 1 && path[i] == '/' && path[i + 1] == '.'; assert rest[i - 1] == '/' && rest[i] == '.'; }
  }

  /** The last segment: the name of the file or folder itself. */
  ghost function LastOf(path: string): string { Segments(path)[|Segments(path)| - 1] }

  /** In whatever folder it is, a file has its name. */
  lemma {:induction false} LastBelow(folder: string, name: string)
    requires '/' !in name
    ensures LastOf(folder + "/" + name) == name && LastOf(name) == name
  {
    SegmentsJoined([name]);
    SegmentsBelow(folder, name);
  }
}
