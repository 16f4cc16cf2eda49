/**
 * The chat demo's helper that prints a state path: its segments joined by
 * dots.
 */
module ChatUtils {

  /** The segments of `path` with one "." between consecutive segments. */
  function Dotted(path: seq<string>): string
    decreases |path|
  {
    if |path| == 0 then ""
    else if |path| == 1 then path[0]
    else Dotted(path[..|path| - 1]) + "." + path[|path| - 1]
  }

  /** Builds the dotted path by appending each segment and, but after the last, a dot. */
  method PathToString(path: array<string>) returns (fullPath: string)
    ensures fullPath == Dotted(path[..])
    ensures path.Length == 0 ==> fullPath == ""
    ensures path.Length == 1 ==> fullPath == path[0]
  {
    fullPath := "";
    for i := 0 to path.Length
      invariant i == 0 ==> fullPath == ""
      invariant 0 < i < path.Length ==> fullPath == Dotted(path[..i]) + "."
      invariant 0 < i == path.Length ==> fullPath == Dotted(path[..i])
    {
      if i > 0 {
        DottedSnoc(path[..i], path[i]);
        assert path[..i + 1] == path[..i] + [path[i]];
      }
      fullPath := fullPath + path[i];
      if i != path.Length - 1 {
        fullPath := fullPath + ".";
      }
    }
    assert path[..path.Length] == path[..];
  }

  /** Appending a segment to a non-empty path appends a dot and the segment. */
  lemma DottedSnoc(path: seq<string>, segment: string)
    requires |path| >= 1
    ensures Dotted(path + [segment]) == Dotted(path) + "." + segment
  {
    assert (path + [segment])[..|path|] == path;
  }

  /** The same join read from the front: the first segment, a dot, the rest. */
  lemma {:induction false} DottedCons(path: seq<string>)
    requires |path| >= 2
    ensures Dotted(path) == path[0] + "." + Dotted(path[1..])
    decreases |path|
  {
    if |path| > 2 {
      var init := path[..|path| - 1];
      DottedCons(init);
      assert init[1..] == path[1..][..|path| - 2];
    } else {
      assert path[1..] == [path[1]];
    }
  }

  function TotalLength(path: seq<string>): nat {
    if |path| == 0 then 0 else TotalLength(path[..|path| - 1]) + |path[|path| - 1]|
  }

  /** n segments give their total length plus n - 1 dots. */
  lemma {:induction false} DottedLength(path: seq<string>)
    requires |path| >= 1
    ensures |Dotted(path)| == TotalLength(path) + |path| - 1
    decreases |path|
  {
    if |path| > 1 {
      DottedLength(path[..|path| - 1]);
    } else {
      assert path[..0] == [];
    }
  }

  /** The position of the first `c` in `s`. */
  function IndexOf(s: string, c: char): (i: nat)
    requires c in s
    ensures i < |s| && s[i] == c && c !in s[..i]
  {
    if s[0] == c then 0
    else
      assert c in s[1..];
      var j := IndexOf(s[1..], c);
      assert s[..j + 1] == [s[0]] + s[1..][..j];
      j + 1
  }

  /** `s.Split('.')`: the pieces between dots, in order. */
  function Split(s: string): seq<string>
    decreases |s|
  {
    if '.' in s then
      var i := IndexOf(s, '.');
      [s[..i]] + Split(s[i + 1..])
    else [s]
  }

  predicate Dotless(segment: string) {
    '.' !in segment
  }

  /** The first dot after a dotless segment is the one that follows it. */
  lemma FirstDotAfter(segment: string, rest: string)
    requires Dotless(segment)
    ensures var s := segment + "." + rest;
      '.' in s && IndexOf(s, '.') == |segment| && s[..|segment|] == segment && s[|segment| + 1..] == rest
  {
    var s := segment + "." + rest;
    assert s[|segment|] == '.';
  }

  /** Splitting a dotted path whose segments hold no dots gives back the segments. */
  lemma {:induction false} SplitDotted(path: seq<string>)
    requires |path| >= 1
    requires forall i :: 0 <= i < |path| ==> Dotless(path[i])
    ensures Split(Dotted(path)) == path
    decreases |path|
  {
    if |path| > 1 {
      DottedCons(path);
      var rest := Dotted(path[1..]);
      FirstDotAfter(path[0], rest);
      assert Split(path[0] + "." + rest) == [path[0]] + Split(rest);
      SplitDotted(path[1..]);
      assert path == [path[0]] + path[1..];
    }
  }
}
