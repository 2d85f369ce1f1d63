/** Python's `sep.join(parts)` and `s.split(c)` for a one-character separator. */
module Text {

  /** `sep.join(parts)`. */
  function Join(parts: seq<string>, sep: string): (r: string)
    ensures |parts| == 0 ==> r == ""
    ensures |parts| == 1 ==> r == parts[0]
  {
    if |parts| == 0 then ""
    else if |parts| == 1 then parts[0]
    else parts[0] + sep + Join(parts[1..], sep)
  }

  /**
   * Joining a list of two or more parts puts the separator after the first: a
   * proof step that unfolds `Join` once, for the lemmas below.
   */
  lemma JoinCons(parts: seq<string>, sep: string)
    requires 2 <= |parts|
    ensures Join(parts, sep) == parts[0] + sep + Join(parts[1..], sep)
  {
  }

  /** `s.split(c)`: the maximal pieces of `s` between occurrences of `c`, in order. */
  function Split(s: string, c: char): (r: seq<string>)
    ensures 1 <= |r|
    decreases |s|
  {
    if |s| == 0 then [""]
    else
      var rest := Split(s[1..], c);
      if s[0] == c then [""] + rest
      else [[s[0]] + rest[0]] + rest[1..]
  }

  /**
   * No piece of `s.split(c)` contains `c`, joining the pieces with `c` gives
   * `s` back, and there are two or more pieces exactly when `c` occurs in `s`.
   */
  lemma {:induction false} SplitProperties(s: string, c: char)
    ensures forall i :: 0 <= i < |Split(s, c)| ==> c !in Split(s, c)[i]
    ensures Join(Split(s, c), [c]) == s
    ensures 2 <= |Split(s, c)| <==> c in s
    decreases |s|
  {
    if |s| > 0 {
      var rest := Split(s[1..], c);
      SplitProperties(s[1..], c);
      assert s == [s[0]] + s[1..];
      if s[0] == c {
        var r := [""] + rest;
        assert Split(s, c) == r;
        assert r[1..] == rest;
        if 2 <= |r| {
          JoinCons(r, [c]);
        }
      } else {
        var r := [[s[0]] + rest[0]] + rest[1..];
        assert Split(s, c) == r;
        if 2 <= |r| {
          JoinCons(r, [c]);
        }
        if 2 <= |rest| {
          JoinCons(rest, [c]);
        }
        assert r[1..] == rest[1..];
        forall i | 0 <= i < |r| ensures c !in r[i] {
          if i > 0 {
            assert r[i] == rest[i];
          }
        }
      }
    }
  }

  /** Splitting a joined list gives the list back when no part holds the separator. */
  lemma {:induction false} SplitJoin(parts: seq<string>, c: char)
    requires 1 <= |parts|
    requires forall i :: 0 <= i < |parts| ==> c !in parts[i]
    ensures Split(Join(parts, [c]), c) == parts
    decreases |parts|, |parts[0]|
  {
    var p := parts[0];
    if |p| == 0 {
      if |parts| == 1 {
      } else {
        JoinCons(parts, [c]);
        var tail := Join(parts[1..], [c]);
        assert Join(parts, [c]) == [c] + tail;
        assert ([c] + tail)[1..] == tail;
        SplitJoin(parts[1..], c);
        assert parts == [""] + parts[1..];
      }
    } else {
      var s := Join(parts, [c]);
      var shorter := [p[1..]] + parts[1..];
      assert c !in p[1..];
      assert forall i :: 0 <= i < |shorter| ==> c !in shorter[i] by {
        forall i | 0 <= i < |shorter| ensures c !in shorter[i] {
          if i > 0 {
            assert shorter[i] == parts[i];
          }
        }
      }
      assert shorter[1..] == parts[1..];
      if |parts| == 1 {
        assert s == p;
      } else {
        JoinCons(parts, [c]);
        JoinCons(shorter, [c]);
      }
      assert s == [p[0]] + Join(shorter, [c]);
      assert s[1..] == Join(shorter, [c]);
      SplitJoin(shorter, c);
      assert p[0] != c by {
        assert p[0] in p;
      }
      assert p == [p[0]] + p[1..];
      assert parts == [[p[0]] + p[1..]] + parts[1..];
    }
  }

  /** The characters `str.strip()` removes here: the ASCII whitespace. */
  predicate IsSpace(c: char) {
    c == ' ' || c == '\t' || c == '\n' || c == '\r' || c == '\U{000B}' || c == '\U{000C}'
  }

  /** The end of the run of whitespace that starts at `i`. */
  function SpaceRunEnd(s: string, i: nat): (j: nat)
    requires i <= |s|
    ensures i <= j <= |s|
    ensures forall k :: i <= k < j ==> IsSpace(s[k])
    ensures j == |s| || !IsSpace(s[j])
    decreases |s| - i
  {
    if i < |s| && IsSpace(s[i]) then SpaceRunEnd(s, i + 1) else i
  }

  /** The start of the run of whitespace that ends at `j`, going back no further than `lo`. */
  function SpaceRunStart(s: string, lo: nat, j: nat): (i: nat)
    requires lo <= j <= |s|
    ensures lo <= i <= j
    ensures forall k :: i <= k < j ==> IsSpace(s[k])
    ensures i == lo || !IsSpace(s[i - 1])
    decreases j
  {
    if lo < j && IsSpace(s[j - 1]) then SpaceRunStart(s, lo, j - 1) else j
  }

  /** `s.strip()`: a slice of `s` that neither starts nor ends with whitespace, with only whitespace cut away. */
  function Strip(s: string): (r: string)
    ensures exists i, j :: && 0 <= i <= j <= |s|
                           && r == s[i..j]
                           && (forall k :: 0 <= k < i ==> IsSpace(s[k]))
                           && (forall k :: j <= k < |s| ==> IsSpace(s[k]))
    ensures r == [] || (!IsSpace(r[0]) && !IsSpace(r[|r| - 1]))
  {
    var i := SpaceRunEnd(s, 0);
    var j := SpaceRunStart(s, i, |s|);
    s[i..j]
  }
}
