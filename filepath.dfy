/**
 * The few path operations of Go's path/filepath and strings that the supervisor uses,
 * with '/' as the separator. Lexical cleaning (Clean) is not modelled.
 */
module FilePath {
  const Separator: char := '/'
  const Backslash: char := '\\'

  /** filepath.Join: the non-empty elements, one separator between neighbours. */
  function Join(elems: seq<string>): (p: string)
    ensures p == "" <==> forall i :: 0 <= i < |elems| ==> elems[i] == ""
  {
    if elems == [] then ""
    else
      var init := Join(elems[..|elems| - 1]);
      var last := elems[|elems| - 1];
      if last == "" then init else if init == "" then last else init + [Separator] + last
  }

  /** Appending a non-empty element adds one separator and the element. */
  lemma JoinSnoc(elems: seq<string>, x: string)
    requires x != ""
    ensures Join(elems + [x]) == if Join(elems) == "" then x else Join(elems) + [Separator] + x
  {
    assert (elems + [x])[..|elems|] == elems;
  }

  /** Joining non-empty elements writes each of them, separated by one separator. */
  lemma JoinTwo(a: string, b: string)
    requires a != "" && b != ""
    ensures Join([a, b]) == a + [Separator] + b
  {
    assert [a, b][..1] == [a];
    assert [a][..0] == [];
    assert Join([a]) == a;
  }

  lemma JoinThree(a: string, b: string, c: string)
    requires a != "" && b != "" && c != ""
    ensures Join([a, b, c]) == a + [Separator] + b + [Separator] + c
  {
    JoinTwo(a, b);
    assert [a, b, c] == [a, b] + [c];
    JoinSnoc([a, b], c);
  }

  /** Every character of every element survives into the joined path. */
  lemma {:induction false} JoinKeepsChars(elems: seq<string>, k: int, c: char)
    requires 0 <= k < |elems| && c in elems[k]
    ensures c in Join(elems)
    decreases |elems|
  {
    var init := elems[..|elems| - 1];
    if k < |elems| - 1 {
      assert init[k] == elems[k];
      JoinKeepsChars(init, k, c);
    }
  }

  /** The index of the last separator in p, or -1 when there is none. */
  function LastSeparator(p: string): (k: int)
    ensures -1 <= k < |p|
    ensures 0 <= k ==> p[k] == Separator
    ensures forall j :: k < j < |p| ==> p[j] != Separator
  {
    if p == [] then -1
    else if p[|p| - 1] == Separator then |p| - 1
    else LastSeparator(p[..|p| - 1])
  }

  /** filepath.Dir: all but the last element; "." when p has no separator, "/" when only the root precedes it. */
  function Dir(p: string): (d: string)
    ensures d != ""
    ensures Separator !in p ==> d == "."
    ensures 0 < LastSeparator(p) ==> |d| < |p| && p == d + [Separator] + p[|d| + 1..] && Separator !in p[|d| + 1..]
  {
    var k := LastSeparator(p);
    if k < 0 then "." else if k == 0 then [Separator] else p[..k]
  }

  /** strings.ReplaceAll(s, "/", "\\"): every separator becomes a backslash. */
  function ToBackslashes(s: string): (r: string)
    ensures |r| == |s|
    ensures forall i :: 0 <= i < |s| ==> r[i] == if s[i] == Separator then Backslash else s[i]
    ensures Separator !in r
  {
    if s == [] then []
    else ToBackslashes(s[..|s| - 1]) + [if s[|s| - 1] == Separator then Backslash else s[|s| - 1]]
  }

  /** ToBackslashes works character by character, so it distributes over concatenation. */
  lemma ToBackslashesConcat(a: string, b: string)
    ensures ToBackslashes(a + b) == ToBackslashes(a) + ToBackslashes(b)
  {
    var l, r := ToBackslashes(a + b), ToBackslashes(a) + ToBackslashes(b);
    assert |l| == |r|;
    forall i | 0 <= i < |l| ensures l[i] == r[i] {
      if i < |a| { assert (a + b)[i] == a[i]; } else { assert (a + b)[i] == b[i - |a|]; }
    }
  }

  /** A string without separators is left as it is. */
  lemma ToBackslashesNoSeparator(s: string)
    requires Separator !in s
    ensures ToBackslashes(s) == s
  {
    var r := ToBackslashes(s);
    assert forall i :: 0 <= i < |s| ==> r[i] == s[i];
  }

  /** Appending a separator and a separator-free element appends a backslash and the element. */
  lemma ToBackslashesStep(a: string, b: string)
    requires Separator !in b
    ensures ToBackslashes(a + [Separator] + b) == ToBackslashes(a) + [Backslash] + b
  {
    ToBackslashesConcat(a + [Separator], b);
    ToBackslashesConcat(a, [Separator]);
    assert ToBackslashes([Separator]) == [Backslash];
    ToBackslashesNoSeparator(b);
  }
}
