/** String helpers used by the chat replies: Python's `"\n".join`, ASCII `str.lower` and
    substring membership (`w in s`). */
module Text {

  /** The sum of the lengths of all strings in `lines`. */
  ghost function TotalLength(lines: seq<string>): nat
  {
    if lines == [] then 0 else |lines[0]| + TotalLength(lines[1..])
  }

  /** `"\n".join(lines)`: the lines separated by one newline each, no trailing newline. */
  function JoinLines(lines: seq<string>): (r: string)
    ensures lines == [] ==> r == ""
    ensures lines != [] ==> |r| == TotalLength(lines) + |lines| - 1
    ensures lines != [] ==> lines[0] <= r
  {
    if lines == [] then ""
    else if |lines| == 1 then lines[0]
    else lines[0] + "\n" + JoinLines(lines[1..])
  }

  /** Joining is empty only for no lines or for a single empty line. */
  lemma JoinLinesEmpty(lines: seq<string>)
    ensures JoinLines(lines) == "" <==> lines == [] || (|lines| == 1 && lines[0] == "")
  {
    if |lines| >= 2 {
      assert |JoinLines(lines)| >= 1;
    }
  }

  /** Appending one more line to a non-empty list adds a newline and that line at the end. */
  lemma {:induction false} JoinLinesSnoc(lines: seq<string>, x: string)
    requires lines != []
    ensures JoinLines(lines + [x]) == JoinLines(lines) + "\n" + x
  {
    if |lines| == 1 {
      assert lines + [x] == [lines[0], x];
      assert [lines[0], x][1..] == [x];
    } else {
      assert (lines + [x])[1..] == lines[1..] + [x];
      JoinLinesSnoc(lines[1..], x);
    }
  }

  predicate IsUpper(c: char)
  {
    'A' <= c <= 'Z'
  }

  /** ASCII lower-casing of one character. */
  function LowerChar(c: char): (r: char)
    ensures !IsUpper(r)
    ensures !IsUpper(c) ==> r == c
    ensures IsUpper(c) ==> r as int - c as int == 'a' as int - 'A' as int
  {
    if IsUpper(c) then (c as int + ('a' as int - 'A' as int)) as char else c
  }

  /** `s.lower()`, restricted to ASCII letters. */
  function Lower(s: string): (r: string)
    ensures |r| == |s|
    ensures forall i :: 0 <= i < |r| ==> !IsUpper(r[i])
    ensures forall i :: 0 <= i < |s| && !IsUpper(s[i]) ==> r[i] == s[i]
  {
    seq(|s|, i requires 0 <= i < |s| => LowerChar(s[i]))
  }

  /** Lower-casing twice is lower-casing once. */
  lemma LowerIdempotent(s: string)
    ensures Lower(Lower(s)) == Lower(s)
  {
    assert forall i :: 0 <= i < |s| ==> Lower(Lower(s))[i] == Lower(s)[i];
  }

  /** `w` occurs in `s` starting at position `i`. */
  predicate OccursAt(s: string, w: string, i: int)
  {
    0 <= i <= |s| - |w| && s[i..i + |w|] == w
  }

  /** Python's `w in s` on strings: `w` occurs as a contiguous slice of `s`. */
  predicate Contains(s: string, w: string)
  {
    exists i | 0 <= i <= |s| - |w| :: OccursAt(s, w, i)
  }

  /** Lower-casing commutes with slicing: it works character by character. */
  lemma LowerSlice(s: string, i: nat, j: nat)
    requires i <= j <= |s|
    ensures Lower(s)[i..j] == Lower(s[i..j])
  {
    forall k | 0 <= k < j - i
      ensures Lower(s)[i..j][k] == Lower(s[i..j])[k]
    {
      assert Lower(s)[i..j][k] == Lower(s)[i + k];
    }
  }

  /** A keyword found in a text, in whatever letter case, is found in the lower-cased text
      when it is lower-cased too. */
  lemma ContainsLower(s: string, w: string)
    requires Contains(s, w)
    ensures Contains(Lower(s), Lower(w))
  {
    var i :| 0 <= i <= |s| - |w| && OccursAt(s, w, i);
    LowerSlice(s, i, i + |w|);
    assert OccursAt(Lower(s), Lower(w), i);
  }

  /** `w` occurs in `s` at position `i` when letter case is ignored. */
  predicate OccursAnyCaseAt(s: string, w: string, i: int)
  {
    0 <= i <= |s| - |w| && Lower(s[i..i + |w|]) == Lower(w)
  }

  /** `w` occurs in `s` as a contiguous slice, ignoring the case of ASCII letters. */
  predicate ContainsAnyCase(s: string, w: string)
  {
    exists i | 0 <= i <= |s| - |w| :: OccursAnyCaseAt(s, w, i)
  }

  /** Searching the lower-cased text for the lower-cased keyword is exactly a search that
      ignores letter case. */
  lemma ContainsLowerAnyCase(s: string, w: string)
    ensures Contains(Lower(s), Lower(w)) <==> ContainsAnyCase(s, w)
  {
    if Contains(Lower(s), Lower(w)) {
      var i :| 0 <= i <= |s| - |w| && OccursAt(Lower(s), Lower(w), i);
      LowerSlice(s, i, i + |w|);
      assert OccursAnyCaseAt(s, w, i);
    }
    if ContainsAnyCase(s, w) {
      var i :| 0 <= i <= |s| - |w| && OccursAnyCaseAt(s, w, i);
      LowerSlice(s, i, i + |w|);
      assert OccursAt(Lower(s), Lower(w), i);
    }
  }

  /** `s.split("\n")`: the pieces between newlines, one more piece than there are newlines. */
  function SplitLines(s: string): (r: seq<string>)
    ensures |r| >= 1
  {
    if s == [] then [""]
    else
      var rest := SplitLines(s[1..]);
      if s[0] == '\n' then [""] + rest else [[s[0]] + rest[0]] + rest[1..]
  }

  /** Splitting a newline-free prefix followed by anything: the prefix starts the first
      piece. */
  lemma {:induction false} SplitLinesPrefix(a: string, tail: string)
    requires '\n' !in a
    ensures SplitLines(a + tail) == [a + SplitLines(tail)[0]] + SplitLines(tail)[1..]
  {
    if a != [] {
      assert (a + tail)[1..] == a[1..] + tail;
      SplitLinesPrefix(a[1..], tail);
      assert [a[0]] + (a[1..] + SplitLines(tail)[0]) == a + SplitLines(tail)[0];
    } else {
      var pieces := SplitLines(tail);
      assert a + tail == tail;
      assert a + pieces[0] == pieces[0];
      assert pieces == [pieces[0]] + pieces[1..];
    }
  }

  /** Splitting undoes `"\n".join` on lines that hold no newline. */
  lemma {:induction false} SplitJoin(lines: seq<string>)
    requires lines != []
    requires forall i :: 0 <= i < |lines| ==> '\n' !in lines[i]
    ensures SplitLines(JoinLines(lines)) == lines
  {
    if |lines| == 1 {
      SplitLinesPrefix(lines[0], "");
      assert lines[0] + "" == lines[0];
    } else {
      var rest := JoinLines(lines[1..]);
      SplitJoin(lines[1..]);
      SplitLinesPrefix(lines[0], "\n" + rest);
      assert ("\n" + rest)[0] == '\n' && ("\n" + rest)[1..] == rest;
      assert SplitLines("\n" + rest) == [""] + lines[1..];
      assert lines[0] + "" == lines[0];
      assert lines[0] + "\n" + rest == lines[0] + ("\n" + rest);
      assert lines == [lines[0]] + lines[1..];
    }
  }
}
