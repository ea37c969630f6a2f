/** Trimming white space, as Go's strings.TrimSpace and Python's str.strip do it. */
module Text {
  /** The White_Space property of Unicode, which strings.TrimSpace trims. */
  predicate IsSpace(c: char) {
    || 9 <= c as int <= 13
    || c as int in {0x20, 0x85, 0xA0, 0x1680, 0x2028, 0x2029, 0x202F, 0x205F, 0x3000}
    || 0x2000 <= c as int <= 0x200A
  }

  /** str.isspace: White_Space and the four information separators. */
  predicate IsPythonSpace(c: char) {
    IsSpace(c) || 0x1C <= c as int <= 0x1F
  }

  /** The characters one by one. */
  lemma {:induction false} WhiteSpaceIs(c: char)
    ensures IsSpace(c) <==>
              c as int in {0x9, 0xA, 0xB, 0xC, 0xD, 0x20, 0x85, 0xA0, 0x1680, 0x2000, 0x2001, 0x2002, 0x2003, 0x2004, 0x2005,
                           0x2006, 0x2007, 0x2008, 0x2009, 0x200A, 0x2028, 0x2029, 0x202F, 0x205F, 0x3000}
    ensures IsPythonSpace(c) <==> IsSpace(c) || c as int in {0x1C, 0x1D, 0x1E, 0x1F}
  {
  }

  function TrimLeft(s: string, space: char -> bool): string {
    if s != [] && space(s[0]) then TrimLeft(s[1..], space) else s
  }

  function TrimRight(s: string, space: char -> bool): string {
    if s != [] && space(s[|s| - 1]) then TrimRight(s[..|s| - 1], space) else s
  }

  function Strip(s: string, space: char -> bool): string {
    TrimRight(TrimLeft(s, space), space)
  }

  function Trim(s: string): string {
    Strip(s, IsSpace)
  }

  /** Nothing left to trim. */
  predicate Stripped(s: string, space: char -> bool) {
    s == [] || (!space(s[0]) && !space(s[|s| - 1]))
  }

  predicate Trimmed(s: string) {
    Stripped(s, IsSpace)
  }

  lemma {:induction false} TrimRightKeepsStart(s: string, space: char -> bool)
    requires s == [] || !space(s[0])
    ensures Stripped(TrimRight(s, space), space)
  {
    if s != [] && space(s[|s| - 1]) {
      TrimRightKeepsStart(s[..|s| - 1], space);
    }
  }

  lemma {:induction false} TrimLeftStarts(s: string, space: char -> bool)
    ensures TrimLeft(s, space) == [] || !space(TrimLeft(s, space)[0])
  {
    if s != [] && space(s[0]) {
      TrimLeftStarts(s[1..], space);
    }
  }

  /** The results of stripping are exactly the strings it leaves alone. */
  lemma StripFixesStripped(s: string, space: char -> bool)
    ensures Stripped(Strip(s, space), space)
    ensures Strip(s, space) == s <==> Stripped(s, space)
  {
    TrimLeftStarts(s, space);
    TrimRightKeepsStart(TrimLeft(s, space), space);
  }

  // ---------- Trimming a concatenation ----------

  predicate AllSpace(s: string, space: char -> bool) {
    forall i :: 0 <= i < |s| ==> space(s[i])
  }

  /** Only white space is cut off the end. */
  lemma {:induction false} TrimRightDropsSpace(s: string, space: char -> bool)
    ensures TrimRight(s, space) <= s && AllSpace(s[|TrimRight(s, space)|..], space)
  {
    if s != [] && space(s[|s| - 1]) {
      var t := s[..|s| - 1];
      TrimRightDropsSpace(t, space);
      assert s[|TrimRight(t, space)|..] == t[|TrimRight(t, space)|..] + [s[|s| - 1]];
    }
  }

  lemma {:induction false} TrimRightKeepsHead(head: string, tail: string, space: char -> bool)
    requires head != [] && !space(head[|head| - 1])
    ensures TrimRight(head + tail, space) == head + TrimRight(tail, space)
  {
    if tail == [] {
      assert head + tail == head;
    } else {
      assert (head + tail)[..|head + tail| - 1] == head + tail[..|tail| - 1];
      if space(tail[|tail| - 1]) {
        TrimRightKeepsHead(head, tail[..|tail| - 1], space);
      }
    }
  }

  lemma {:induction false} TrimRightIgnoresSpace(s: string, pad: string, space: char -> bool)
    requires AllSpace(pad, space)
    ensures TrimRight(s + pad, space) == TrimRight(s, space)
  {
    if pad == [] {
      assert s + pad == s;
    } else {
      assert (s + pad)[..|s + pad| - 1] == s + pad[..|pad| - 1];
      TrimRightIgnoresSpace(s, pad[..|pad| - 1], space);
    }
  }

  lemma {:induction false} TrimRightTwice(s: string, space: char -> bool)
    ensures TrimRight(TrimRight(s, space), space) == TrimRight(s, space)
  {
    if s != [] && space(s[|s| - 1]) {
      TrimRightTwice(s[..|s| - 1], space);
    }
  }

  lemma {:induction false} TrimLeftOf(a: string, b: string, space: char -> bool)
    ensures TrimLeft(a + b, space) == if TrimLeft(a, space) == [] then TrimLeft(b, space) else TrimLeft(a, space) + b
    ensures TrimLeft(a, space) == [] <==> AllSpace(a, space)
  {
    if a == [] {
      assert a + b == b;
    } else {
      assert (a + b)[1..] == a[1..] + b;
      assert AllSpace(a, space) <==> space(a[0]) && AllSpace(a[1..], space);
      TrimLeftOf(a[1..], b, space);
    }
  }

  lemma {:induction false} TrimLeftDropsSpace(s: string, space: char -> bool) returns (left: string)
    ensures s == left + TrimLeft(s, space) && AllSpace(left, space)
  {
    if s != [] && space(s[0]) {
      left := TrimLeftDropsSpace(s[1..], space);
      assert s == [s[0]] + s[1..];
      left := [s[0]] + left;
    } else {
      left := "";
    }
  }

  /** Stripping cuts white space off both ends and nothing else; what is left is stripped, so this says what it is. */
  lemma {:induction false} StripCutsOnlySpace(s: string, space: char -> bool) returns (left: string, right: string)
    ensures Stripped(Strip(s, space), space)
    ensures s == left + Strip(s, space) + right && AllSpace(left, space) && AllSpace(right, space)
  {
    StripFixesStripped(s, space);
    left := TrimLeftDropsSpace(s, space);
    TrimRightDropsSpace(TrimLeft(s, space), space);
    right := TrimLeft(s, space)[|Strip(s, space)|..];
    assert s == left + (Strip(s, space) + right);
  }

  lemma {:induction false} BlankIsAllSpace(s: string, space: char -> bool)
    ensures Strip(s, space) == "" <==> AllSpace(s, space)
  {
    TrimLeftOf(s, "", space);
    StripStarts(s, space);
  }

  /** A character that is not white space survives. */
  lemma {:induction false} StripKeepsOthers(s: string, space: char -> bool, c: char)
    requires !space(c)
    ensures c in Strip(s, space) <==> c in s
  {
    var left, right := StripCutsOnlySpace(s, space);
    assert c !in left && c !in right;
  }

  /** Stripping finds the same first character as trimming on the left. */
  lemma StripStarts(s: string, space: char -> bool)
    ensures Strip(s, space) == [] <==> TrimLeft(s, space) == []
    ensures Strip(s, space) != [] ==> Strip(s, space)[0] == TrimLeft(s, space)[0]
  {
    TrimLeftStarts(s, space);
    var left := TrimLeft(s, space);
    if left != [] {
      assert left == left[..1] + left[1..];
      TrimRightKeepsHead(left[..1], left[1..], space);
    }
  }

  /** A stripped head stays; only the tail is trimmed. */
  lemma StripKeepsHead(head: string, tail: string, space: char -> bool)
    requires head != [] && Stripped(head, space)
    ensures Strip(head + tail, space) == head + TrimRight(tail, space)
  {
    TrimRightKeepsHead(head, tail, space);
  }
}
