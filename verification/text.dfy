/**
 * Python's `str.strip()` and `str.lower()`, as the dispatcher applies them to
 * the classifier's answer before looking it up on the current node.
 */
module Text {

  /**
   * `str.isspace()` of one character: the characters `strip()` removes. Within
   * ASCII these are `string.whitespace` and the four separators 0x1C-0x1F.
   */
  predicate IsSpace(c: char): (r: bool)
    ensures c as int < 128 ==>
      (r <==> c in {' ', '\t', '\n', '\r', '\U{0B}', '\U{0C}', '\U{1C}', '\U{1D}', '\U{1E}', '\U{1F}'})
    ensures r ==> !IsUpper(c)
  {
    var n := c as int;
    || 9 <= n <= 13
    || 28 <= n <= 32
    || n == 0x85 || n == 0xA0 || n == 0x1680
    || 0x2000 <= n <= 0x200A
    || n == 0x2028 || n == 0x2029 || n == 0x202F || n == 0x205F || n == 0x3000
  }

  predicate AllSpace(s: string)
  {
    forall k :: 0 <= k < |s| ==> IsSpace(s[k])
  }

  /** Neither starts nor ends with whitespace. */
  predicate Unpadded(s: string)
  {
    s == [] || (!IsSpace(s[0]) && !IsSpace(s[|s| - 1]))
  }

  predicate IsUpper(c: char)
  {
    'A' <= c <= 'Z'
  }

  /** The index of the first non-whitespace character at or after `i`, or `|s|`. */
  function SkipSpaces(s: string, i: nat): (j: nat)
    requires i <= |s|
    ensures i <= j <= |s|
    ensures forall k :: i <= k < j ==> IsSpace(s[k])
    ensures j == |s| || !IsSpace(s[j])
    decreases |s| - i
  {
    if i < |s| && IsSpace(s[i]) then SkipSpaces(s, i + 1) else i
  }

  /** Moving back from `j`, not below `lo`: the index just after the last non-whitespace character, or `lo`. */
  function SkipSpacesBack(s: string, lo: nat, j: nat): (e: nat)
    requires lo <= j <= |s|
    ensures lo <= e <= j
    ensures forall k :: e <= k < j ==> IsSpace(s[k])
    ensures e == lo || !IsSpace(s[e - 1])
    decreases j
  {
    if lo < j && IsSpace(s[j - 1]) then SkipSpacesBack(s, lo, j - 1) else j
  }

  /** `s.strip()`: what is left after removing whitespace at both ends. */
  function Strip(s: string): (r: string)
    ensures Unpadded(r)
    ensures |r| <= |s|
  {
    var i := SkipSpaces(s, 0);
    s[i..SkipSpacesBack(s, i, |s|)]
  }

  /** `r` is the slice of `s` at `i`, with only whitespace before and after it. */
  predicate PaddedAt(s: string, r: string, i: nat)
  {
    && i + |r| <= |s|
    && r == s[i..i + |r|]
    && (forall k :: 0 <= k < i ==> IsSpace(s[k]))
    && (forall k :: i + |r| <= k < |s| ==> IsSpace(s[k]))
  }

  /** What `strip()` keeps is one slice of `s`, with only whitespace before and after it. */
  lemma StripIsSlice(s: string)
    ensures exists i :: PaddedAt(s, Strip(s), i)
  {
    var i := SkipSpaces(s, 0);
    var e := SkipSpacesBack(s, i, |s|);
    assert Strip(s) == s[i..e];
    assert PaddedAt(s, s[i..e], i);
  }

  /** `c.lower()` for ASCII letters; every other character is left as it is. */
  function LowerChar(c: char): (d: char)
    ensures !IsUpper(d)
    ensures IsUpper(c) || d == c
    ensures IsUpper(c) ==> d == "abcdefghijklmnopqrstuvwxyz"[c as int - 'A' as int]
  {
    if IsUpper(c) then (c as int + 32) as char else c
  }

  /** `s.lower()`, character by character. */
  function Lower(s: string): (r: string)
    ensures |r| == |s|
    ensures forall k :: 0 <= k < |s| ==> r[k] == LowerChar(s[k])
  {
    if s == [] then [] else [LowerChar(s[0])] + Lower(s[1..])
  }

  /** The intent used for lookup: the classifier's answer stripped, then lower-cased. */
  function Normalise(answer: string): (r: string)
    ensures Unpadded(r)
    ensures |r| <= |answer|
    ensures forall k :: 0 <= k < |r| ==> !IsUpper(r[k])
  {
    LowerUnpadded(Strip(answer));
    Lower(Strip(answer))
  }

  /** Lowering never turns whitespace into non-whitespace or back. */
  lemma LowerUnpadded(s: string)
    ensures Unpadded(Lower(s)) == Unpadded(s)
  {
  }

  /** `strip()` is fully characterised: it returns the unpadded core between two runs of whitespace. */
  lemma StripOfPadded(pre: string, core: string, post: string)
    requires AllSpace(pre) && AllSpace(post) && Unpadded(core)
    ensures Strip(pre + core + post) == core
  {
    var s := pre + core + post;
    var start, end := |pre|, |pre| + |core|;
    assert forall k :: 0 <= k < start ==> s[k] == pre[k];
    assert forall k :: start <= k < end ==> s[k] == core[k - start];
    assert forall k :: end <= k < |s| ==> s[k] == post[k - end];
    var i := SkipSpaces(s, 0);
    if core == [] {
      assert i == |s|;
    } else {
      assert !IsSpace(s[start]) && !IsSpace(s[end - 1]);
      assert i == start;
      var e := SkipSpacesBack(s, i, |s|);
      assert e == end;
      assert s[start..end] == core;
    }
  }

  lemma StripIdempotent(s: string)
    ensures Strip(Strip(s)) == Strip(s)
  {
    StripOfPadded([], Strip(s), []);
    assert [] + Strip(s) + [] == Strip(s);
  }

  lemma LowerIdempotent(s: string)
    ensures Lower(Lower(s)) == Lower(s)
  {
  }

  /** Normalising an already normalised label changes nothing. */
  lemma NormaliseIdempotent(answer: string)
    ensures Normalise(Normalise(answer)) == Normalise(answer)
  {
    var core := Strip(answer);
    var lowered := Lower(core);
    LowerUnpadded(core);
    StripOfPadded([], lowered, []);
    assert [] + lowered + [] == lowered;
    LowerIdempotent(core);
  }

  /** The classifier's answer is looked up by its lower-cased core, whatever whitespace surrounds it. */
  lemma NormaliseOfPadded(pre: string, core: string, post: string)
    requires AllSpace(pre) && AllSpace(post) && Unpadded(core)
    ensures Normalise(pre + core + post) == Lower(core)
  {
    StripOfPadded(pre, core, post);
  }

  /** An example: a classifier answering " Hello\n" selects the intent "hello". */
  lemma NormaliseExample()
    ensures Normalise(" Hello\n") == "hello"
  {
    ExampleStrip();
    ExampleLower();
  }

  lemma ExampleStrip()
    ensures Strip(" Hello\n") == "Hello"
  {
    var core := "Hello";
    assert Unpadded(core) by {
      assert core[0] == 'H' && core[|core| - 1] == 'o';
    }
    assert AllSpace(" ") && AllSpace("\n");
    assert " " + core + "\n" == " Hello\n";
    StripOfPadded(" ", core, "\n");
  }

  lemma ExampleLower()
    ensures Lower("Hello") == "hello"
  {
    var lowered := Lower("Hello");
    assert lowered[0] == 'h' && lowered[1] == 'e' && lowered[2] == 'l' && lowered[3] == 'l' && lowered[4] == 'o';
  }
}
