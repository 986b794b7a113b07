/**
 The scan for where an unquoted Windows command line's executable path ends. It works
 on the bytes of the original text, so every offset it returns is an offset of that text.
 */
module ExtensionScan {

  type byte = x: int | 0 <= x < 256

  // .exe .com .cmd .bat .ps1
  const Extensions: seq<seq<byte>> := [
    [0x2e, 0x65, 0x78, 0x65], [0x2e, 0x63, 0x6f, 0x6d], [0x2e, 0x63, 0x6d, 0x64],
    [0x2e, 0x62, 0x61, 0x74], [0x2e, 0x70, 0x73, 0x31]]

  function Lower(b: byte): byte {
    if 0x41 <= b <= 0x5a then b + 0x20 else b
  }

  predicate EqualFold(a: byte, b: byte) {
    Lower(a) == Lower(b)
  }

  /** Two bytes are equal without case exactly when they are equal or the two cases of one ASCII letter. */
  lemma EqualFoldExactly(a: byte, b: byte)
    ensures EqualFold(a, b) <==>
              a == b || (0x41 <= a <= 0x5a && b as int == a as int + 0x20)
                     || (0x41 <= b <= 0x5a && a as int == b as int + 0x20)
  {
  }

  predicate Blank(b: byte) {
    b == 0x20 || b == 0x09 || b == 0x0a || b == 0x0d
  }

  // `sub` occurs in s at offset i, ASCII letters compared without case.
  predicate OccursAt(s: seq<byte>, sub: seq<byte>, i: int) {
    0 <= i <= |s| - |sub| && forall j :: 0 <= j < |sub| ==> EqualFold(s[i + j], sub[j])
  }

  // An occurrence of `ext` ends at offset `end`, before blank or end of text.
  predicate EndsAt(s: seq<byte>, ext: seq<byte>, end: int) {
    OccursAt(s, ext, end - |ext|) && (end == |s| || Blank(s[end]))
  }

  method IndexFold(s: seq<byte>, sub: seq<byte>) returns (at: int)
    ensures at == -1 || (OccursAt(s, sub, at) && forall i :: 0 <= i < at ==> !OccursAt(s, sub, i))
    ensures at == -1 ==> forall i :: !OccursAt(s, sub, i)
  {
    if |sub| == 0 {
      return 0;
    }
    var i := 0;
    while i <= |s| - |sub|
      invariant 0 <= i
      invariant forall k :: 0 <= k < i ==> !OccursAt(s, sub, k)
    {
      var matched, j := true, 0;
      while j < |sub|
        invariant 0 <= j <= |sub|
        invariant matched ==> forall k :: 0 <= k < j ==> EqualFold(s[i + k], sub[k])
        invariant !matched ==> !OccursAt(s, sub, i)
      {
        if !EqualFold(s[i + j], sub[j]) {
          matched := false;
          break;
        }
        j := j + 1;
      }
      if matched {
        return i;
      }
      i := i + 1;
    }
    return -1;
  }

  /** An occurrence in a suffix is an occurrence in the whole text, shifted. */
  lemma OccursInSuffix(s: seq<byte>, sub: seq<byte>, from: nat, at: int)
    requires from <= at && from <= |s|
    ensures OccursAt(s[from..], sub, at - from) <==> OccursAt(s, sub, at)
  {
    if at <= |s| - |sub| {
      forall j | 0 <= j < |sub| ensures EqualFold(s[from..][at - from + j], sub[j]) <==> EqualFold(s[at + j], sub[j]) {
      }
    }
  }

  /** The first end of one extension. */
  method FirstEnd(s: seq<byte>, ext: seq<byte>) returns (end: int)
    requires |ext| > 0
    ensures end == -1 || (EndsAt(s, ext, end) && forall e :: e < end ==> !EndsAt(s, ext, e))
    ensures end == -1 ==> forall e :: !EndsAt(s, ext, e)
  {
    var from := 0;
    while from < |s|
      invariant 0 <= from <= |s|
      invariant forall e :: e - |ext| < from ==> !EndsAt(s, ext, e)
    {
      var at := IndexFold(s[from..], ext);
      forall e | from <= e - |ext| && (at < 0 || e - |ext| < from + at) ensures !EndsAt(s, ext, e) {
        OccursInSuffix(s, ext, from, e - |ext|);
      }
      if at < 0 {
        return -1;
      }
      OccursInSuffix(s, ext, from, from + at);
      var stop := from + at + |ext|;
      if stop == |s| || Blank(s[stop]) {
        return stop;
      }
      from := from + at + 1;
    }
    return -1;
  }

  ghost predicate SomeEndsAt(s: seq<byte>, end: int) {
    exists k :: 0 <= k < |Extensions| && EndsAt(s, Extensions[k], end)
  }

  /** The least offset at which some known extension ends, -1 exactly when there is none. */
  method FindExtensionEnd(s: seq<byte>) returns (best: int)
    ensures best == -1 || (4 <= best <= |s| && SomeEndsAt(s, best) && forall e :: e < best ==> !SomeEndsAt(s, e))
    ensures best == -1 ==> forall e :: !SomeEndsAt(s, e)
  {
    best := -1;
    for k := 0 to |Extensions|
      invariant best == -1 || (4 <= best <= |s| && SomeEndsAt(s, best))
      invariant best == -1 ==> forall m, e :: 0 <= m < k ==> !EndsAt(s, Extensions[m], e)
      invariant best != -1 ==> forall m, e :: 0 <= m < k && e < best ==> !EndsAt(s, Extensions[m], e)
    {
      var end := FirstEnd(s, Extensions[k]);
      if end != -1 && (best < 0 || end < best) {
        best := end;
      }
    }
  }
}
