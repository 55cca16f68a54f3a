/** The two JavaScript string operations the file-name checks use. */
module JsString {

  function Max(a: int, b: int): int { if a < b then b else a }

  function Min(a: int, b: int): int { if a < b then a else b }

  /** `s.substr(start, length)` (section B.2.2.1 of ECMA-262): a negative
      start counts from the end and is clamped at 0, a start past the end is
      clamped to the end, and the length is clamped to what is left. */
  function Substr(s: string, start: int, length: int): (r: string)
    ensures |r| <= |s| && (length >= 0 ==> |r| <= length)
    // a window counted back from the end of a long enough string, cut at the end
    ensures start < 0 && -start <= |s| && length >= 0 ==>
              r == s[|s| + start .. |s| + start + Min(length, -start)]
    // a string shorter than the backward offset is read from its first character
    ensures start < 0 && -start > |s| && length >= 0 ==>
              r == s[..Min(length, |s|)]
    // a non-negative start counts from the front and is clamped to the end
    ensures 0 <= start && length >= 0 ==>
              r == s[Min(start, |s|)..][..Min(length, |s| - Min(start, |s|))]
    ensures length <= 0 ==> r == ""
  {
    var from := if start < 0 then Max(|s| + start, 0) else Min(start, |s|);
    s[from .. from + Min(Max(length, 0), |s| - from)]
  }

  /** `s.substr(start)`: the length defaults to the whole string. */
  function SubstrFrom(s: string, start: int): string {
    Substr(s, start, |s|)
  }

  predicate EndsWith(s: string, w: string) {
    |w| <= |s| && s[|s| - |w|..] == w
  }

  /** `s.substr(-n) === w` for a `w` of length `n` is exactly "s ends with w",
      also for strings shorter than `w`. */
  lemma SubstrFromEndIsSuffix(s: string, w: string)
    requires |w| > 0
    ensures SubstrFrom(s, -|w|) == w <==> EndsWith(s, w)
  {
    if |s| >= |w| {
      assert SubstrFrom(s, -|w|) == s[|s| - |w|..];
    } else {
      assert SubstrFrom(s, -|w|) == s;
    }
  }
}
