/**
 * The two pieces of Rust's string library that `read_lines` relies on:
 * `char::is_whitespace` (the Unicode White_Space property) and `str::trim`,
 * which removes every leading and trailing White_Space character.
 */
module Strings {

  /** Unicode White_Space, as tested by Rust's `char::is_whitespace`. */
  predicate IsWhitespace(c: char)
  {
    var n := c as int;
    (0x09 <= n <= 0x0D) || n == 0x20 || n == 0x85 || n == 0xA0 || n == 0x1680
    || (0x2000 <= n <= 0x200A) || n == 0x2028 || n == 0x2029 || n == 0x202F
    || n == 0x205F || n == 0x3000
  }

  /** True of a string that begins and ends with a non-whitespace character (or is empty). */
  predicate IsTrimmed(s: string)
  {
    s == [] || (!IsWhitespace(s[0]) && !IsWhitespace(s[|s| - 1]))
  }

  predicate AllWhitespace(s: string)
  {
    forall k | 0 <= k < |s| :: IsWhitespace(s[k])
  }

  function TrimStart(s: string): string
  {
    if |s| > 0 && IsWhitespace(s[0]) then TrimStart(s[1..]) else s
  }

  function TrimEnd(s: string): string
  {
    if |s| > 0 && IsWhitespace(s[|s| - 1]) then TrimEnd(s[..|s| - 1]) else s
  }

  /** `str::trim`. */
  function Trim(s: string): string
  {
    TrimEnd(TrimStart(s))
  }

  /** TrimStart drops a whitespace prefix of maximal length. */
  lemma {:induction false} TrimStartBounds(s: string) returns (i: nat)
    ensures i <= |s| && TrimStart(s) == s[i..]
    ensures AllWhitespace(s[..i])
    ensures i < |s| ==> !IsWhitespace(s[i])
    decreases |s|
  {
    if |s| > 0 && IsWhitespace(s[0]) {
      var i' := TrimStartBounds(s[1..]);
      i := i' + 1;
      assert s[1..][i'..] == s[i..];
      forall k | 0 <= k < i ensures IsWhitespace(s[..i][k]) {
        if k > 0 { assert s[..i][k] == s[1..][..i'][k - 1]; }
      }
    } else {
      i := 0;
    }
  }

  /** TrimEnd drops a whitespace suffix of maximal length. */
  lemma {:induction false} TrimEndBounds(s: string) returns (j: nat)
    ensures j <= |s| && TrimEnd(s) == s[..j]
    ensures AllWhitespace(s[j..])
    ensures j > 0 ==> !IsWhitespace(s[j - 1])
    decreases |s|
  {
    if |s| > 0 && IsWhitespace(s[|s| - 1]) {
      var s' := s[..|s| - 1];
      j := TrimEndBounds(s');
      assert s'[..j] == s[..j];
      forall k | 0 <= k < |s| - j ensures IsWhitespace(s[j..][k]) {
        if j + k < |s| - 1 { assert s[j..][k] == s'[j..][k]; }
      }
    } else {
      j := |s|;
    }
  }

  /**
   * `str::trim` returns the slice `s[i..j]` left after removing the longest
   * whitespace prefix and the longest whitespace suffix.
   */
  lemma TrimBounds(s: string) returns (i: nat, j: nat)
    ensures i <= j <= |s| && Trim(s) == s[i..j]
    ensures AllWhitespace(s[..i]) && AllWhitespace(s[j..])
    ensures i < j ==> !IsWhitespace(s[i]) && !IsWhitespace(s[j - 1])
  {
    i := TrimStartBounds(s);
    var j' := TrimEndBounds(s[i..]);
    j := i + j';
    assert s[i..][..j'] == s[i..j];
    assert s[i..][j'..] == s[j..];
  }

  /** A trimmed string has no whitespace at either end. */
  lemma TrimIsTrimmed(s: string)
    ensures IsTrimmed(Trim(s))
  {
    var i, j := TrimBounds(s);
  }

  /** Trimming yields the empty string exactly when the input is all whitespace. */
  lemma TrimEmptyIff(s: string)
    ensures Trim(s) == [] <==> AllWhitespace(s)
  {
    var i, j := TrimBounds(s);
    if Trim(s) == [] {
      forall k | 0 <= k < |s| ensures IsWhitespace(s[k]) {
        if k < i { assert s[k] == s[..i][k]; } else { assert s[k] == s[j..][k - j]; }
      }
    }
  }

  /** Trimming leaves a string that is already trimmed unchanged. */
  lemma TrimOfTrimmed(s: string)
    requires IsTrimmed(s)
    ensures Trim(s) == s
  {
    assert TrimStart(s) == s;
    assert TrimEnd(s) == s;
  }

  /** `str::trim` is idempotent. */
  lemma TrimIdempotent(s: string)
    ensures Trim(Trim(s)) == Trim(s)
  {
    TrimIsTrimmed(s);
    TrimOfTrimmed(Trim(s));
  }
}
