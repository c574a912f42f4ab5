/**
 * The normalisation the scripts apply to each line typed at a prompt:
 * `str.strip()` and, for the motor-test commands, `str.lower()`.
 */
module Console {

  /**
   * The characters `str.isspace()` accepts, which `str.strip()` removes: tab to
   * carriage return, the four information separators 0x1C-0x1F, space, and the
   * Unicode spaces and line/paragraph separators.
   */
  predicate IsSpace(c: char)
  {
    var n := c as int;
    || 9 <= n <= 13 || 28 <= n <= 32
    || n == 0x85 || n == 0xA0 || n == 0x1680 || 0x2000 <= n <= 0x200A
    || n == 0x2028 || n == 0x2029 || n == 0x202F || n == 0x205F || n == 0x3000
  }

  /** Index of the first non-whitespace character of s at or after i (|s| if none). */
  function FirstNonSpace(s: string, i: nat): (k: nat)
    requires i <= |s|
    ensures i <= k <= |s| && forall m :: i <= m < k ==> IsSpace(s[m])
    ensures k < |s| ==> !IsSpace(s[k])
    decreases |s| - i
  {
    if i < |s| && IsSpace(s[i]) then FirstNonSpace(s, i + 1) else i
  }

  /** End of s once the whitespace after index lo is cut off (lo if nothing else is left). */
  function LastNonSpaceEnd(s: string, lo: nat, j: nat): (k: nat)
    requires lo <= j <= |s|
    ensures lo <= k <= j && forall m :: k <= m < j ==> IsSpace(s[m])
    ensures k > lo ==> !IsSpace(s[k - 1])
    decreases j
  {
    if j > lo && IsSpace(s[j - 1]) then LastNonSpaceEnd(s, lo, j - 1) else j
  }

  /** `s.strip()`: s without its leading and trailing whitespace. */
  function Strip(s: string): (r: string)
    ensures exists i, j {:trigger s[i..j]} :: 0 <= i <= j <= |s| && r == s[i..j]
                         && (forall k :: 0 <= k < i ==> IsSpace(s[k]))
                         && (forall k :: j <= k < |s| ==> IsSpace(s[k]))
    ensures r != [] ==> !IsSpace(r[0]) && !IsSpace(r[|r| - 1])
  {
    var i := FirstNonSpace(s, 0);
    var j := LastNonSpaceEnd(s, i, |s|);
    s[i..j]
  }

  function LowerChar(c: char): char
  {
    if 'A' <= c <= 'Z' then (c as int - 'A' as int + 'a' as int) as char else c
  }

  /** `s.lower()` on ASCII letters. */
  function Lower(s: string): (r: string)
    ensures |r| == |s| && forall k :: 0 <= k < |s| ==> r[k] == LowerChar(s[k])
  {
    seq(|s|, k requires 0 <= k < |s| => LowerChar(s[k]))
  }

  /** A line typed at a prompt is read as `token` exactly when, stripped, it is `token`. */
  lemma {:induction false} PaddedTokenStrips(token: string, pre: string, post: string)
    requires token != [] && !IsSpace(token[0]) && !IsSpace(token[|token| - 1])
    requires forall k :: 0 <= k < |pre| ==> IsSpace(pre[k])
    requires forall k :: 0 <= k < |post| ==> IsSpace(post[k])
    ensures Strip(pre + token + post) == token
  {
    var s := pre + token + post;
    assert forall k :: 0 <= k < |pre| ==> s[k] == pre[k];
    assert forall k :: 0 <= k < |post| ==> s[|pre| + |token| + k] == post[k];
    assert s[|pre|] == token[0] && s[|pre| + |token| - 1] == token[|token| - 1];
    var i := FirstNonSpace(s, 0);
    assert i == |pre|;
    var j := LastNonSpaceEnd(s, i, |s|);
    assert j == |pre| + |token|;
    assert s[i..j] == token;
  }

  /** A choice typed after an information separator (0x1C) still reads as the choice. */
  lemma SeparatorBeforeChoiceStrips()
    ensures Strip([28 as char] + "1") == "1"
  {
    PaddedTokenStrips("1", [28 as char], "");
  }

  /**
   * A typed word reads as the lower-case command word w exactly when it has w's
   * length and each character is w's letter in either case.
   */
  lemma {:induction false} WordIgnoresCase(t: string, w: string)
    requires forall k :: 0 <= k < |w| ==> 'a' <= w[k] <= 'z'
    ensures Lower(t) == w <==> |t| == |w| && forall k :: 0 <= k < |t| ==> t[k] == w[k] || t[k] as int + 32 == w[k] as int
  {
    if |t| == |w| && forall k :: 0 <= k < |t| ==> t[k] == w[k] || t[k] as int + 32 == w[k] as int {
      forall k | 0 <= k < |t| ensures Lower(t)[k] == w[k] {
      }
    }
  }
}
