/**
 * String helpers behind the client's text handling: `str.lower()` restricted
 * to ASCII letters, and Python's substring test `pat in text`.
 */
module Text {

  /** ASCII lower-casing of one character; every other character is kept. */
  function LowerChar(c: char): (d: char)
    ensures 'A' <= c <= 'Z' ==> 'a' <= d <= 'z' && d as int - 'a' as int == c as int - 'A' as int
    ensures !('A' <= c <= 'Z') ==> d == c
  {
    if 'A' <= c <= 'Z' then (c as int - 'A' as int + 'a' as int) as char else c
  }

  /** `s.lower()` over ASCII: same length, no upper-case ASCII letter left. */
  function Lower(s: string): (r: string)
    ensures |r| == |s|
    ensures forall k :: 0 <= k < |r| ==> r[k] == LowerChar(s[k])
    ensures forall k :: 0 <= k < |r| ==> !('A' <= r[k] <= 'Z')
  {
    seq(|s|, k requires 0 <= k < |s| => LowerChar(s[k]))
  }

  /** Lower-casing twice is lower-casing once. */
  lemma LowerIdempotent(s: string)
    ensures Lower(Lower(s)) == Lower(s)
  {
    var once := Lower(s);
    forall k | 0 <= k < |once| ensures Lower(once)[k] == once[k] {
      assert !('A' <= once[k] <= 'Z');
    }
  }

  /** `pat` occurs in `text` starting at position `k`. */
  predicate OccursAt(text: string, pat: string, k: int)
  {
    0 <= k && k + |pat| <= |text| && text[k..k + |pat|] == pat
  }

  /** Python's `pat in text`: a prefix test at each position, left to right. */
  function Contains(text: string, pat: string): (b: bool)
    ensures pat <= text ==> b
    ensures b ==> |pat| <= |text|
    decreases |text|
  {
    if pat <= text then true
    else if |text| == 0 then false
    else Contains(text[1..], pat)
  }

  /** `Contains` holds exactly when the pattern occurs at some position. */
  lemma {:induction false} ContainsIffOccurs(text: string, pat: string)
    ensures Contains(text, pat) <==> exists k :: OccursAt(text, pat, k)
    decreases |text|
  {
    if pat <= text {
      assert OccursAt(text, pat, 0);
    } else if |text| > 0 {
      var tail := text[1..];
      ContainsIffOccurs(tail, pat);
      if exists k :: OccursAt(tail, pat, k) {
        var k :| OccursAt(tail, pat, k);
        assert text[k + 1..k + 1 + |pat|] == tail[k..k + |pat|];
        assert OccursAt(text, pat, k + 1);
      }
      if exists k :: OccursAt(text, pat, k) {
        var k :| OccursAt(text, pat, k);
        if k > 0 {
          assert tail[k - 1..k - 1 + |pat|] == text[k..k + |pat|];
          assert OccursAt(tail, pat, k - 1);
        }
      }
    }
  }

  /** The empty string occurs in every string. */
  lemma ContainsEmpty(text: string)
    ensures Contains(text, "")
  {
    assert "" <= text;
  }

  /** A string contains itself. */
  lemma ContainsSelf(text: string)
    ensures Contains(text, text)
  {
    assert text <= text;
  }

  /** Whatever occurs in a substring of `text` occurs in `text`. */
  lemma ContainsTransitive(text: string, mid: string, pat: string)
    requires Contains(text, mid) && Contains(mid, pat)
    ensures Contains(text, pat)
  {
    ContainsIffOccurs(text, mid);
    ContainsIffOccurs(mid, pat);
    var i :| OccursAt(text, mid, i);
    var j :| OccursAt(mid, pat, j);
    forall n | 0 <= n < |pat| ensures text[i + j + n] == pat[n] {
      assert pat[n] == mid[j + n];
      assert mid[j + n] == text[i + j + n];
    }
    assert OccursAt(text, pat, i + j);
    ContainsIffOccurs(text, pat);
  }

  /** Every piece of a concatenation is contained in it. */
  lemma ContainsPieces(a: string, b: string)
    ensures Contains(a + b, a) && Contains(a + b, b)
  {
    assert OccursAt(a + b, a, 0);
    assert (a + b)[|a|..|a| + |b|] == b;
    assert OccursAt(a + b, b, |a|);
    ContainsIffOccurs(a + b, a);
    ContainsIffOccurs(a + b, b);
  }
}
