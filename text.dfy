/** The two string operations the endpoint classifier relies on: lower-casing
    a response body and Python's substring test `needle in haystack`. */
module Text {

  predicate IsUpper(c: char) { 'A' <= c <= 'Z' }

  function LowerChar(c: char): char
  {
    if IsUpper(c) then (c as int + 32) as char else c
  }

  /** Lower-cases the ASCII letters of `s`; every other character is kept. */
  function Lower(s: string): (r: string)
    ensures |r| == |s|
    ensures forall i :: 0 <= i < |r| ==> !IsUpper(r[i])
    ensures forall i :: 0 <= i < |r| ==> (r[i] == s[i] || (IsUpper(s[i]) && r[i] as int == s[i] as int + 32))
  {
    seq(|s|, i requires 0 <= i < |s| => LowerChar(s[i]))
  }

  /** Lower-casing twice is lower-casing once. */
  lemma LowerIdempotent(s: string)
    ensures Lower(Lower(s)) == Lower(s)
  {
    var l := Lower(s);
    assert forall i :: 0 <= i < |l| ==> LowerChar(l[i]) == l[i];
  }

  /** `pat` occurs in `text` starting at index `i`. */
  predicate OccursAt(text: string, pat: string, i: int)
  {
    0 <= i && i + |pat| <= |text| && text[i..i + |pat|] == pat
  }

  /** Python's `pat in text`, computed by sliding a window from the left. */
  function Contains(text: string, pat: string): (r: bool)
    ensures r <==> exists i :: OccursAt(text, pat, i)
    decreases |text|
  {
    if |pat| > |text| then false
    else if text[..|pat|] == pat then
      assert OccursAt(text, pat, 0);
      true
    else
      var rest := text[1..];
      var r := Contains(rest, pat);
      assert forall i :: OccursAt(rest, pat, i) ==> OccursAt(text, pat, i + 1) by {
        forall i | OccursAt(rest, pat, i) ensures OccursAt(text, pat, i + 1) {
          assert text[i + 1..i + 1 + |pat|] == rest[i..i + |pat|];
        }
      }
      assert forall i :: OccursAt(text, pat, i) ==> i > 0 && OccursAt(rest, pat, i - 1) by {
        forall i | OccursAt(text, pat, i) ensures i > 0 && OccursAt(rest, pat, i - 1) {
          assert rest[i - 1..i - 1 + |pat|] == text[i..i + |pat|];
        }
      }
      r
  }
}
