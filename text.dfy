/**
 * The two JavaScript string operations the classifier relies on, restricted
 * to ASCII: `String.prototype.toLowerCase` and `String.prototype.includes`.
 */
module Text {

  /** True when `c` is an ASCII capital letter. */
  predicate IsUpper(c: char) {
    'A' <= c <= 'Z'
  }

  /** No ASCII capital letter anywhere in `s`. */
  predicate IsLowerCase(s: string) {
    forall i :: 0 <= i < |s| ==> !IsUpper(s[i])
  }

  /** ASCII lower-casing of one character. */
  function LowerChar(c: char): char {
    if IsUpper(c) then (c as int + ('a' as int - 'A' as int)) as char else c
  }

  /** `s.toLowerCase()` on ASCII text: every capital becomes its small letter
      (32 code points further on), every other character is kept. */
  function Lower(s: string): (r: string)
    ensures |r| == |s|
    ensures IsLowerCase(r)
    ensures forall i :: 0 <= i < |s| && IsUpper(s[i]) ==> r[i] as int == s[i] as int + 32
    ensures forall i :: 0 <= i < |s| && !IsUpper(s[i]) ==> r[i] == s[i]
  {
    if s == [] then [] else [LowerChar(s[0])] + Lower(s[1..])
  }

  /** Text that is already lower-case is left as it is. */
  lemma {:induction false} LowerKeepsLowerCase(s: string)
    requires IsLowerCase(s)
    ensures Lower(s) == s
  {
    if s != [] {
      LowerKeepsLowerCase(s[1..]);
    }
  }

  /** Lower-casing twice is lower-casing once. */
  lemma LowerIdempotent(s: string)
    ensures Lower(Lower(s)) == Lower(s)
  {
    LowerKeepsLowerCase(Lower(s));
  }

  /** `word` occurs in `text` as a contiguous block starting at position `i`. */
  predicate OccursAt(word: string, text: string, i: int) {
    0 <= i <= |text| - |word| && text[i..i + |word|] == word
  }

  /** `word` occurs in `text` somewhere. */
  ghost predicate Occurs(word: string, text: string) {
    exists i :: OccursAt(word, text, i)
  }

  /** `text.includes(word)`: tries each start position from the left. */
  function Includes(text: string, word: string): (r: bool)
    ensures r <==> Occurs(word, text)
    decreases |text|
  {
    if |text| < |word| then false
    else if text[..|word|] == word then
      assert OccursAt(word, text, 0);
      true
    else
      var r := Includes(text[1..], word);
      assert Occurs(word, text) ==> Occurs(word, text[1..]) by {
        if Occurs(word, text) {
          var i :| OccursAt(word, text, i);
          assert i != 0;
          assert text[1..][i - 1..i - 1 + |word|] == text[i..i + |word|];
          assert OccursAt(word, text[1..], i - 1);
        }
      }
      assert Occurs(word, text[1..]) ==> Occurs(word, text) by {
        if Occurs(word, text[1..]) {
          var i :| OccursAt(word, text[1..], i);
          assert text[i + 1..i + 1 + |word|] == text[1..][i..i + |word|];
          assert OccursAt(word, text, i + 1);
        }
      }
      r
  }

  /** A word found in `text` is still found when more text follows. */
  lemma OccursInLongerText(word: string, text: string, more: string)
    requires Occurs(word, text)
    ensures Occurs(word, text + more)
  {
    var i :| OccursAt(word, text, i);
    assert (text + more)[i..i + |word|] == text[i..i + |word|];
    assert OccursAt(word, text + more, i);
  }
}
