/** The three string operations the mapper relies on, over ASCII text:
    lower-casing, splitting on runs of whitespace, and substring search. */
module Text {

  /** Lower-cases one ASCII upper-case letter; every other character is kept.
      No upper-case letter survives, a letter stays a letter, and whitespace
      stays exactly where it was, so lower-casing never moves a word
      boundary. */
  function LowerChar(c: char): (d: char)
    ensures !('A' <= c <= 'Z') ==> d == c
    ensures !('A' <= d <= 'Z')
    ensures ('a' <= d <= 'z') <==> ('A' <= c <= 'Z' || 'a' <= c <= 'z')
    ensures IsSpace(d) <==> IsSpace(c)
  {
    if 'A' <= c <= 'Z' then (c as int + 32) as char else c
  }

  /** The text lower-cased character by character. */
  function Lower(s: string): (r: string)
    ensures |r| == |s|
    ensures forall i :: 0 <= i < |r| ==> !('A' <= r[i] <= 'Z')
    ensures forall i :: 0 <= i < |r| ==> (IsSpace(r[i]) <==> IsSpace(s[i]))
  {
    seq(|s|, i requires 0 <= i < |s| => LowerChar(s[i]))
  }

  /** Lower-casing works piece by piece: the lower-cased concatenation is the
      concatenation of the lower-cased parts. */
  lemma LowerConcat(a: string, b: string)
    ensures Lower(a + b) == Lower(a) + Lower(b)
  {
    assert forall i :: 0 <= i < |a| ==> (a + b)[i] == a[i];
    assert forall i :: |a| <= i < |a| + |b| ==> (a + b)[i] == b[i - |a|];
  }

  /** The ASCII characters that separate words: space, tab, line feed,
      vertical tab, form feed, carriage return and the four information
      separators 0x1C-0x1F. */
  predicate IsSpace(c: char) {
    c == ' ' || 9 <= c as int <= 13 || 28 <= c as int <= 31
  }

  /** The length of the run of non-space characters that starts the text:
      every character before it is not a space, and the run stops at the end
      of the text or at a space. */
  function WordLength(s: string): (n: nat)
    ensures n <= |s|
    ensures s != [] && !IsSpace(s[0]) ==> 0 < n
    ensures forall j :: 0 <= j < n ==> !IsSpace(s[j])
    ensures n < |s| ==> IsSpace(s[n])
  {
    if s == [] || IsSpace(s[0]) then 0 else 1 + WordLength(s[1..])
  }

  /** The words of the text: its maximal runs of non-space characters, in
      order. */
  function Words(s: string): seq<string>
    decreases |s|
  {
    if s == [] then []
    else if IsSpace(s[0]) then Words(s[1..])
    else
      var n := WordLength(s);
      [s[..n]] + Words(s[n..])
  }

  /** Whether `part` occurs in `text` as a contiguous substring. The empty
      string occurs in every text. */
  predicate Contains(text: string, part: string) {
    exists i :: 0 <= i <= |text| && part <= text[i..]
  }

  /** A word: a non-empty run of characters none of which is a space. */
  predicate IsWord(w: string) {
    w != [] && forall j :: 0 <= j < |w| ==> !IsSpace(w[j])
  }

  /** Splitting yields only words: never an empty string and never a string
      with a space in it. */
  lemma {:induction false} WordsAreWords(s: string)
    ensures forall w :: w in Words(s) ==> IsWord(w)
    decreases |s|
  {
    if s == [] {
    } else if IsSpace(s[0]) {
      WordsAreWords(s[1..]);
    } else {
      var n := WordLength(s);
      WordsAreWords(s[n..]);
      assert IsWord(s[..n]);
      assert Words(s) == [s[..n]] + Words(s[n..]);
    }
  }

  /** `part` stands in `text` at offset `i`. */
  predicate OccursAt(text: string, part: string, i: int) {
    0 <= i <= |text| - |part| && text[i..i + |part|] == part
  }

  /** The text contains `part` exactly when it stands at some offset, that
      is when a slice of the text of the same length equals it. */
  lemma ContainsSpan(text: string, part: string)
    ensures Contains(text, part) <==> exists i :: OccursAt(text, part, i)
  {
    if Contains(text, part) {
      var i :| 0 <= i <= |text| && part <= text[i..];
      assert OccursAt(text, part, i);
    }
    if exists i :: OccursAt(text, part, i) {
      var i :| OccursAt(text, part, i);
      assert part <= text[i..];
    }
  }
}
