/** String helpers standing in for the Python built-ins the quote service uses:
    `str.lower`, `str.startswith` and `str.replace(" ", "_")`. */
module Text {

  datatype Option<+T> = None | Some(value: T)

  /** Lower-cases one character. Only ASCII letters are folded: this is exact for
      every use in the model, which only asks whether a lowered string starts with
      "n.d", and no character other than 'N', '.' and 'D' lowers to 'n', '.', 'd'. */
  function LowerChar(c: char): char {
    if 'A' <= c <= 'Z' then (c as int - 'A' as int + 'a' as int) as char else c
  }

  /** `str.lower()` on the characters that matter here (see LowerChar). */
  function Lower(s: string): (r: string)
    ensures |r| == |s|
    ensures forall i :: 0 <= i < |s| ==> r[i] == LowerChar(s[i])
  {
    if s == [] then [] else [LowerChar(s[0])] + Lower(s[1..])
  }

  /** `s.startswith(prefix)`. */
  predicate StartsWith(s: string, prefix: string) {
    |prefix| <= |s| && s[..|prefix|] == prefix
  }

  /** `s.replace(" ", "_")`: every space becomes an underscore. */
  function ReplaceSpaces(s: string): (r: string)
    ensures |r| == |s|
    ensures forall i :: 0 <= i < |s| ==> r[i] == (if s[i] == ' ' then '_' else s[i])
  {
    if s == [] then [] else [if s[0] == ' ' then '_' else s[0]] + ReplaceSpaces(s[1..])
  }

  /** After the replacement no space is left, and replacing again changes nothing. */
  lemma ReplaceSpacesClears(s: string)
    ensures ' ' !in ReplaceSpaces(s)
    ensures ReplaceSpaces(ReplaceSpaces(s)) == ReplaceSpaces(s)
    ensures ' ' !in s ==> ReplaceSpaces(s) == s
  {
    var r := ReplaceSpaces(s);
    assert forall i :: 0 <= i < |r| ==> r[i] != ' ';
    assert ReplaceSpaces(r) == r;
    if ' ' !in s {
      assert forall i :: 0 <= i < |s| ==> s[i] != ' ';
      assert r == s;
    }
  }
}
