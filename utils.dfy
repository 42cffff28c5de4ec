/**
 * The string helpers of `src/utils/Utils.js` used to display exercise and routine names:
 * capitalising the first letter of a string, and the first letter of every word.
 */
module Utils {
  import opened Strings

  /** `str.charAt(0).toUpperCase() + str.slice(1)`. */
  function CapitalizeFirstLetter(s: string): (r: string)
    ensures |r| == |s|
    ensures s != "" ==> r[0] == Upper(s[0])
    ensures forall i :: 0 < i < |s| ==> r[i] == s[i]
  {
    if s == "" then "" else [Upper(s[0])] + s[1..]
  }

  /** Position `i` begins a word: it is not a space and nothing but a space precedes it. */
  predicate StartsWord(s: string, i: nat)
    requires i < |s|
  {
    s[i] != ' ' && (i == 0 || s[i - 1] == ' ')
  }

  /**
   * The intended result of capitalising every word: the first letter of each word is
   * upper-cased and every other character is kept. Spaces stay exactly where they were.
   */
  function CapitalizedWords(s: string): (r: string)
    ensures |r| == |s|
    ensures forall i {:trigger r[i]} :: 0 <= i < |s| ==> (r[i] == ' ' <==> s[i] == ' ')
  {
    seq(|s|, i requires 0 <= i < |s| => if StartsWord(s, i) then Upper(s[i]) else s[i])
  }

  /**
   * `capitalizeFirstLetterAllWords`: one pass over the string with a flag saying that the
   * next non-space character opens a word.
   */
  method CapitalizeFirstLetterAllWords(str: string) returns (result: string)
    ensures result == CapitalizedWords(str)
    ensures forall i :: 0 <= i < |str| ==>
      (StartsWord(str, i) ==> result[i] == Upper(str[i])) &&
      (!StartsWord(str, i) ==> result[i] == str[i])
  {
    ghost var spec := CapitalizedWords(str);
    result := "";
    var capitalizeNext := true;
    var i := 0;
    while i < |str|
      invariant 0 <= i <= |str| && |result| == i
      invariant forall k :: 0 <= k < i ==> result[k] == spec[k]
      invariant capitalizeNext <==> (i == 0 || str[i - 1] == ' ')
    {
      var c := str[i];
      assert spec[i] == if StartsWord(str, i) then Upper(c) else c;
      if capitalizeNext && c != ' ' {
        result := result + [Upper(c)];
        capitalizeNext := false;
      } else {
        result := result + [c];
      }
      if c == ' ' {
        capitalizeNext := true;
      }
      i := i + 1;
    }
    assert result == spec;
  }

  lemma UpperKeepsSpaces(c: char)
    ensures Upper(c) == ' ' <==> c == ' '
    ensures Upper(Upper(c)) == Upper(c)
  {
  }

  /** Capitalising every word twice is the same as doing it once. */
  lemma {:induction false} CapitalizedWordsIdempotent(s: string)
    ensures CapitalizedWords(CapitalizedWords(s)) == CapitalizedWords(s)
  {
    var r := CapitalizedWords(s);
    var rr := CapitalizedWords(r);
    forall i | 0 <= i < |s|
      ensures rr[i] == r[i]
    {
      UpperKeepsSpaces(s[i]);
      assert StartsWord(r, i) <==> StartsWord(s, i);
    }
  }

  /** On a single word (no spaces) both helpers agree. */
  lemma NoSpacesAgree(s: string)
    requires ' ' !in s
    ensures CapitalizedWords(s) == CapitalizeFirstLetter(s)
  {
    var r := CapitalizedWords(s);
    var q := CapitalizeFirstLetter(s);
    forall i | 0 <= i < |s|
      ensures r[i] == q[i]
    {
      assert s[i] in s;
      if i > 0 {
        assert s[i - 1] in s;
      }
    }
  }

  /** The empty string is left alone by both helpers. */
  lemma EmptyUnchanged()
    ensures CapitalizeFirstLetter("") == "" && CapitalizedWords("") == ""
  {
  }
}
