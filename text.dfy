/** The few string operations the pipeline applies to region codes, ranks and match ids (ASCII only). */
module Text {

  function LowerChar(c: char): char {
    if 'A' <= c <= 'Z' then (c as int + 32) as char else c
  }

  function UpperChar(c: char): char {
    if 'a' <= c <= 'z' then (c as int - 32) as char else c
  }

  /** `s.lower()` */
  function Lower(s: string): string {
    seq(|s|, i requires 0 <= i < |s| => LowerChar(s[i]))
  }

  /** `s.upper()` */
  function Upper(s: string): string {
    seq(|s|, i requires 0 <= i < |s| => UpperChar(s[i]))
  }

  /** Upper-casing forgets an earlier lower-casing: `s.lower().upper() == s.upper()`. */
  lemma UpperOfLower(s: string)
    ensures Upper(Lower(s)) == Upper(s)
  {
    forall i | 0 <= i < |s|
      ensures Upper(Lower(s))[i] == Upper(s)[i]
    {
      var c := s[i];
      assert Lower(s)[i] == LowerChar(c);
      if 'A' <= c <= 'Z' {
        assert UpperChar(LowerChar(c)) == c == UpperChar(c);
      }
    }
  }

  /**
   * `s.split(sep)[0]`: the part of `s` before its first `sep`, or all of `s`
   * when it has none.
   */
  function SplitHead(s: string, sep: char): (head: string)
    ensures head <= s
    ensures sep !in head
    ensures |head| < |s| ==> s[|head|] == sep
  {
    if s == [] || s[0] == sep then [] else [s[0]] + SplitHead(s[1..], sep)
  }

  /** The head of `code + [sep] + rest` is `code` whenever `code` holds no `sep`. */
  lemma {:induction false} SplitHeadOfJoin(code: string, sep: char, rest: string)
    requires sep !in code
    ensures SplitHead(code + [sep] + rest, sep) == code
  {
    if code != [] {
      assert (code + [sep] + rest)[1..] == code[1..] + [sep] + rest;
      SplitHeadOfJoin(code[1..], sep, rest);
    }
  }

  /** A string without `sep` is its own head. */
  lemma {:induction false} SplitHeadWhole(s: string, sep: char)
    requires sep !in s
    ensures SplitHead(s, sep) == s
  {
    if s != [] {
      SplitHeadWhole(s[1..], sep);
    }
  }
}
