/**
 * The string helpers the tool applies to user answers and identifiers:
 * `String.prototype.trim`, ASCII case mapping, the GUID normaliser of
 * `guid()` and the slug suggestion of `ensureProjectConfig`.
 */
module Text {

  /** The code points `String.prototype.trim` strips: ECMAScript WhiteSpace and LineTerminator. */
  predicate IsTrimmable(c: char) {
    || c == '\t' || c == '\n' || c == '\U{000B}' || c == '\U{000C}' || c == '\r' || c == ' '
    || c == '\U{00A0}' || c == '\U{1680}' || ('\U{2000}' <= c <= '\U{200A}')
    || c == '\U{2028}' || c == '\U{2029}' || c == '\U{202F}' || c == '\U{205F}'
    || c == '\U{3000}' || c == '\U{FEFF}'
  }

  /** Drops the leading trimmable characters. */
  function TrimStart(s: string): (r: string)
    ensures |r| <= |s| && r == s[|s| - |r|..]
    ensures r == [] || !IsTrimmable(r[0])
    ensures forall i :: 0 <= i < |s| - |r| ==> IsTrimmable(s[i])
  {
    if |s| > 0 && IsTrimmable(s[0]) then TrimStart(s[1..]) else s
  }

  /** Drops the trailing trimmable characters. */
  function TrimEnd(s: string): (r: string)
    ensures |r| <= |s| && r == s[..|r|]
    ensures r == [] || !IsTrimmable(r[|r| - 1])
    ensures forall i :: |r| <= i < |s| ==> IsTrimmable(s[i])
  {
    if |s| > 0 && IsTrimmable(s[|s| - 1]) then TrimEnd(s[..|s| - 1]) else s
  }

  /** `String.prototype.trim`: trimmable characters removed from both ends. */
  function Trim(s: string): (r: string)
    ensures |r| <= |s|
    ensures r == [] || (!IsTrimmable(r[0]) && !IsTrimmable(r[|r| - 1]))
  {
    var t := TrimStart(s);
    var r := TrimEnd(t);
    assert r == [] || !IsTrimmable(r[0]) by {
      if r != [] { assert r[0] == t[0]; }
    }
    r
  }

  /**
   * The trimmed string is the infix of `s` starting at `k`, and everything
   * cut away on either side is trimmable.
   */
  lemma TrimIsInfix(s: string) returns (k: nat)
    ensures k + |Trim(s)| <= |s| && Trim(s) == s[k..k + |Trim(s)|]
    ensures forall i :: 0 <= i < k ==> IsTrimmable(s[i])
    ensures forall i :: k + |Trim(s)| <= i < |s| ==> IsTrimmable(s[i])
  {
    var t := TrimStart(s);
    k := |s| - |t|;
    var r := TrimEnd(t);
    assert Trim(s) == r;
    assert r == s[k..k + |r|] by {
      assert t == s[k..] && r == t[..|r|];
      assert s[k..][..|r|] == s[k..k + |r|];
    }
    forall i | k + |r| <= i < |s|
      ensures IsTrimmable(s[i])
    {
      assert s[i] == t[i - k];
    }
  }

  /** Trimming twice is trimming once. */
  lemma TrimIdempotent(s: string)
    ensures Trim(Trim(s)) == Trim(s)
  {
    var r := Trim(s);
    assert TrimStart(r) == r;
    assert TrimEnd(r) == r;
  }

  predicate IsUpperAscii(c: char) { 'A' <= c <= 'Z' }

  predicate IsLowerAscii(c: char) { 'a' <= c <= 'z' }

  function LowerChar(c: char): (d: char)
    ensures !IsUpperAscii(d)
  {
    if IsUpperAscii(c) then (c as int + 32) as char else c
  }

  function UpperChar(c: char): (d: char)
    ensures !IsLowerAscii(d)
  {
    if IsLowerAscii(c) then (c as int - 32) as char else c
  }

  /**
   * The two case mappings undo each other on the letters they move and
   * leave every other character alone; neither changes whether a character
   * is a word character.
   */
  lemma CaseRoundTrip(c: char)
    ensures IsLowerAscii(c) ==> IsUpperAscii(UpperChar(c)) && LowerChar(UpperChar(c)) == c
    ensures IsUpperAscii(c) ==> IsLowerAscii(LowerChar(c)) && UpperChar(LowerChar(c)) == c
    ensures !IsLowerAscii(c) && !IsUpperAscii(c) ==> LowerChar(c) == c && UpperChar(c) == c
    ensures IsWordChar(LowerChar(c)) <==> IsWordChar(c)
  {
  }

  /** `toLowerCase`, on the ASCII letters. */
  function ToLower(s: string): (r: string)
    ensures |r| == |s|
    ensures forall i :: 0 <= i < |s| ==> r[i] == LowerChar(s[i])
  {
    seq(|s|, i requires 0 <= i < |s| => LowerChar(s[i]))
  }

  /** An answer as the prompts compare it: `answer.trim().toLowerCase()`. */
  function Normalise(answer: string): string {
    ToLower(Trim(answer))
  }

  /** The answer counts as a yes exactly when, trimmed, it is a single `y` or `Y`. */
  lemma IsYesCharacterised(answer: string)
    ensures Normalise(answer) == "y" <==> Trim(answer) == "y" || Trim(answer) == "Y"
  {
    var t := Trim(answer);
    if Normalise(answer) == "y" {
      assert |t| == 1 && LowerChar(t[0]) == 'y';
      assert t == [t[0]];
    }
  }

  /**
   * `guid()`: the generated uuid with every '-' removed and every letter
   * upper-cased.
   */
  function NormaliseGuid(raw: string): (g: string)
    ensures |g| <= |raw|
    ensures forall i :: 0 <= i < |g| ==> g[i] != '-' && !IsLowerAscii(g[i])
  {
    if raw == [] then []
    else (if raw[0] == '-' then [] else [UpperChar(raw[0])]) + NormaliseGuid(raw[1..])
  }

  /** A string `guid()` leaves as it is: no dash and no lower-case letter. */
  predicate IsCanonicalGuid(g: string) {
    forall i :: 0 <= i < |g| ==> g[i] != '-' && !IsLowerAscii(g[i])
  }

  /** The fixed points of the normaliser are exactly the canonical strings. */
  lemma {:induction false} NormaliseGuidFixedPoints(s: string)
    ensures NormaliseGuid(s) == s <==> IsCanonicalGuid(s)
  {
    if s != [] {
      NormaliseGuidFixedPoints(s[1..]);
      if IsCanonicalGuid(s) {
        assert IsCanonicalGuid(s[1..]) by {
          forall i | 0 <= i < |s[1..]| ensures s[1..][i] != '-' && !IsLowerAscii(s[1..][i]) {
            assert s[1..][i] == s[i + 1];
          }
        }
        assert [s[0]] + s[1..] == s;
      } else if NormaliseGuid(s) == s {
        assert IsCanonicalGuid(NormaliseGuid(s));
      }
    }
  }

  /**
   * The normaliser works character by character: it distributes over
   * concatenation, drops a '-' and upper-cases any other character. With
   * these two facts the result is determined for every input.
   */
  lemma {:induction false} NormaliseGuidConcat(a: string, b: string)
    ensures NormaliseGuid(a + b) == NormaliseGuid(a) + NormaliseGuid(b)
    decreases |a|
  {
    if a == [] {
      assert a + b == b;
    } else {
      assert (a + b)[0] == a[0];
      assert (a + b)[1..] == a[1..] + b;
      NormaliseGuidConcat(a[1..], b);
      var h := if a[0] == '-' then [] else [UpperChar(a[0])];
      assert NormaliseGuid(a + b) == h + (NormaliseGuid(a[1..]) + NormaliseGuid(b));
      assert h + (NormaliseGuid(a[1..]) + NormaliseGuid(b)) == (h + NormaliseGuid(a[1..])) + NormaliseGuid(b);
    }
  }

  lemma NormaliseGuidChar(c: char)
    ensures NormaliseGuid([c]) == if c == '-' then [] else [UpperChar(c)]
  {
    assert [c][1..] == [];
  }

  /** A dash-free input keeps its length: nothing but the dashes is dropped. */
  lemma {:induction false} NormaliseGuidKeepsLength(raw: string)
    requires forall i :: 0 <= i < |raw| ==> raw[i] != '-'
    ensures |NormaliseGuid(raw)| == |raw|
    ensures forall i :: 0 <= i < |raw| ==> NormaliseGuid(raw)[i] == UpperChar(raw[i])
    decreases |raw|
  {
    if raw != [] {
      NormaliseGuidKeepsLength(raw[1..]);
    }
  }

  /** Normalising a GUID twice is normalising it once. */
  lemma NormaliseGuidIdempotent(raw: string)
    ensures NormaliseGuid(NormaliseGuid(raw)) == NormaliseGuid(raw)
  {
    NormaliseGuidFixedPoints(NormaliseGuid(raw));
  }

  /** A character the regular expression class `\w` matches. */
  predicate IsWordChar(c: char) {
    IsUpperAscii(c) || IsLowerAscii(c) || ('0' <= c <= '9') || c == '_'
  }

  /** The slug offered for a title: `title.toLowerCase().replace(/\W/g, "-")`. */
  function SuggestSlug(title: string): (slug: string)
    ensures |slug| == |title|
    ensures forall i :: 0 <= i < |slug| ==> slug[i] == '-' || (IsWordChar(slug[i]) && !IsUpperAscii(slug[i]))
    ensures forall i :: 0 <= i < |title| ==> (slug[i] == '-' <==> !IsWordChar(title[i]))
    ensures forall i :: 0 <= i < |title| && IsWordChar(title[i]) ==> slug[i] == LowerChar(title[i])
  {
    seq(|title|, i requires 0 <= i < |title| =>
      if IsWordChar(title[i]) then LowerChar(title[i]) else '-')
  }

  /** `.replace(/\W/g, "-")`: every character outside `\w` becomes '-'. */
  function ReplaceNonWord(s: string): (r: string)
    ensures |r| == |s|
    ensures forall i :: 0 <= i < |s| ==> r[i] == (if IsWordChar(s[i]) then s[i] else '-')
  {
    if s == [] then [] else [if IsWordChar(s[0]) then s[0] else '-'] + ReplaceNonWord(s[1..])
  }

  /**
   * The suggestion is the two string operations of the source composed:
   * lower-case the whole title, then replace the non-word characters.
   */
  lemma SuggestSlugIsLowerThenReplace(title: string)
    ensures SuggestSlug(title) == ReplaceNonWord(ToLower(title))
  {
    forall i | 0 <= i < |title|
      ensures SuggestSlug(title)[i] == ReplaceNonWord(ToLower(title))[i]
    {
      CaseRoundTrip(title[i]);
    }
  }

  /** A suggested slug is its own suggestion. */
  lemma SuggestSlugIdempotent(title: string)
    ensures SuggestSlug(SuggestSlug(title)) == SuggestSlug(title)
  {
  }
}
