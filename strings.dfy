/**
 * The two functions of Go's `strings` package that the scheduler uses,
 * `ToLower` and `Contains`, restricted to ASCII letter case.
 */
module Strings {

  /** Lower-cases one ASCII letter; every other character is left alone. */
  function LowerChar(c: char): char
  {
    if 'A' <= c <= 'Z' then (c as int + 32) as char else c
  }

  /** Upper-cases one ASCII letter; every other character is left alone. */
  function UpperChar(c: char): char
  {
    if 'a' <= c <= 'z' then (c as int - 32) as char else c
  }

  /**
   * Lower-cases every ASCII letter of `s`, keeping its length: an upper-case
   * letter becomes the letter 32 code points above it, and every other
   * character stays as it is.
   */
  function ToLower(s: string): (r: string)
    ensures |r| == |s|
    ensures forall i :: 0 <= i < |s| ==>
      if 'A' <= s[i] <= 'Z' then r[i] as int == s[i] as int + 32 else r[i] == s[i]
    ensures forall i :: 0 <= i < |r| ==> !('A' <= r[i] <= 'Z')
  {
    seq(|s|, i requires 0 <= i < |s| => LowerChar(s[i]))
  }

  /**
   * Upper-cases every ASCII letter of `s`, keeping its length: a lower-case
   * letter becomes the letter 32 code points below it, and every other
   * character stays as it is.
   */
  function ToUpper(s: string): (r: string)
    ensures |r| == |s|
    ensures forall i :: 0 <= i < |s| ==>
      if 'a' <= s[i] <= 'z' then r[i] as int == s[i] as int - 32 else r[i] == s[i]
    ensures forall i :: 0 <= i < |r| ==> !('a' <= r[i] <= 'z')
  {
    seq(|s|, i requires 0 <= i < |s| => UpperChar(s[i]))
  }

  /** Lower-casing changes a string exactly when it holds an upper-case ASCII letter. */
  lemma ToLowerFixed(s: string)
    ensures ToLower(s) == s <==> forall i :: 0 <= i < |s| ==> !('A' <= s[i] <= 'Z')
  {
    if ToLower(s) != s {
      var i :| 0 <= i < |s| && ToLower(s)[i] != s[i];
      assert 'A' <= s[i] <= 'Z';
    }
  }

  /** `t` occurs in `s` starting at offset `i`. */
  ghost predicate OccursAt(s: string, t: string, i: int)
  {
    0 <= i && i + |t| <= |s| && s[i..i + |t|] == t
  }

  /** Go's `strings.Contains(s, t)`: tries every offset of `s` in turn. */
  function Contains(s: string, t: string): (r: bool)
    ensures t <= s ==> r
    ensures r ==> |t| <= |s|
    decreases |s|
  {
    if t <= s then true
    else if |s| == 0 then false
    else Contains(s[1..], t)
  }

  /** `Contains` is substring containment: some offset of `s` holds `t`. */
  lemma {:induction false} ContainsIff(s: string, t: string)
    ensures Contains(s, t) <==> exists i :: OccursAt(s, t, i)
    decreases |s|
  {
    if t <= s {
      assert s[0..|t|] == t;
      assert OccursAt(s, t, 0);
    } else if |s| > 0 {
      ContainsIff(s[1..], t);
      forall i | OccursAt(s, t, i)
        ensures OccursAt(s[1..], t, i - 1)
      {
        assert s[1..][i - 1..i - 1 + |t|] == s[i..i + |t|];
      }
      forall j | OccursAt(s[1..], t, j)
        ensures OccursAt(s, t, j + 1)
      {
        assert s[j + 1..j + 1 + |t|] == s[1..][j..j + |t|];
      }
    }
  }

  /** The empty string is contained in every string. */
  lemma ContainsEmpty(s: string)
    ensures Contains(s, "")
  {
  }

  /** A string longer than `s` is never contained in it. */
  lemma {:induction false} ContainsTooLong(s: string, t: string)
    requires |t| > |s|
    ensures !Contains(s, t)
    decreases |s|
  {
    if |s| > 0 {
      ContainsTooLong(s[1..], t);
    }
  }

  /** Lower-casing forgets whether a letter was upper- or lower-case. */
  lemma LowerOfUpper(s: string)
    ensures ToLower(ToUpper(s)) == ToLower(s)
  {
  }
}
