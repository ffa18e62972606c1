/**
 * String predicates used by the downloader: Python's substring test
 * (`sub in s`), `str.endswith`, and the case folding behind
 * `argv[-2].lower() == 'true'`.
 */
module Text {

  /** `sub` occurs in `s` starting at index `i`. */
  ghost predicate OccursAt(s: string, sub: string, i: int)
  {
    0 <= i && i + |sub| <= |s| && s[i..i + |sub|] == sub
  }

  /** Python's `sub in s` for strings. */
  function Contains(s: string, sub: string): bool
    decreases |s|
  {
    if |sub| > |s| then false
    else if s[..|sub|] == sub then true
    else Contains(s[1..], sub)
  }

  /** `Contains` holds exactly when `sub` occurs somewhere in `s`. */
  lemma {:induction false} ContainsIff(s: string, sub: string)
    ensures Contains(s, sub) <==> exists i :: OccursAt(s, sub, i)
    decreases |s|
  {
    if |sub| <= |s| {
      if s[..|sub|] == sub {
        assert OccursAt(s, sub, 0);
      } else {
        ContainsIff(s[1..], sub);
        assert forall j :: OccursAt(s[1..], sub, j) <==> OccursAt(s, sub, j + 1);
        assert !OccursAt(s, sub, 0);
        assert forall i :: OccursAt(s, sub, i) ==> i >= 1 && OccursAt(s[1..], sub, i - 1);
      }
    }
  }

  /** Python's `s.endswith(suffix)`. */
  predicate EndsWith(s: string, suffix: string)
  {
    |suffix| <= |s| && s[|s| - |suffix|..] == suffix
  }

  /** `EndsWith` holds exactly when `s` is some string followed by `suffix`. */
  lemma EndsWithIff(s: string, suffix: string)
    ensures EndsWith(s, suffix) <==> exists p :: s == p + suffix
  {
    if EndsWith(s, suffix) {
      var p := s[..|s| - |suffix|];
      assert s == p + suffix;
    }
    if exists p :: s == p + suffix {
      var p :| s == p + suffix;
      assert s[|s| - |suffix|..] == suffix;
    }
  }

  /** Lower-cases the ASCII capitals 'A'..'Z' and leaves every other character alone. */
  function LowerChar(c: char): char
  {
    if 'A' <= c <= 'Z' then (c as int + 32) as char else c
  }

  /** `str.lower()` restricted to ASCII case folding. */
  function AsciiLower(s: string): (r: string)
    ensures |r| == |s|
  {
    seq(|s|, i requires 0 <= i < |s| => LowerChar(s[i]))
  }

  /** `s` is the word "true" in some mix of upper and lower case. */
  predicate SpellsTrue(s: string)
  {
    |s| == 4 && s[0] in "tT" && s[1] in "rR" && s[2] in "uU" && s[3] in "eE"
  }

  /**
   * The flag test of the command line: the lower-cased argument equals
   * "true" exactly when it is "true" spelled in any mix of cases.
   */
  lemma LowerIsTrueIff(s: string)
    ensures AsciiLower(s) == "true" <==> SpellsTrue(s)
  {
    var r := AsciiLower(s);
    if |s| == 4 {
      assert r[0] == LowerChar(s[0]) && r[1] == LowerChar(s[1]);
      assert r[2] == LowerChar(s[2]) && r[3] == LowerChar(s[3]);
      if r == "true" {
        assert r[0] == 't' && r[1] == 'r' && r[2] == 'u' && r[3] == 'e';
      }
    }
  }
}
