/** The string operations the search filters use: `toLowerCase` and
    `includes`. */
module Text {

  /** Lower-case mapping of one character, for the letters of ASCII and of
      Latin-1 (`A`-`Z`, `À`-`Þ` except `×`); every other character maps to
      itself. */
  function LowerChar(c: char): (r: char)
    ensures 'A' <= c <= 'Z' ==> 'a' <= r <= 'z' && r as int == c as int + 32
    ensures !('A' <= c <= 'Z') && !('À' <= c <= 'Þ') ==> r == c
    ensures !('A' <= r <= 'Z') && !('À' <= r <= 'Þ' && r != '×')
  {
    if 'A' <= c <= 'Z' || ('À' <= c <= 'Þ' && c != '×') then (c as int + 32) as char else c
  }

  /** `s.toLowerCase()`, character by character. */
  function ToLower(s: string): (r: string)
    ensures |r| == |s| && forall i :: 0 <= i < |s| ==> r[i] == LowerChar(s[i])
  {
    seq(|s|, i requires 0 <= i < |s| => LowerChar(s[i]))
  }

  /** Lower-casing twice is lower-casing once. */
  lemma ToLowerIdempotent(s: string)
    ensures ToLower(ToLower(s)) == ToLower(s)
  {
  }

  /** `s` occurs in `t` starting at index `i`. */
  predicate OccursAt(t: string, s: string, i: nat)
  {
    i + |s| <= |t| && t[i..i + |s|] == s
  }

  /** `t.includes(s)`: `s` is a prefix of `t` or of one of its suffixes. */
  predicate Includes(t: string, s: string)
    ensures Includes(t, s) ==> |s| <= |t|
    decreases |t|
  {
    s <= t || (t != [] && Includes(t[1..], s))
  }

  /** An occurrence at any position makes `includes` hold. */
  lemma {:induction false} OccursIncludes(t: string, s: string, i: nat)
    requires OccursAt(t, s, i)
    ensures Includes(t, s)
    decreases i
  {
    if i == 0 {
      assert s == t[..|s|];
    } else {
      assert t[1..][i - 1..i - 1 + |s|] == t[i..i + |s|];
      OccursIncludes(t[1..], s, i - 1);
    }
  }

  /** `includes` holds exactly when there is a position where `s` occurs. */
  lemma {:induction false} IncludesIffOccurs(t: string, s: string)
    ensures Includes(t, s) <==> exists i: nat :: OccursAt(t, s, i)
    decreases |t|
  {
    if s <= t {
      assert OccursAt(t, s, 0);
    } else if t != [] {
      IncludesIffOccurs(t[1..], s);
      if Includes(t[1..], s) {
        var i: nat :| OccursAt(t[1..], s, i);
        assert t[1..][i..i + |s|] == t[i + 1..i + 1 + |s|];
        assert OccursAt(t, s, i + 1);
      }
    }
    forall i: nat | OccursAt(t, s, i) ensures Includes(t, s) {
      OccursIncludes(t, s, i);
    }
  }

  lemma IncludesEmpty(t: string)
    ensures Includes(t, "")
  {
  }
}
