/** The three string operations the components use: `toLowerCase` (on
    ASCII letters only), `includes` and `startsWith`. Strings are sequences
    of characters; there is no Unicode case folding. */
module Text {

  predicate IsUpperAscii(c: char) { 'A' <= c <= 'Z' }

  /** Lower-cases one ASCII capital letter; every other character is unchanged. */
  function LowerChar(c: char): (d: char)
    ensures !IsUpperAscii(d)
    ensures IsUpperAscii(c) ==> d as int == c as int + 32
    ensures !IsUpperAscii(c) ==> d == c
  {
    if IsUpperAscii(c) then (c as int + 32) as char else c
  }

  /** `s.toLowerCase()`, restricted to ASCII letters. */
  function ToLower(s: string): (r: string)
    ensures |r| == |s|
    ensures forall i :: 0 <= i < |s| ==> r[i] == LowerChar(s[i])
  {
    if s == [] then [] else [LowerChar(s[0])] + ToLower(s[1..])
  }

  /** Lower-casing twice is lower-casing once. */
  lemma ToLowerIdempotent(s: string)
    ensures ToLower(ToLower(s)) == ToLower(s)
  {
  }

  /** `s.startsWith(p)`: `s` is `p` followed by some rest. */
  predicate IsPrefix(p: string, s: string): (b: bool)
    ensures b <==> exists rest :: s == p + rest
  {
    var b := |p| <= |s| && s[..|p|] == p;
    assert b ==> s == p + s[|p|..];
    b
  }

  /** Every string contains the empty string, as `includes('')` is always true. */
  lemma ContainsEmpty(s: string)
    ensures Contains(s, "")
  {
    assert IsPrefix("", s);
  }

  /** `t` is the slice of `s` that starts at position `i`. */
  predicate OccursAt(s: string, t: string, i: int)
  {
    0 <= i <= |s| - |t| && s[i..i + |t|] == t
  }

  /** `t` occurs in a non-empty `s` either at its start or somewhere in its tail. */
  lemma OccursInTail(s: string, t: string)
    ensures (exists i :: OccursAt(s, t, i))
            <==> IsPrefix(t, s) || (s != [] && exists j :: OccursAt(s[1..], t, j))
  {
    if exists i :: OccursAt(s, t, i) {
      var i :| OccursAt(s, t, i);
      if i == 0 {
        assert s[..|t|] == t;
      } else {
        var u := s[1..];
        assert u[i - 1..i - 1 + |t|] == s[i..i + |t|];
        assert OccursAt(u, t, i - 1);
      }
    }
    if IsPrefix(t, s) {
      assert s[0..|t|] == s[..|t|];
      assert OccursAt(s, t, 0);
    } else if s != [] && exists j :: OccursAt(s[1..], t, j) {
      var j :| OccursAt(s[1..], t, j);
      assert s[j + 1..j + 1 + |t|] == s[1..][j..j + |t|];
      assert OccursAt(s, t, j + 1);
    }
  }

  /** `s.includes(t)`: `t` occurs in `s` at some position. */
  predicate Contains(s: string, t: string): (b: bool)
    decreases |s|
    ensures b <==> exists i :: OccursAt(s, t, i)
  {
    OccursInTail(s, t);
    IsPrefix(t, s) || (s != [] && Contains(s[1..], t))
  }
}
