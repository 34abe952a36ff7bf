/** The two string operations the driver relies on: `in` on strings and `split(...)[-1]`. */
module Text {

  /** `s` ends with `suffix`. */
  predicate EndsWith(s: string, suffix: string) {
    |suffix| <= |s| && s[|s| - |suffix|..] == suffix
  }

  /**
   * Python's `sub in s` on two strings, as a scan over the offsets of `s`.
   * The empty string occurs in every string.
   */
  function Contains(s: string, sub: string): bool
    decreases |s|
  {
    if sub <= s then true
    else if s == [] then false
    else Contains(s[1..], sub)
  }

  /** The scan finds `sub` exactly when it occurs at some offset of `s`. */
  lemma {:induction false} ContainsOccurs(s: string, sub: string)
    ensures Contains(s, sub) <==> exists i :: 0 <= i <= |s| && sub <= s[i..]
    decreases |s|
  {
    if sub <= s {
      assert s[0..] == s;
    } else if s != [] {
      ContainsOccurs(s[1..], sub);
      if Contains(s[1..], sub) {
        var j :| 0 <= j <= |s[1..]| && sub <= s[1..][j..];
        assert s[1..][j..] == s[j + 1..];
      }
      if exists i :: 0 <= i <= |s| && sub <= s[i..] {
        var i :| 0 <= i <= |s| && sub <= s[i..];
        assert s[1..][i - 1..] == s[i..];
      }
    }
  }

  /**
   * Python's `s.split(sep)[-1]`: the text after the last `sep`, or the whole
   * of `s` when `sep` does not occur in it.
   */
  function LastField(s: string, sep: char): string
    decreases |s|
  {
    if s == [] then []
    else if s[|s| - 1] == sep then []
    else LastField(s[..|s| - 1], sep) + [s[|s| - 1]]
  }

  /**
   * The last field is a suffix of `s` holding no `sep`; it is preceded by a
   * `sep` when `s` has one, and is all of `s` otherwise.
   */
  lemma {:induction false} LastFieldSuffix(s: string, sep: char)
    ensures var r := LastField(s, sep);
      && |r| <= |s| && r == s[|s| - |r|..]
      && sep !in r
      && (sep in s ==> |r| < |s| && s[|s| - |r| - 1] == sep)
      && (sep !in s ==> r == s)
    decreases |s|
  {
    if s != [] && s[|s| - 1] != sep {
      var init := s[..|s| - 1];
      assert s == init + [s[|s| - 1]];
      LastFieldSuffix(init, sep);
      assert sep in s ==> sep in init;
    }
  }

  /**
   * A suffix that holds no `sep` and follows a `sep` is the last field:
   * the last field is the only such suffix.
   */
  lemma LastFieldUnique(s: string, sep: char, t: string)
    requires sep !in t && |t| < |s| && EndsWith(s, [sep] + t)
    ensures LastField(s, sep) == t
  {
    var r := LastField(s, sep);
    LastFieldSuffix(s, sep);
    assert s[|s| - |t| - 1] == ([sep] + t)[0] == sep;
    assert sep in s;
    assert t == s[|s| - |t|..] by {
      assert s[|s| - |t| - 1..] == [sep] + t;
      assert s[|s| - |t|..] == s[|s| - |t| - 1..][1..];
    }
  }
}
