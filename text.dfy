/** Substring search with the meaning of JavaScript's `String.prototype.includes`. */
module Text {

  /** `s.includes(m)`: `m` occurs in `s` starting at some index. */
  predicate Contains(s: string, m: string)
  {
    exists i :: 0 <= i <= |s| - |m| && OccursAt(s, m, i)
  }

  /** `m` occurs in `s` starting at index `i`. */
  predicate OccursAt(s: string, m: string, i: int)
  {
    0 <= i <= |s| - |m| && s[i..i + |m|] == m
  }

  /** `s.startsWith(m)`. */
  predicate StartsWith(s: string, m: string)
  {
    |m| <= |s| && s[..|m|] == m
  }

  /** `m` begins with a slash and has no other slash. */
  predicate SlashOnlyFirst(m: string)
  {
    |m| > 0 && m[0] == '/' && forall k :: 0 < k < |m| ==> m[k] != '/'
  }

  lemma StartsWithContains(s: string, m: string)
    requires StartsWith(s, m)
    ensures Contains(s, m)
  {
    assert OccursAt(s, m, 0);
  }

  lemma ContainsAppend(a: string, b: string, m: string)
    requires Contains(b, m)
    ensures Contains(a + b, m)
  {
    var i :| OccursAt(b, m, i);
    assert OccursAt(b, m, i);
    assert (a + b)[|a| + i..|a| + i + |m|] == b[i..i + |m|];
    assert OccursAt(a + b, m, |a| + i);
  }

  /** A marker that starts with its only slash cannot be found across the seam
      of `a + b` when `b` starts with a slash: it lies in `a` or in `b`. */
  lemma {:induction false} NotContainsConcat(a: string, b: string, m: string)
    requires SlashOnlyFirst(m)
    requires |b| > 0 && b[0] == '/'
    requires !Contains(a, m) && !Contains(b, m)
    ensures !Contains(a + b, m)
  {
    forall i | 0 <= i <= |a + b| - |m|
      ensures !OccursAt(a + b, m, i)
    {
      if i + |m| <= |a| {
        assert (a + b)[i..i + |m|] == a[i..i + |m|];
        assert !OccursAt(a, m, i);
      } else if i >= |a| {
        assert (a + b)[i..i + |m|] == b[i - |a|..i - |a| + |m|];
        assert !OccursAt(b, m, i - |a|);
      } else {
        var k := |a| - i;
        assert (a + b)[i..i + |m|][k] == b[0] != m[k];
      }
    }
  }

  /** In a string whose only slash is its first character, a slash-led marker
      can only occur at the start. */
  lemma {:induction false} SlashLedContainsIsPrefix(s: string, m: string)
    requires SlashOnlyFirst(s) && SlashOnlyFirst(m)
    ensures Contains(s, m) <==> StartsWith(s, m)
  {
    if Contains(s, m) {
      var i :| OccursAt(s, m, i);
      assert OccursAt(s, m, i);
      assert s[i] == m[0];
      assert i == 0;
      assert s[..|m|] == m;
    }
    if StartsWith(s, m) {
      StartsWithContains(s, m);
    }
  }
}
