/** The few pieces of Python string behaviour the controller depends on. */
module PyStrings {
  /** `sub` occurs in `s` starting at index `i`. */
  predicate OccursAt(s: string, sub: string, i: int) {
    0 <= i && i + |sub| <= |s| && s[i..i + |sub|] == sub
  }

  /** Python's `sub in s` on two strings. */
  predicate Contains(s: string, sub: string) {
    exists i :: 0 <= i <= |s| - |sub| && OccursAt(s, sub, i)
  }

  /** `str(KeyError(key))` for a string key: the key between single quotes
      (none of the escaping `repr` applies is modelled: the choice of quotes,
      backslashes, and non-printable characters written as `\xNN`). */
  function KeyErrorMessage(key: string): string {
    "'" + key + "'"
  }

  /** A string built around `sub` contains it. */
  lemma ContainsSplice(a: string, sub: string, b: string)
    ensures Contains(a + sub + b, sub)
  {
    var s := a + sub + b;
    assert s[|a|..|a| + |sub|] == sub;
    assert OccursAt(s, sub, |a|);
  }

  /** A string lacking the first character of `sub` does not contain `sub`. */
  lemma AbsentFirstChar(s: string, sub: string)
    requires sub != [] && sub[0] !in s
    ensures !Contains(s, sub)
  {
  }

  /** Quoting a key for a KeyError adds no occurrence of a quote-free string:
      the text of the KeyError contains `sub` exactly when the key does. */
  lemma {:induction false} KeyErrorContains(key: string, sub: string)
    requires '\'' !in sub
    ensures Contains(KeyErrorMessage(key), sub) <==> Contains(key, sub)
  {
    var q := KeyErrorMessage(key);
    assert |q| == |key| + 2 && q[0] == '\'' && q[|q| - 1] == '\'';
    assert forall k :: 0 <= k < |key| ==> q[k + 1] == key[k];
    if Contains(key, sub) {
      var i :| 0 <= i <= |key| - |sub| && OccursAt(key, sub, i);
      assert q[i + 1..i + 1 + |sub|] == key[i..i + |sub|];
      assert OccursAt(q, sub, i + 1);
    }
    if Contains(q, sub) {
      var j :| 0 <= j <= |q| - |sub| && OccursAt(q, sub, j);
      if sub == [] {
        assert OccursAt(key, sub, 0);
      } else {
        assert q[j..j + |sub|][0] == q[j] == sub[0];
        assert j != 0;
        assert q[j..j + |sub|][|sub| - 1] == q[j + |sub| - 1] == sub[|sub| - 1];
        assert j + |sub| - 1 != |q| - 1;
        assert key[j - 1..j - 1 + |sub|] == q[j..j + |sub|];
        assert OccursAt(key, sub, j - 1);
      }
    }
  }
}
