/** The few JavaScript string rules the session coordinator relies on:
    truthiness of an optional string, `String.prototype.includes` and
    `String.prototype.endsWith`. */
module JsStrings {
  import opened Wrappers

  /** `!!v` for a value that is a string, `null` or `undefined`: the empty
      string is falsy in JavaScript. */
  predicate Truthy(v: Option<string>)
  {
    v.Some? && v.value != ""
  }

  /** `s.startsWith(p)`. */
  predicate StartsWith(s: string, p: string)
  {
    |p| <= |s| && s[..|p|] == p
  }

  /** `s.includes(sub)`, as a left-to-right scan of the start positions. */
  predicate Includes(s: string, sub: string)
    decreases |s|
  {
    StartsWith(s, sub) || (|s| > 0 && Includes(s[1..], sub))
  }

  /** `s.endsWith(suf)`. */
  predicate EndsWith(s: string, suf: string)
  {
    |suf| <= |s| && s[|s| - |suf|..] == suf
  }

  /** `sub` occurs in `s` at position `i`. */
  ghost predicate OccursAt(s: string, sub: string, i: int)
  {
    0 <= i && i + |sub| <= |s| && s[i..i + |sub|] == sub
  }

  /** The scan agrees with the positional definition of an occurrence, in both directions. */
  lemma {:induction false} IncludesIffOccurs(s: string, sub: string)
    ensures Includes(s, sub) <==> exists i :: OccursAt(s, sub, i)
    decreases |s|
  {
    if StartsWith(s, sub) {
      assert OccursAt(s, sub, 0);
    } else if |s| > 0 {
      IncludesIffOccurs(s[1..], sub);
      if exists i :: OccursAt(s[1..], sub, i) {
        var i :| OccursAt(s[1..], sub, i);
        assert s[i + 1..i + 1 + |sub|] == s[1..][i..i + |sub|];
        assert OccursAt(s, sub, i + 1);
      }
      if exists i :: OccursAt(s, sub, i) {
        var i :| OccursAt(s, sub, i);
        assert i != 0;
        assert s[1..][i - 1..i - 1 + |sub|] == s[i..i + |sub|];
        assert OccursAt(s[1..], sub, i - 1);
      }
    }
  }

  /** Appending `sub` to any string yields one that includes `sub`. */
  lemma {:induction false} IncludesAppended(p: string, sub: string)
    ensures Includes(p + sub, sub)
    decreases |p|
  {
    if p == [] {
      assert p + sub == sub;
      assert StartsWith(sub, sub);
    } else {
      assert (p + sub)[1..] == p[1..] + sub;
      IncludesAppended(p[1..], sub);
    }
  }

  /** `endsWith` holds exactly when the string is some prefix followed by the suffix. */
  lemma EndsWithIffSplit(s: string, suf: string)
    ensures EndsWith(s, suf) <==> exists pre :: s == pre + suf
  {
    if EndsWith(s, suf) {
      assert s == s[..|s| - |suf|] + suf;
    }
    if exists pre :: s == pre + suf {
      var pre :| s == pre + suf;
      assert s[|s| - |suf|..] == suf;
    }
  }
}
