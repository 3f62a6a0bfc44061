/**
 * The .NET string operations the view models rely on, with ordinal
 * (character-by-character) comparison: blank checks, substring search,
 * replacement of every occurrence, suffix tests and joining.
 */
module Text {

  /** `char.IsWhiteSpace`: the Unicode space, line and paragraph separators plus U+0009..U+000D and U+0085. */
  predicate IsWhiteSpace(c: char) {
    ('\t' <= c <= '\r') || c == ' ' || c == '\U{0085}' || c == '\U{00A0}' || c == '\U{1680}'
    || ('\U{2000}' <= c <= '\U{200A}') || c == '\U{2028}' || c == '\U{2029}'
    || c == '\U{202F}' || c == '\U{205F}' || c == '\U{3000}'
  }

  /** `string.IsNullOrWhiteSpace`; the empty string is blank. */
  predicate IsBlank(s: string) {
    forall i :: 0 <= i < |s| ==> IsWhiteSpace(s[i])
  }

  predicate StartsWith(s: string, prefix: string) {
    |prefix| <= |s| && s[..|prefix|] == prefix
  }

  /** `string.EndsWith`, compared ordinally. */
  predicate EndsWith(s: string, suffix: string) {
    |suffix| <= |s| && s[|s| - |suffix|..] == suffix
  }

  /** `string.Contains`: `t` occurs in `s` at some position (the empty string occurs everywhere). */
  predicate Contains(s: string, t: string)
    decreases |s|
  {
    StartsWith(s, t) || (|s| > 0 && Contains(s[1..], t))
  }

  /** The position-based reading of `Contains`. */
  predicate OccursAt(s: string, t: string, i: int) {
    0 <= i && i + |t| <= |s| && s[i..i + |t|] == t
  }

  lemma {:induction false} ContainsIffOccurs(s: string, t: string)
    ensures Contains(s, t) <==> exists i :: OccursAt(s, t, i)
  {
    if Contains(s, t) {
      var i := ContainsWitness(s, t);
      assert OccursAt(s, t, i);
    }
    if exists i :: OccursAt(s, t, i) {
      var i :| OccursAt(s, t, i);
      OccursContains(s, t, i);
    }
  }

  lemma {:induction false} ContainsWitness(s: string, t: string) returns (i: int)
    requires Contains(s, t)
    ensures OccursAt(s, t, i)
    decreases |s|
  {
    if StartsWith(s, t) {
      i := 0;
    } else {
      var j := ContainsWitness(s[1..], t);
      assert s[j + 1..j + 1 + |t|] == s[1..][j..j + |t|];
      i := j + 1;
    }
  }

  lemma {:induction false} OccursContains(s: string, t: string, i: int)
    requires OccursAt(s, t, i)
    ensures Contains(s, t)
    decreases |s|
  {
    if i > 0 {
      assert s[1..][i - 1..i - 1 + |t|] == s[i..i + |t|];
      OccursContains(s[1..], t, i - 1);
    }
  }

  /** A substring of either half is a substring of the concatenation. */
  lemma ContainsInConcat(a: string, b: string, t: string)
    requires Contains(a, t) || Contains(b, t)
    ensures Contains(a + b, t)
  {
    ContainsIffOccurs(a, t);
    ContainsIffOccurs(b, t);
    ContainsIffOccurs(a + b, t);
    if Contains(a, t) {
      var i :| OccursAt(a, t, i);
      assert (a + b)[i..i + |t|] == a[i..i + |t|];
      assert OccursAt(a + b, t, i);
    } else {
      var i :| OccursAt(b, t, i);
      assert (a + b)[|a| + i..|a| + i + |t|] == b[i..i + |t|];
      assert OccursAt(a + b, t, |a| + i);
    }
  }

  /**
   * `string.Replace(key, value)` with ordinal comparison: scanning from the
   * left, every occurrence of `key` that does not overlap an earlier one is
   * replaced by `value`; the replacement text is not scanned again. .NET
   * rejects an empty key, hence the precondition.
   */
  function Replace(s: string, key: string, value: string): string
    requires |key| > 0
    decreases |s|
  {
    if |s| == 0 then ""
    else if StartsWith(s, key) then value + Replace(s[|key|..], key, value)
    else [s[0]] + Replace(s[1..], key, value)
  }

  /** Replacing a key that does not occur changes nothing. */
  lemma {:induction false} ReplaceAbsent(s: string, key: string, value: string)
    requires |key| > 0
    requires !Contains(s, key)
    ensures Replace(s, key, value) == s
    decreases |s|
  {
    if |s| > 0 {
      ReplaceAbsent(s[1..], key, value);
    }
  }

  /** Replacing a key by itself changes nothing. */
  lemma {:induction false} ReplaceBySelf(s: string, key: string)
    requires |key| > 0
    ensures Replace(s, key, key) == s
    decreases |s|
  {
    if |s| == 0 {
    } else if StartsWith(s, key) {
      ReplaceBySelf(s[|key|..], key);
      assert s == s[..|key|] + s[|key|..];
    } else {
      ReplaceBySelf(s[1..], key);
    }
  }

  /** When an occurrence exists, replacing it by a value of another length changes the string. */
  lemma {:induction false} ReplaceChangesLength(s: string, key: string, value: string)
    requires |key| > 0 && |value| != |key|
    ensures Contains(s, key) <==> |Replace(s, key, value)| != |s|
    decreases |s|
  {
    if |s| > 0 && !StartsWith(s, key) {
      ReplaceChangesLength(s[1..], key, value);
    } else if |s| > 0 {
      ReplaceGrowth(s[|key|..], key, value);
    }
  }

  /** Each step of `Replace` moves the length in the direction of `|value| - |key|` (or keeps it). */
  lemma {:induction false} ReplaceGrowth(s: string, key: string, value: string)
    requires |key| > 0
    ensures |value| > |key| ==> |Replace(s, key, value)| >= |s|
    ensures |value| < |key| ==> |Replace(s, key, value)| <= |s|
    decreases |s|
  {
    if |s| == 0 {
    } else if StartsWith(s, key) {
      ReplaceGrowth(s[|key|..], key, value);
    } else {
      ReplaceGrowth(s[1..], key, value);
    }
  }

  /** The character `c` does not occur in `s`. */
  predicate Lacks(s: string, c: char) {
    forall i :: 0 <= i < |s| ==> s[i] != c
  }

  /** A prefix in which the key's first character never appears is copied unchanged. */
  lemma {:induction false} ReplaceSkipsPrefix(a: string, b: string, key: string, value: string)
    requires |key| > 0 && Lacks(a, key[0])
    ensures Replace(a + b, key, value) == a + Replace(b, key, value)
    decreases |a|
  {
    if |a| > 0 {
      var s := a + b;
      assert s[0] == a[0];
      assert |key| <= |s| ==> s[..|key|][0] == s[0];
      assert s[1..] == a[1..] + b;
      ReplaceSkipsPrefix(a[1..], b, key, value);
    } else {
      assert a + b == b;
    }
  }

  /** An occurrence at the front is replaced and scanning resumes after it. */
  lemma ReplaceAtKey(key: string, b: string, value: string)
    requires |key| > 0
    ensures Replace(key + b, key, value) == value + Replace(b, key, value)
  {
    var s := key + b;
    assert s[..|key|] == key && s[|key|..] == b;
  }

  /** Text before the first occurrence is copied, the occurrence replaced, and scanning resumes after it. */
  lemma {:induction false} ReplaceFirstOccurrence(a: string, key: string, b: string, value: string)
    requires |key| > 0
    requires forall i :: 0 <= i < |a| ==> !StartsWith((a + key + b)[i..], key)
    ensures Replace(a + key + b, key, value) == a + value + Replace(b, key, value)
    decreases |a|
  {
    var s := a + key + b;
    if |a| == 0 {
      assert s == key + b;
      ReplaceAtKey(key, b, value);
    } else {
      assert s[0..] == s;
      assert s[1..] == a[1..] + key + b;
      forall i | 0 <= i < |a[1..]| ensures !StartsWith((a[1..] + key + b)[i..], key) {
        assert (a[1..] + key + b)[i..] == s[i + 1..];
      }
      ReplaceFirstOccurrence(a[1..], key, b, value);
      assert a + value + Replace(b, key, value) == [a[0]] + (a[1..] + value + Replace(b, key, value));
    }
  }

  /** The first occurrence after a prefix lacking the key's first character is the one replaced. */
  lemma ReplaceAfterLacking(a: string, key: string, b: string, value: string)
    requires |key| > 0 && Lacks(a, key[0])
    ensures Replace(a + key + b, key, value) == a + value + Replace(b, key, value)
  {
    forall i | 0 <= i < |a| ensures !StartsWith((a + key + b)[i..], key) {
      assert (a + key + b)[i..][0] == a[i];
    }
    ReplaceFirstOccurrence(a, key, b, value);
  }

  /** Text lacking the key's first character is left unchanged. */
  lemma ReplaceLacking(a: string, key: string, value: string)
    requires |key| > 0 && Lacks(a, key[0])
    ensures Replace(a, key, value) == a
  {
    ReplaceSkipsPrefix(a, "", key, value);
    assert a + "" == a;
  }

  /** A string lacking the key's first character does not contain the key. */
  lemma {:induction false} LackingNotContains(s: string, key: string)
    requires |key| > 0 && Lacks(s, key[0])
    ensures !Contains(s, key)
    decreases |s|
  {
    assert |key| <= |s| ==> s[..|key|][0] == s[0];
    if |s| > 0 {
      LackingNotContains(s[1..], key);
    }
  }

  /** If the key's first character can only match at the front, and the key is not there, it is absent. */
  lemma AbsentUnlessAtFront(s: string, key: string)
    requires |key| > 0 && |s| > 0 && !StartsWith(s, key) && Lacks(s[1..], key[0])
    ensures !Contains(s, key)
  {
    LackingNotContains(s[1..], key);
  }

  /** A string cannot contain a longer one. */
  lemma ContainsShorter(s: string, t: string)
    requires Contains(s, t)
    ensures |t| <= |s|
  {
    var i := ContainsWitness(s, t);
  }

  /** `string.Concat` over a sequence of strings. */
  function Concat(parts: seq<string>): (r: string)
    ensures forall i :: 0 <= i < |parts| ==> |parts[i]| <= |r|
  {
    if parts == [] then "" else parts[0] + Concat(parts[1..])
  }

  /** `string.Join(separator, items)`. */
  function Join(items: seq<string>, separator: string): string {
    if |items| == 0 then ""
    else if |items| == 1 then items[0]
    else items[0] + separator + Join(items[1..], separator)
  }
}
