/** The two string operations the application's classifiers are built from: ASCII lower-casing
    (the model of `toLowerCase`) and substring search (the model of `includes`). */
module Text {

  function LowerChar(c: char): char
  {
    if 'A' <= c <= 'Z' then (c as int + 32) as char else c
  }

  /** ASCII lower-casing: upper-case Latin letters become lower-case, every other character is kept. */
  function Lower(s: string): (r: string)
    ensures |r| == |s|
    ensures forall i :: 0 <= i < |s| ==> r[i] == LowerChar(s[i])
    ensures forall i :: 0 <= i < |r| ==> !('A' <= r[i] <= 'Z')
  {
    if s == [] then [] else [LowerChar(s[0])] + Lower(s[1..])
  }

  lemma {:induction false} LowerIdempotent(s: string)
    ensures Lower(Lower(s)) == Lower(s)
  {
    var l := Lower(s);
    assert |Lower(l)| == |l|;
    forall i | 0 <= i < |l| ensures Lower(l)[i] == l[i] {
      assert !('A' <= l[i] <= 'Z');
    }
  }

  /** `t` occurs in `s` starting at index `i`. */
  ghost predicate OccursAt(s: string, t: string, i: int)
  {
    0 <= i && i + |t| <= |s| && s[i..i + |t|] == t
  }

  /** Substring search: true exactly when `t` occurs somewhere in `s` (the empty string occurs everywhere). */
  function Contains(s: string, t: string): (r: bool)
    ensures r <==> exists i :: OccursAt(s, t, i)
    decreases |s|
  {
    if |t| > |s| then false
    else if s[..|t|] == t then
      assert OccursAt(s, t, 0);
      true
    else
      var r := Contains(s[1..], t);
      assert r ==> exists i :: OccursAt(s, t, i) by {
        if r {
          var i :| OccursAt(s[1..], t, i);
          assert s[1..][i..i + |t|] == s[i + 1..i + 1 + |t|];
          assert OccursAt(s, t, i + 1);
        }
      }
      assert (exists i :: OccursAt(s, t, i)) ==> r by {
        if exists i :: OccursAt(s, t, i) {
          var i :| OccursAt(s, t, i);
          assert i != 0;
          assert s[1..][i - 1..i - 1 + |t|] == s[i..i + |t|];
          assert OccursAt(s[1..], t, i - 1);
        }
      }
      r
  }

  /** `t` occurs in `s` starting at index `i` when ASCII case is ignored: each character of `s`
      there lower-cases to the matching character of `t`. */
  ghost predicate OccursIgnoringCase(s: string, t: string, i: int)
  {
    0 <= i && i + |t| <= |s| && forall k :: 0 <= k < |t| ==> LowerChar(s[i + k]) == t[k]
  }

  /** `t` occurs somewhere in `s` when ASCII case is ignored. */
  ghost predicate ContainsIgnoringCase(s: string, t: string)
  {
    exists i :: OccursIgnoringCase(s, t, i)
  }

  /** At one index, an occurrence in the lower-cased text is an occurrence ignoring case. */
  lemma LowerOccursAt(s: string, t: string, i: int)
    ensures OccursAt(Lower(s), t, i) <==> OccursIgnoringCase(s, t, i)
  {
    var l := Lower(s);
    if OccursAt(l, t, i) {
      forall k | 0 <= k < |t| ensures LowerChar(s[i + k]) == t[k] {
        assert l[i..i + |t|][k] == l[i + k];
      }
    }
    if OccursIgnoringCase(s, t, i) {
      assert l[i..i + |t|] == t;
    }
  }

  /** Searching the lower-cased text (`s.toLowerCase().includes(t)`) finds exactly the
      occurrences of `t` in `s` in any ASCII case. */
  lemma LowerContainsIgnoresCase(s: string, t: string)
    ensures Contains(Lower(s), t) <==> ContainsIgnoringCase(s, t)
  {
    if Contains(Lower(s), t) {
      var i :| OccursAt(Lower(s), t, i);
      LowerOccursAt(s, t, i);
    }
    if ContainsIgnoringCase(s, t) {
      var i :| OccursIgnoringCase(s, t, i);
      LowerOccursAt(s, t, i);
    }
  }

  /** A string occurs at the start of any string it begins. */
  lemma {:induction false} ContainsPrefix(t: string, b: string)
    ensures Contains(t + b, t)
  {
    assert (t + b)[0..|t|] == t;
    assert OccursAt(t + b, t, 0);
  }

  /** Putting text in front of a string keeps every occurrence in it. */
  lemma {:induction false} ContainsExtendLeft(a: string, b: string, t: string)
    requires Contains(b, t)
    ensures Contains(a + b, t)
  {
    var i :| OccursAt(b, t, i);
    assert (a + b)[|a| + i..|a| + i + |t|] == b[i..i + |t|];
    assert OccursAt(a + b, t, |a| + i);
  }

  /** The concatenation of a list of strings. */
  function Join(parts: seq<string>): string
  {
    if parts == [] then "" else parts[0] + Join(parts[1..])
  }

  /** Each part of a list occurs in the list's concatenation. */
  lemma {:induction false} JoinContainsPart(parts: seq<string>, k: nat)
    requires k < |parts|
    ensures Contains(Join(parts), parts[k])
  {
    if k == 0 {
      ContainsPrefix(parts[0], Join(parts[1..]));
    } else {
      JoinContainsPart(parts[1..], k - 1);
      ContainsExtendLeft(parts[0], Join(parts[1..]), parts[k]);
    }
  }

  /** Lower-casing cannot produce a lower-case letter whose two case forms are both absent. */
  lemma LowerKeepsLetterAbsent(s: string, c: char)
    requires 'a' <= c <= 'z'
    requires c !in s && (c as int - 32) as char !in s
    ensures c !in Lower(s)
  {
    var l := Lower(s);
    forall i | 0 <= i < |l| ensures l[i] != c {
      assert s[i] in s;
    }
  }

  /** A string whose lower-cased start spells `t` contains `t` once lower-cased. */
  lemma LowerStartsWith(s: string, t: string)
    requires |t| <= |s| && forall k :: 0 <= k < |t| ==> LowerChar(s[k]) == t[k]
    ensures Contains(Lower(s), t)
  {
    assert Lower(s)[0..|t|] == t;
    assert OccursAt(Lower(s), t, 0);
  }

  /** A string lacking some character of `t` cannot contain `t`. */
  lemma {:induction false} MissingCharNotContained(s: string, t: string, c: char)
    requires c in t && c !in s
    ensures !Contains(s, t)
  {
  }
}
