/** The Python string operations the engine relies on: `str.lower`, `str.strip`
    and substring containment (`k in s`), restricted to ASCII. */
module Text {

  /** `c.isspace()` for an ASCII character: tab, line feed, vertical tab, form feed,
      carriage return, the four information separators 0x1C..0x1F, and space. */
  predicate IsSpace(c: char) {
    (9 <= c as int <= 13) || (28 <= c as int <= 32)
  }

  predicate IsUpper(c: char) {
    'A' <= c <= 'Z'
  }

  /** `c.lower()` for an ASCII character: 'A'..'Z' become 'a'..'z'. */
  function LowerChar(c: char): (r: char)
    ensures IsUpper(c) ==> r as int == c as int + 32
    ensures !IsUpper(r)
    ensures IsSpace(r) <==> IsSpace(c)
    ensures !IsUpper(c) ==> r == c
  {
    if IsUpper(c) then (c as int + 32) as char else c
  }

  /** `s.lower()` on ASCII text. */
  function Lower(s: string): (r: string)
    ensures |r| == |s|
    ensures forall i :: 0 <= i < |s| ==> r[i] == LowerChar(s[i])
  {
    seq(|s|, i requires 0 <= i < |s| => LowerChar(s[i]))
  }

  /** The first position at or after `i` that does not hold whitespace, or `|s|`. */
  function SkipSpace(s: string, i: nat): (r: nat)
    requires i <= |s|
    ensures i <= r <= |s|
    ensures forall k :: i <= k < r ==> IsSpace(s[k])
    ensures r < |s| ==> !IsSpace(s[r])
    decreases |s| - i
  {
    if i < |s| && IsSpace(s[i]) then SkipSpace(s, i + 1) else i
  }

  /** The end of `s[..b]` once the whitespace at its back has been dropped, never going below `a`. */
  function SkipSpaceBack(s: string, a: nat, b: nat): (r: nat)
    requires a <= b <= |s|
    ensures a <= r <= b
    ensures forall k :: r <= k < b ==> IsSpace(s[k])
    ensures r > a ==> !IsSpace(s[r - 1])
    decreases b
  {
    if b > a && IsSpace(s[b - 1]) then SkipSpaceBack(s, a, b - 1) else b
  }

  /** Number of whitespace characters at the front of `s`. */
  function LeadingSpace(s: string): (a: nat)
    ensures a <= |s|
  {
    SkipSpace(s, 0)
  }

  /** End of `s` once the whitespace at its back has been dropped, never going below `a`. */
  function TrailingEnd(s: string, a: nat): (b: nat)
    requires a <= |s|
    ensures a <= b <= |s|
  {
    SkipSpaceBack(s, a, |s|)
  }

  /** `s.strip()`: `s` without its leading and trailing whitespace. */
  function Strip(s: string): (r: string)
    ensures |r| <= |s|
    ensures r != [] ==> !IsSpace(r[0]) && !IsSpace(r[|r| - 1])
    ensures exists a, b ::
              (0 <= a <= b <= |s| && r == s[a..b] &&
               (forall k :: 0 <= k < a ==> IsSpace(s[k])) && (forall k :: b <= k < |s| ==> IsSpace(s[k])))
  {
    var a := LeadingSpace(s);
    var b := TrailingEnd(s, a);
    assert forall k :: b <= k < |s| ==> IsSpace(s[k]);
    s[a..b]
  }

  /** `s.lower().strip()`, the cleaning applied to free-text country names. */
  function LowerStrip(s: string): (r: string)
    ensures forall i :: 0 <= i < |r| ==> !IsUpper(r[i])
    ensures r != [] ==> !IsSpace(r[0]) && !IsSpace(r[|r| - 1])
    ensures r == Strip(Lower(s))
  {
    var t := Lower(s);
    var a := LeadingSpace(t);
    assert Strip(t) == t[a..TrailingEnd(t, a)];
    Strip(t)
  }

  /** `k` sits in `s` starting at position `i`. */
  predicate OccursAt(s: string, k: string, i: int) {
    0 <= i && i + |k| <= |s| && s[i..i + |k|] == k
  }

  /** `k[j..]` matches `s` from position `i + j` on. */
  function MatchesFrom(s: string, k: string, i: nat, j: nat): bool
    requires i + |k| <= |s| && j <= |k|
    decreases |k| - j
  {
    j == |k| || (s[i + j] == k[j] && MatchesFrom(s, k, i, j + 1))
  }

  lemma {:induction false} MatchesFromIff(s: string, k: string, i: nat, j: nat)
    requires i + |k| <= |s| && j <= |k|
    ensures MatchesFrom(s, k, i, j) <==> forall t :: j <= t < |k| ==> s[i + t] == k[t]
    decreases |k| - j
  {
    if j < |k| {
      MatchesFromIff(s, k, i, j + 1);
    }
  }

  /** `k` occurs in `s` at some position `i` or later, trying the positions in order. */
  function SearchFrom(s: string, k: string, i: nat): bool
    decreases |s| - i
  {
    i + |k| <= |s| && (MatchesFrom(s, k, i, 0) || SearchFrom(s, k, i + 1))
  }

  lemma {:induction false} SearchFromIff(s: string, k: string, i: nat)
    ensures SearchFrom(s, k, i) <==> exists p :: i <= p && OccursAt(s, k, p)
    decreases |s| - i
  {
    if i + |k| > |s| {
      assert forall p :: i <= p ==> !OccursAt(s, k, p);
    } else {
      MatchesFromIff(s, k, i, 0);
      assert MatchesFrom(s, k, i, 0) <==> OccursAt(s, k, i) by {
        if MatchesFrom(s, k, i, 0) {
          assert s[i..i + |k|] == k;
        }
        if OccursAt(s, k, i) {
          forall t | 0 <= t < |k|
            ensures s[i + t] == k[t]
          {
            assert s[i..i + |k|][t] == s[i + t];
          }
        }
      }
      SearchFromIff(s, k, i + 1);
      if exists p :: i <= p && OccursAt(s, k, p) {
        var p :| i <= p && OccursAt(s, k, p);
        assert p == i || (i + 1 <= p && OccursAt(s, k, p));
      }
    }
  }

  /** Python's `k in s` for strings: `k` occurs somewhere in `s` as a contiguous piece. */
  function Contains(s: string, k: string): (r: bool)
    ensures r <==> exists i :: OccursAt(s, k, i)
  {
    SearchFromIff(s, k, 0);
    SearchFrom(s, k, 0)
  }

  /** Python's `any(k in s for k in keys)`. */
  function AnyContains(s: string, keys: seq<string>): (r: bool)
    ensures r <==> exists k :: k in keys && Contains(s, k)
  {
    if keys == [] then false
    else
      var rest := AnyContains(s, keys[1..]);
      assert rest ==> exists k :: k in keys && Contains(s, k) by {
        if rest {
          var k :| k in keys[1..] && Contains(s, k);
          assert k in keys;
        }
      }
      assert (exists k :: k in keys && Contains(s, k)) ==> Contains(s, keys[0]) || rest by {
        if exists k :: k in keys && Contains(s, k) {
          var k :| k in keys && Contains(s, k);
          if k != keys[0] {
            assert k in keys[1..];
          }
        }
      }
      Contains(s, keys[0]) || rest
  }

  /** A keyword whose first and last characters are not whitespace. */
  predicate Trimmed(k: string) {
    k != [] && !IsSpace(k[0]) && !IsSpace(k[|k| - 1])
  }

  // ---------------------------------------------------------------------------
  // Lemmas
  // ---------------------------------------------------------------------------

  /** An occurrence of a trimmed keyword lies inside the stripped part of `s`. */
  lemma OccurrenceSurvivesStrip(s: string, k: string, i: int)
    requires Trimmed(k) && OccursAt(s, k, i)
    ensures OccursAt(Strip(s), k, i - LeadingSpace(s))
  {
    var a := LeadingSpace(s);
    OccurrenceEnds(s, k, i);
    LeadingBefore(s, i);
    TrailingAfter(s, a, i + |k| - 1);
    var b := TrailingEnd(s, a);
    OccursInside(s, k, a, b, i);
    assert Strip(s) == s[a..b];
  }

  /** An occurrence inside `s[a..b]` is an occurrence in that slice. */
  lemma OccursInside(s: string, k: string, a: int, b: int, i: int)
    requires 0 <= a <= i && i + |k| <= b <= |s| && OccursAt(s, k, i)
    ensures OccursAt(s[a..b], k, i - a)
  {
    SliceWithin(s, a, b, i - a, i - a + |k|);
  }

  /** The first and last characters of an occurrence are those of the keyword. */
  lemma OccurrenceEnds(s: string, k: string, i: int)
    requires k != [] && OccursAt(s, k, i)
    ensures s[i] == k[0] && s[i + |k| - 1] == k[|k| - 1]
  {
    assert s[i..i + |k|][0] == s[i];
    assert s[i..i + |k|][|k| - 1] == s[i + |k| - 1];
  }

  /** Stripping starts no later than the first visible character. */
  lemma LeadingBefore(s: string, i: int)
    requires 0 <= i < |s| && !IsSpace(s[i])
    ensures LeadingSpace(s) <= i
  {
  }

  /** Stripping ends after every visible character from `a` on. */
  lemma TrailingAfter(s: string, a: nat, i: int)
    requires a <= i < |s| && !IsSpace(s[i])
    ensures i < TrailingEnd(s, a)
  {
  }

  /** A slice of a slice is a slice. */
  lemma SliceWithin(s: string, a: int, b: int, x: int, y: int)
    requires 0 <= a <= b <= |s| && 0 <= x <= y <= b - a
    ensures s[a..b][x..y] == s[a + x..a + y]
  {
    assert forall t :: 0 <= t < y - x ==> s[a..b][x..y][t] == s[a + x..a + y][t];
  }

  /** An occurrence in the stripped string is an occurrence in `s`. */
  lemma OccurrenceBeforeStrip(s: string, k: string, j: int)
    requires OccursAt(Strip(s), k, j)
    ensures OccursAt(s, k, LeadingSpace(s) + j)
  {
    var a := LeadingSpace(s);
    var b := TrailingEnd(s, a);
    SliceWithin(s, a, b, j, j + |k|);
  }

  /** Stripping whitespace never changes whether a trimmed keyword occurs. */
  lemma StripKeepsContainment(s: string, k: string)
    requires Trimmed(k)
    ensures Contains(Strip(s), k) <==> Contains(s, k)
  {
    if Contains(s, k) {
      var i :| OccursAt(s, k, i);
      OccurrenceSurvivesStrip(s, k, i);
    }
    if Contains(Strip(s), k) {
      var j :| OccursAt(Strip(s), k, j);
      OccurrenceBeforeStrip(s, k, j);
    }
  }

  /** A keyword that has a character missing from `s` does not occur in `s`. */
  lemma MissingChar(s: string, k: string, j: int)
    requires 0 <= j < |k| && k[j] !in s
    ensures !Contains(s, k)
  {
  }

  /** A keyword that does not contain `c` occurs in `a + [c] + b` only if it occurs in `a` or in `b`. */
  lemma SplitAt(a: string, c: char, b: string, k: string)
    requires c !in k
    ensures Contains(a + [c] + b, k) ==> Contains(a, k) || Contains(b, k)
  {
    var s := a + [c] + b;
    if !Contains(a, k) && !Contains(b, k) {
      forall i | 0 <= i && i + |k| <= |s|
        ensures !OccursAt(s, k, i)
      {
        if i + |k| <= |a| {
          assert s[i..i + |k|] == a[i..i + |k|];
          assert !OccursAt(a, k, i);
        } else if i > |a| {
          assert s[i..i + |k|] == b[i - |a| - 1..i - |a| - 1 + |k|];
          assert !OccursAt(b, k, i - |a| - 1);
        } else {
          assert s[i..i + |k|][|a| - i] == c;
        }
      }
      assert !exists i :: OccursAt(s, k, i);
    }
  }

  /** The keyword misses a character of each side of a separator it does not contain. */
  lemma MissingAround(a: string, c: char, b: string, k: string, ja: int, jb: int)
    requires c !in k
    requires 0 <= ja < |k| && k[ja] !in a
    requires 0 <= jb < |k| && k[jb] !in b
    ensures !Contains(a + [c] + b, k)
  {
    SplitAt(a, c, b, k);
    MissingChar(a, k, ja);
    MissingChar(b, k, jb);
  }

  /** Lower-casing works piece by piece. */
  lemma LowerAppend(a: string, b: string)
    ensures Lower(a + b) == Lower(a) + Lower(b)
  {
    assert forall i :: 0 <= i < |a + b| ==> Lower(a + b)[i] == (Lower(a) + Lower(b))[i];
  }

  /** A keyword found in a piece is found in any text that piece starts. */
  lemma ContainsLeft(a: string, b: string, k: string)
    requires Contains(a, k)
    ensures Contains(a + b, k)
  {
    var i :| OccursAt(a, k, i);
    assert (a + b)[i..i + |k|] == a[i..i + |k|];
    assert OccursAt(a + b, k, i);
  }

  /** A keyword found in a piece is found in any text that piece ends. */
  lemma ContainsRight(a: string, b: string, k: string)
    requires Contains(b, k)
    ensures Contains(a + b, k)
  {
    var i :| OccursAt(b, k, i);
    assert (a + b)[|a| + i..|a| + i + |k|] == b[i..i + |k|];
    assert OccursAt(a + b, k, |a| + i);
  }

  /** One keyword of `keys` occurs in `s`. */
  lemma SomeKeyword(s: string, keys: seq<string>, k: string)
    requires k in keys && Contains(s, k)
    ensures AnyContains(s, keys)
  {
  }

  /** No keyword of `keys` occurs in `s`. */
  lemma NoKeyword(s: string, keys: seq<string>)
    requires forall k :: k in keys ==> !Contains(s, k)
    ensures !AnyContains(s, keys)
  {
  }

  /** Changing the order or repetition of the keywords of an `any(...)` changes nothing. */
  lemma AnyContainsSameKeys(s: string, ks: seq<string>, ls: seq<string>)
    requires forall k :: k in ks <==> k in ls
    ensures AnyContains(s, ks) == AnyContains(s, ls)
  {
  }

  lemma AnyContainsStrip(s: string, keys: seq<string>)
    requires forall k :: k in keys ==> Trimmed(k)
    ensures AnyContains(Strip(s), keys) == AnyContains(s, keys)
  {
    forall k | k in keys
      ensures Contains(Strip(s), k) == Contains(s, k)
    {
      StripKeepsContainment(s, k);
    }
  }

  /** A string made only of whitespace strips to the empty string. */
  lemma {:induction false} StripAllSpace(s: string)
    requires forall i :: 0 <= i < |s| ==> IsSpace(s[i])
    ensures Strip(s) == ""
  {
    var a := LeadingSpace(s);
    assert a == |s|;
  }

  /** Lowering a string does not change which of its characters are whitespace. */
  lemma LowerAllSpace(s: string)
    requires forall i :: 0 <= i < |s| ==> IsSpace(s[i])
    ensures forall i :: 0 <= i < |Lower(s)| ==> IsSpace(Lower(s)[i])
  {
  }

  /** A string without upper-case letters is its own lower-case form. */
  lemma {:induction false} LowerUnchanged(s: string)
    requires forall i :: 0 <= i < |s| ==> !IsUpper(s[i])
    ensures Lower(s) == s
  {
  }

  /** A string that lower-cases to `t`, where `t` has visible characters at both ends,
      cleans to `t`. */
  lemma LowerStripTo(s: string, t: string)
    requires Lower(s) == t && t != [] && !IsSpace(t[0]) && !IsSpace(t[|t| - 1])
    ensures LowerStrip(s) == t
  {
    assert LeadingSpace(t) == 0;
    assert TrailingEnd(t, 0) == |t|;
    assert t[0..|t|] == t;
  }

  /** Stripping an already stripped string changes nothing. */
  lemma StripIdempotent(s: string)
    ensures Strip(Strip(s)) == Strip(s)
  {
    var t := Strip(s);
    var a := LeadingSpace(t);
    if t != [] {
      assert a == 0;
      var b := TrailingEnd(t, 0);
      assert b == |t|;
    } else {
      assert t[0..0] == t;
    }
  }

  /** Cleaning a cleaned string changes nothing. */
  lemma LowerStripIdempotent(s: string)
    ensures LowerStrip(LowerStrip(s)) == LowerStrip(s)
  {
    var u := LowerStrip(s);
    LowerUnchanged(u);
    StripIdempotent(Lower(s));
  }
}
