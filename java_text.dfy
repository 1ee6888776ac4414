/** Models of the few java.lang.String operations the harness relies on:
    `split(sep, -1)`, joining, `startsWith`, `contains`, `replaceFirst` with a
    pattern that holds no regular-expression metacharacter, and `isBlank`. */
module JavaText {

  import opened Wrappers

  /** `s.split(String.valueOf(c), -1)`: every field is kept, trailing empty ones
      included, and a string without `c` is a single field (so "" gives [""]). */
  function Split(s: string, c: char): (fields: seq<string>)
    ensures |fields| >= 1
    decreases |s|
  {
    if |s| == 0 then [""]
    else if s[0] == c then [""] + Split(s[1..], c)
    else
      var rest := Split(s[1..], c);
      [[s[0]] + rest[0]] + rest[1..]
  }

  /** The fields joined back with `c` between consecutive ones. */
  function Join(fields: seq<string>, c: char): string
  {
    if |fields| == 0 then ""
    else if |fields| == 1 then fields[0]
    else fields[0] + [c] + Join(fields[1..], c)
  }

  /** Number of occurrences of `c` in `s`. */
  function Count(s: string, c: char): nat
  {
    if |s| == 0 then 0 else (if s[0] == c then 1 else 0) + Count(s[1..], c)
  }

  predicate Free(s: string, c: char)
  {
    forall i :: 0 <= i < |s| ==> s[i] != c
  }

  predicate AllFree(fields: seq<string>, c: char)
  {
    forall k :: 0 <= k < |fields| ==> Free(fields[k], c)
  }

  /** Splitting yields one field more than there are separators. */
  lemma {:induction false} SplitCount(s: string, c: char)
    ensures |Split(s, c)| == Count(s, c) + 1
    decreases |s|
  {
    if |s| > 0 {
      SplitCount(s[1..], c);
    }
  }

  /** No field holds the separator. */
  lemma {:induction false} SplitAllFree(s: string, c: char)
    ensures AllFree(Split(s, c), c)
    decreases |s|
  {
    if |s| > 0 {
      SplitAllFree(s[1..], c);
      var rest := Split(s[1..], c);
      var fields := Split(s, c);
      if s[0] == c {
        assert fields == [""] + rest;
        forall k | 0 <= k < |fields| ensures Free(fields[k], c) {
          if k > 0 { assert fields[k] == rest[k - 1]; }
        }
      } else {
        assert fields == [[s[0]] + rest[0]] + rest[1..];
        forall k | 0 <= k < |fields| ensures Free(fields[k], c) {
          if k == 0 {
            assert Free(rest[0], c);
          } else {
            assert fields[k] == rest[k];
          }
        }
      }
    }
  }

  /** Joining the fields gives the string back. */
  lemma {:induction false} SplitJoin(s: string, c: char)
    ensures Join(Split(s, c), c) == s
    decreases |s|
  {
    if |s| > 0 {
      SplitJoin(s[1..], c);
      var rest := Split(s[1..], c);
      if s[0] == c {
        assert Split(s, c) == [""] + rest;
        assert [c] + s[1..] == s;
      } else {
        var fields := Split(s, c);
        assert fields == [[s[0]] + rest[0]] + rest[1..];
        assert fields[1..] == rest[1..];
        if |rest| > 1 {
          assert Join(fields, c) == [s[0]] + rest[0] + [c] + Join(rest[1..], c);
        }
        assert [s[0]] + s[1..] == s;
      }
    }
  }

  /** Joining separator-free fields and splitting again gives the fields back. */
  lemma {:induction false} JoinSplit(fields: seq<string>, c: char)
    requires |fields| >= 1
    requires AllFree(fields, c)
    ensures Split(Join(fields, c), c) == fields
    decreases |fields|
  {
    assert Free(fields[0], c);
    if |fields| == 1 {
      SplitFree(fields[0], c);
    } else {
      assert AllFree(fields[1..], c) by {
        forall k | 0 <= k < |fields| - 1 ensures Free(fields[1..][k], c) {
          assert fields[1..][k] == fields[k + 1];
        }
      }
      JoinSplit(fields[1..], c);
      SplitPrefix(fields[0], Join(fields[1..], c), c);
      assert fields == [fields[0]] + fields[1..];
    }
  }

  /** A string without the separator is a single field. */
  lemma {:induction false} SplitFree(s: string, c: char)
    requires Free(s, c)
    ensures Split(s, c) == [s]
    decreases |s|
  {
    if |s| > 0 {
      SplitFree(s[1..], c);
      assert [s[0]] + s[1..] == s;
    }
  }

  /** A separator-free prefix followed by the separator opens the split as a
      field of its own. */
  lemma {:induction false} SplitPrefix(a: string, b: string, c: char)
    requires Free(a, c)
    ensures Split(a + [c] + b, c) == [a] + Split(b, c)
    decreases |a|
  {
    if |a| == 0 {
      assert a + [c] + b == [c] + b;
      assert ([c] + b)[1..] == b;
    } else {
      SplitPrefix(a[1..], b, c);
      assert (a + [c] + b)[1..] == a[1..] + [c] + b;
      assert [a[0]] + a[1..] == a;
    }
  }

  predicate StartsWith(s: string, prefix: string)
  {
    |prefix| <= |s| && s[..|prefix|] == prefix
  }

  /** Whether `pat` occurs in `s` at position `i`. */
  predicate OccursAt(s: string, pat: string, i: int)
  {
    0 <= i && i + |pat| <= |s| && s[i..i + |pat|] == pat
  }

  /** `s.contains(t)`: `t` occurs somewhere in `s`. */
  predicate Contains(s: string, t: string)
  {
    exists i :: 0 <= i <= |s| && OccursAt(s, t, i)
  }

  /** A string contains each of its prefixes. */
  lemma StartsWithContains(s: string, prefix: string)
    requires StartsWith(s, prefix)
    ensures Contains(s, prefix)
  {
    assert OccursAt(s, prefix, 0);
  }

  /** The leftmost position at or after `from` where `pat` occurs. This is
      `String.indexOf(pat, from)` when `from <= |s|` or the pattern is not
      empty; Java would find an empty pattern at `|s|` for a larger `from`. */
  function IndexOf(s: string, pat: string, from: nat): (r: Option<nat>)
    ensures r.Some? ==> from <= r.value && OccursAt(s, pat, r.value)
    ensures r.Some? ==> forall j :: from <= j < r.value ==> !OccursAt(s, pat, j)
    ensures r.None? ==> forall j :: from <= j ==> !OccursAt(s, pat, j)
    decreases |s| - from
  {
    if from + |pat| > |s| then None
    else if s[from..from + |pat|] == pat then Some(from)
    else IndexOf(s, pat, from + 1)
  }

  /** `s.replaceFirst(pat, rep)` for a pattern and a replacement without
      regular-expression metacharacters: the leftmost occurrence is replaced,
      and a string without one is returned unchanged. */
  function ReplaceFirst(s: string, pat: string, rep: string): (r: string)
    ensures IndexOf(s, pat, 0).None? ==> r == s
    ensures IndexOf(s, pat, 0).Some? ==> |r| == |s| - |pat| + |rep|
  {
    match IndexOf(s, pat, 0)
    case None => s
    case Some(i) => s[..i] + rep + s[i + |pat|..]
  }

  /** A pattern whose first character is absent from `s[..k]` cannot occur
      before `k`. */
  lemma NoOccurrenceBefore(s: string, pat: string, k: nat)
    requires |pat| > 0 && k <= |s|
    requires forall j :: 0 <= j < k ==> s[j] != pat[0]
    ensures forall j :: 0 <= j < k ==> !OccursAt(s, pat, j)
  {
    forall j | 0 <= j < k ensures !OccursAt(s, pat, j) {
      if j + |pat| <= |s| {
        assert s[j..j + |pat|][0] == s[j];
      }
    }
  }

  /** The replacement happens at the first occurrence of the pattern, and
      everything around it is kept. */
  lemma {:induction false} ReplaceFirstAfter(s: string, pat: string, rep: string, k: nat)
    requires OccursAt(s, pat, k)
    requires forall j :: 0 <= j < k ==> !OccursAt(s, pat, j)
    ensures ReplaceFirst(s, pat, rep) == s[..k] + rep + s[k + |pat|..]
  {
    var r := IndexOf(s, pat, 0);
    assert r.Some?;
    assert !(r.value < k);
    assert !(r.value > k);
  }

  /** `Character.isWhitespace`: the Unicode space, line and paragraph
      separators other than the non-breaking ones, and the ASCII controls
      HT, LF, VT, FF, CR and FS, GS, RS, US. */
  predicate IsWhitespace(ch: char)
  {
    || ('\t' <= ch <= '\r')
    || ('\U{1C}' <= ch <= '\U{1F}')
    || ch == ' '
    || ch == '\U{1680}'
    || ('\U{2000}' <= ch <= '\U{2006}')
    || ('\U{2008}' <= ch <= '\U{200A}')
    || ch == '\U{2028}' || ch == '\U{2029}'
    || ch == '\U{205F}' || ch == '\U{3000}'
  }

  /** `s.isBlank()`: empty or whitespace only. */
  predicate IsBlank(s: string)
  {
    forall i :: 0 <= i < |s| ==> IsWhitespace(s[i])
  }
}
