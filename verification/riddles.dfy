/**
 * Riddles and the text operations the answer check uses: Python's `str.strip()` and
 * `str.lower()`, slicing off the last character, and `list.remove`.
 */
module Riddles {
  datatype Riddle = Riddle(question: string, answer: string)

  /** The characters `str.isspace()` accepts, which `str.strip()` removes. */
  predicate IsSpace(c: char)
  {
    || '\t' <= c <= '\r' || '\U{1c}' <= c <= ' '
    || c == '\U{85}' || c == '\U{a0}' || c == '\U{1680}'
    || '\U{2000}' <= c <= '\U{200a}' || c == '\U{2028}' || c == '\U{2029}'
    || c == '\U{202f}' || c == '\U{205f}' || c == '\U{3000}'
  }

  /** `str.lower()` on one character, for the Latin-1 range: A-Z and À-Þ (except ×) move down by 32. */
  function LowerChar(c: char): (d: char)
    ensures !('A' <= d <= 'Z')
    ensures IsSpace(d) <==> IsSpace(c)
  {
    if 'A' <= c <= 'Z' || ('\U{c0}' <= c <= '\U{de}' && c != '\U{d7}') then (c as int + 32) as char else c
  }

  function Lower(s: string): (r: string)
    ensures |r| == |s|
    ensures forall k :: 0 <= k < |s| ==> r[k] == LowerChar(s[k])
  {
    seq(|s|, k requires 0 <= k < |s| => LowerChar(s[k]))
  }

  lemma LowerIdempotent(s: string)
    ensures Lower(Lower(s)) == Lower(s)
  {
  }

  /** How many whitespace characters `s` starts with. */
  function LeadingSpaces(s: string): (n: nat)
    ensures n <= |s|
    ensures forall k :: 0 <= k < n ==> IsSpace(s[k])
    ensures n < |s| ==> !IsSpace(s[n])
  {
    if |s| == 0 || !IsSpace(s[0]) then 0 else 1 + LeadingSpaces(s[1..])
  }

  /** How many whitespace characters `s` ends with. */
  function TrailingSpaces(s: string): (n: nat)
    ensures n <= |s|
    ensures forall k :: |s| - n <= k < |s| ==> IsSpace(s[k])
    ensures n < |s| ==> !IsSpace(s[|s| - 1 - n])
  {
    if |s| == 0 || !IsSpace(s[|s| - 1]) then 0 else 1 + TrailingSpaces(s[..|s| - 1])
  }

  /**
   * `str.strip()`: `s` with its leading and trailing whitespace removed; the result is the
   * middle of `s`, and neither starts nor ends with whitespace.
   */
  function Strip(s: string): (r: string)
    ensures LeadingSpaces(s) + |r| <= |s|
    ensures r == s[LeadingSpaces(s)..LeadingSpaces(s) + |r|]
    ensures forall k :: LeadingSpaces(s) + |r| <= k < |s| ==> IsSpace(s[k])
    ensures r == [] || (!IsSpace(r[0]) && !IsSpace(r[|r| - 1]))
  {
    var t := s[LeadingSpaces(s)..];
    t[..|t| - TrailingSpaces(t)]
  }

  /** Whatever `str.strip()` returns is left alone by a second `strip()`. */
  lemma StripStripped(s: string)
    requires s == [] || (!IsSpace(s[0]) && !IsSpace(s[|s| - 1]))
    ensures Strip(s) == s
  {
  }

  /** The form in which `check_riddle_answer` compares answers: `.strip().lower()`. */
  function Normalize(s: string): (r: string)
    ensures r == [] || (!IsSpace(r[0]) && !IsSpace(r[|r| - 1]))
    ensures forall k :: 0 <= k < |r| ==> !('A' <= r[k] <= 'Z')
  {
    Lower(Strip(s))
  }

  /** Normalising twice is normalising once. */
  lemma NormalizeIdempotent(s: string)
    ensures Normalize(Normalize(s)) == Normalize(s)
  {
    var n := Normalize(s);
    StripStripped(n);
    LowerIdempotent(Strip(s));
  }

  /** Surrounding whitespace and letter case do not matter; other characters do. */
  lemma NormalizeExamples()
    ensures Normalize(" Echo ") == "echo"
    ensures Normalize("Echoo") != "echo"
  {
    assert LeadingSpaces(" Echo ") == 1;
    assert TrailingSpaces(" Echo "[1..]) == 1;
    assert Strip(" Echo ") == "Echo";
    assert |Normalize("Echoo")| == 5;
  }

  /** `list.remove(x)`: the first element equal to `x` removed; a list without `x` left as it is. */
  function RemoveFirst<T(==)>(s: seq<T>, x: T): (r: seq<T>)
    ensures x !in s ==> r == s
    ensures x in s ==> |r| == |s| - 1 && multiset(r) == multiset(s) - multiset{x}
  {
    if |s| == 0 then s
    else
      assert s == [s[0]] + s[1..];
      if s[0] == x then s[1..] else [s[0]] + RemoveFirst(s[1..], x)
  }

  /** `list.remove` takes out the first occurrence of `x` and keeps the rest in order. */
  lemma {:induction false} RemoveFirstAt<T>(s: seq<T>, x: T, i: nat)
    requires i < |s| && s[i] == x && x !in s[..i]
    ensures RemoveFirst(s, x) == s[..i] + s[i + 1..]
    decreases i
  {
    if i > 0 {
      assert s[0] in s[..i];
      assert s[1..][..i - 1] == s[1..i];
      RemoveFirstAt(s[1..], x, i - 1);
      assert s[..i] == [s[0]] + s[1..][..i - 1];
      assert s[i + 1..] == s[1..][i..];
    }
  }

  /**
   * A riddle drawn with `random.choice` and then removed is gone from the pool once more than
   * before: a pool taken from `all` stays inside `all`, one draw smaller.
   */
  lemma DrawWithoutReplacement(pool: seq<Riddle>, all: seq<Riddle>, pick: nat)
    requires pick < |pool| && multiset(pool) <= multiset(all)
    ensures |RemoveFirst(pool, pool[pick])| == |pool| - 1
    ensures multiset(RemoveFirst(pool, pool[pick])) <= multiset(all)
    ensures multiset(RemoveFirst(pool, pool[pick]))[pool[pick]] == multiset(pool)[pool[pick]] - 1
  {
    assert pool[pick] in pool;
  }

  /** Every element of `m` occurs in it once. */
  predicate Unrepeated<T>(m: multiset<T>)
  {
    forall x | x in m :: m[x] == 1
  }

  /** A list whose entries are pairwise distinct holds no element twice. */
  lemma {:induction false} DistinctUnrepeated<T>(s: seq<T>)
    requires forall i, j :: 0 <= i < j < |s| ==> s[i] != s[j]
    ensures Unrepeated(multiset(s))
  {
    if |s| > 0 {
      DistinctUnrepeated(s[1..]);
      assert s == [s[0]] + s[1..];
      assert s[0] !in s[1..] by {
        forall k | 0 <= k < |s[1..]|
          ensures s[1..][k] != s[0]
        {
          assert s[1..][k] == s[k + 1];
        }
      }
    }
  }

  /** Taking elements away keeps a multiset free of repeats. */
  lemma UnrepeatedSub<T>(m: multiset<T>, n: multiset<T>)
    requires Unrepeated(m) && n <= m
    ensures Unrepeated(n)
  {
    forall x | x in n
      ensures n[x] == 1
    {
      assert x in m;
    }
  }
}
