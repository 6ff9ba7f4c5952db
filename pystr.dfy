/**
 The few operations of Python's `str` that the batch converter relies on:
 `find` (and `in`), `replace` with no count, `strip` with no argument and
 `upper`, each over `string` (a sequence of Unicode scalar values).
 */
module PyStr {

  /** Python's `str.isspace()` for one character: the characters whose
      bidirectional class is WS, B or S, or whose category is Zs. */
  predicate IsSpace(c: char) {
    || c == ' '
    || ('\t' <= c <= '\r')                // \t \n \v \f \r
    || ('\U{1C}' <= c <= '\U{1F}')        // file, group, record and unit separators
    || c == '\U{85}' || c == '\U{A0}' || c == '\U{1680}'
    || ('\U{2000}' <= c <= '\U{200A}')
    || c == '\U{2028}' || c == '\U{2029}' || c == '\U{202F}' || c == '\U{205F}'
    || c == '\U{3000}'
  }

  /** `sub` occurs in `s` starting at index `i`. */
  predicate OccursAt(s: string, sub: string, i: int) {
    0 <= i && i + |sub| <= |s| && s[i..i + |sub|] == sub
  }

  /** `s.find(sub, i)`: the lowest index from `i` on where `sub` occurs, or -1. */
  function FindFrom(s: string, sub: string, i: nat): (r: int)
    decreases |s| - i
    ensures r == -1 || (i <= r && OccursAt(s, sub, r))
    ensures r == -1 ==> forall j :: i <= j ==> !OccursAt(s, sub, j)
    ensures r != -1 ==> forall j :: i <= j < r ==> !OccursAt(s, sub, j)
  {
    if i + |sub| > |s| then -1
    else if s[i..i + |sub|] == sub then i
    else FindFrom(s, sub, i + 1)
  }

  /** `s.find(sub)`: the lowest index where `sub` occurs, or -1. */
  function Find(s: string, sub: string): (r: int)
    ensures r == -1 || OccursAt(s, sub, r)
    ensures r == -1 <==> forall j :: !OccursAt(s, sub, j)
    ensures forall j :: 0 <= j < r ==> !OccursAt(s, sub, j)
  {
    FindFrom(s, sub, 0)
  }

  /** `sub in s`, which the scripts write as `s.find(sub) >= 0`. */
  predicate Contains(s: string, sub: string)
    ensures Contains(s, sub) <==> exists j :: OccursAt(s, sub, j)
  {
    Find(s, sub) >= 0
  }

  /** `s.replace('', rep)`: `rep` before every character and at the end. */
  function ReplaceEmpty(s: string, rep: string): (r: string)
    ensures |r| == |s| + (|s| + 1) * |rep|
  {
    if s == [] then rep else rep + [s[0]] + ReplaceEmpty(s[1..], rep)
  }

  /** `s.replace(pat, rep)`: every non-overlapping occurrence of `pat`,
      scanning left to right, is replaced by `rep`. */
  function Replace(s: string, pat: string, rep: string): (r: string)
    decreases |s|
  {
    if pat == [] then ReplaceEmpty(s, rep)
    else if |s| < |pat| then s
    else if s[..|pat|] == pat then rep + Replace(s[|pat|..], pat, rep)
    else [s[0]] + Replace(s[1..], pat, rep)
  }

  /** Every character of a replacement's result comes from the subject or
      from the replacement text. */
  lemma {:induction false} ReplaceChars(s: string, pat: string, rep: string)
    ensures forall c :: c in Replace(s, pat, rep) ==> c in s || c in rep
    decreases |s|
  {
    if pat == [] {
      ReplaceEmptyChars(s, rep);
    } else if |s| < |pat| {
    } else if s[..|pat|] == pat {
      ReplaceChars(s[|pat|..], pat, rep);
      assert forall c :: c in s[|pat|..] ==> c in s;
    } else {
      ReplaceChars(s[1..], pat, rep);
      assert forall c :: c in s[1..] ==> c in s;
    }
  }

  lemma {:induction false} ReplaceEmptyChars(s: string, rep: string)
    ensures forall c :: c in ReplaceEmpty(s, rep) ==> c in s || c in rep
    decreases |s|
  {
    if s != [] {
      ReplaceEmptyChars(s[1..], rep);
      assert forall c :: c in s[1..] ==> c in s;
    }
  }

  /** Replacing one character by nothing deletes exactly its occurrences:
      it no longer occurs and every other character keeps its count. */
  lemma {:induction false} RemoveChar(s: string, c: char)
    ensures c !in Replace(s, [c], [])
    ensures multiset(Replace(s, [c], [])) == multiset(s)[c := 0]
    decreases |s|
  {
    if |s| >= 1 {
      RemoveChar(s[1..], c);
      assert s == [s[0]] + s[1..];
      if s[..1] == [c] {
        assert s[0] == c;
      } else {
        assert s[0] != c;
      }
    }
  }

  /** A pattern that never occurs leaves the subject as it is. */
  lemma {:induction false} ReplaceAbsent(s: string, pat: string, rep: string)
    requires pat != []
    requires forall j :: !OccursAt(s, pat, j)
    ensures Replace(s, pat, rep) == s
    decreases |s|
  {
    if |s| >= |pat| {
      assert !OccursAt(s, pat, 0);
      assert s[..|pat|] != pat;
      forall j ensures !OccursAt(s[1..], pat, j) {
        if OccursAt(s[1..], pat, j) {
          assert s[1..][j..j + |pat|] == s[j + 1..j + 1 + |pat|];
          assert OccursAt(s, pat, j + 1);
        }
      }
      ReplaceAbsent(s[1..], pat, rep);
      assert s == [s[0]] + s[1..];
    }
  }

  /** A prefix that holds no first character of the pattern is copied
      through unchanged. */
  lemma {:induction false} ReplaceSkipPrefix(a: string, b: string, pat: string, rep: string)
    requires pat != [] && pat[0] !in a
    ensures Replace(a + b, pat, rep) == a + Replace(b, pat, rep)
    decreases |a|
  {
    if a != [] {
      ReplaceSkipFirst(a + b, pat, rep);
      assert (a + b)[1..] == a[1..] + b;
      ReplaceSkipPrefix(a[1..], b, pat, rep);
      assert a == [a[0]] + a[1..];
    } else {
      assert a + b == b;
    }
  }

  /** A prefix at which no occurrence starts is copied through unchanged. */
  lemma {:induction false} ReplaceNoStart(a: string, b: string, pat: string, rep: string)
    requires pat != []
    requires forall j :: 0 <= j < |a| ==> !OccursAt(a + b, pat, j)
    ensures Replace(a + b, pat, rep) == a + Replace(b, pat, rep)
    decreases |a|
  {
    if a != [] {
      var s := a + b;
      ReplaceNoMatchFront(s, pat, rep);
      assert s[1..] == a[1..] + b;
      forall j | 0 <= j < |a[1..]| ensures !OccursAt(a[1..] + b, pat, j) {
        if OccursAt(a[1..] + b, pat, j) {
          OccursShift(s, pat, j);
        }
      }
      ReplaceNoStart(a[1..], b, pat, rep);
      assert a == [a[0]] + a[1..];
    } else {
      assert a + b == b;
    }
  }

  /** A string at whose start the pattern does not occur keeps its first
      character. */
  lemma ReplaceNoMatchFront(s: string, pat: string, rep: string)
    requires pat != [] && s != [] && !OccursAt(s, pat, 0)
    ensures Replace(s, pat, rep) == [s[0]] + Replace(s[1..], pat, rep)
  {
    if |s| < |pat| {
      ReplaceShort(s[1..], pat, rep);
    } else {
      assert s[0..|pat|] == s[..|pat|];
    }
  }

  /** An occurrence in the tail is one in the whole string, a place later. */
  lemma OccursShift(s: string, pat: string, j: int)
    requires s != [] && OccursAt(s[1..], pat, j)
    ensures OccursAt(s, pat, j + 1)
  {
    assert s[1..][j..j + |pat|] == s[j + 1..j + 1 + |pat|];
  }

  /** A single occurrence of a pattern whose first character does not recur
      in it, between two parts without the pattern, is the only one
      replaced. */
  lemma ReplaceSingle(front: string, pat: string, back: string, rep: string)
    requires pat != [] && pat[0] !in pat[1..]
    requires !Contains(front, pat) && !Contains(back, pat)
    ensures Replace(front + pat + back, pat, rep) == front + rep + back
  {
    NoStartBefore(front, pat + back, pat);
    assert front + pat + back == front + (pat + back);
    ReplaceNoStart(front, pat + back, pat, rep);
    ReplaceAtFront(pat, back, rep);
    ReplaceAbsent(back, pat, rep);
    assert front + (rep + back) == front + rep + back;
  }

  /** A first character that does not start the pattern is copied through. */
  lemma ReplaceSkipFirst(s: string, pat: string, rep: string)
    requires pat != [] && s != [] && s[0] != pat[0]
    ensures Replace(s, pat, rep) == [s[0]] + Replace(s[1..], pat, rep)
  {
    if |s| >= |pat| {
      assert s[..|pat|][0] == s[0];
    } else {
      ReplaceShort(s[1..], pat, rep);
    }
  }

  /** A subject shorter than the pattern is left as it is. */
  lemma ReplaceShort(s: string, pat: string, rep: string)
    requires pat != [] && |s| < |pat|
    ensures Replace(s, pat, rep) == s
  {
  }

  /** An occurrence at the front is replaced, and the scan resumes after it. */
  lemma ReplaceAtFront(pat: string, b: string, rep: string)
    requires pat != []
    ensures Replace(pat + b, pat, rep) == rep + Replace(b, pat, rep)
  {
    assert (pat + b)[..|pat|] == pat;
    assert (pat + b)[|pat|..] == b;
  }

  /** One occurrence, with no other start of the pattern around it. */
  lemma ReplaceOne(a: string, b: string, pat: string, rep: string)
    requires pat != [] && pat[0] !in a && pat[0] !in b
    ensures Replace(a + (pat + b), pat, rep) == a + (rep + b)
  {
    ReplaceSkipPrefix(a, pat + b, pat, rep);
    ReplaceAtFront(pat, b, rep);
    ReplaceSkipPrefix(b, [], pat, rep);
    assert b + [] == b;
  }

  /** Two occurrences, with no other start of the pattern around them. */
  lemma ReplaceTwo(a: string, b: string, c: string, pat: string, rep: string)
    requires pat != [] && pat[0] !in a && pat[0] !in b && pat[0] !in c
    ensures Replace(a + (pat + (b + (pat + c))), pat, rep) == a + (rep + (b + (rep + c)))
  {
    ReplaceSkipPrefix(a, pat + (b + (pat + c)), pat, rep);
    ReplaceAtFront(pat, b + (pat + c), rep);
    ReplaceOne(b, c, pat, rep);
  }

  /** When the prefix holds no first character of the pattern, every
      occurrence lies within the suffix. */
  lemma OccursInSuffix(a: string, t: string, pat: string, j: int)
    requires pat != [] && pat[0] !in a && OccursAt(a + t, pat, j)
    ensures |a| <= j && OccursAt(t, pat, j - |a|)
  {
    assert (a + t)[j..j + |pat|][0] == (a + t)[j] == pat[0];
    assert (a + t)[j..j + |pat|] == t[j - |a|..j - |a| + |pat|];
  }

  /** A prefix without the pattern's first character adds no occurrence. */
  lemma NoOccurrenceAfter(a: string, t: string, pat: string, c: char)
    requires pat != [] && pat[0] !in a && c in pat && c !in t
    ensures forall j :: !OccursAt(a + t, pat, j)
  {
    NoOccurrence(t, pat, c);
    forall j ensures !OccursAt(a + t, pat, j) {
      if OccursAt(a + t, pat, j) {
        OccursInSuffix(a, t, pat, j);
      }
    }
  }

  /** A pattern with a character the subject lacks occurs nowhere in it. */
  lemma NoOccurrence(s: string, pat: string, c: char)
    requires c in pat && c !in s
    ensures forall j :: !OccursAt(s, pat, j)
  {
    forall j ensures !OccursAt(s, pat, j) {
      if OccursAt(s, pat, j) {
        OccurrenceChars(s, pat, j);
      }
    }
  }

  /** Every character of an occurring pattern is a character of the subject. */
  lemma OccurrenceChars(s: string, pat: string, j: int)
    requires OccursAt(s, pat, j)
    ensures forall c :: c in pat ==> c in s
  {
    forall c | c in pat ensures c in s {
      var k :| 0 <= k < |pat| && pat[k] == c;
      assert s[j..j + |pat|][k] == s[j + k];
    }
  }

  /** No occurrence of the pattern starts inside `a` when `a` lacks the
      pattern and `b` starts with a character found nowhere in the pattern
      after its first position: such an occurrence would have to cover
      `b[0]` there. */
  lemma NoStartBefore(a: string, b: string, pat: string)
    requires !Contains(a, pat)
    requires b != [] && b[0] !in pat[1..]
    ensures forall j :: 0 <= j < |a| ==> !OccursAt(a + b, pat, j)
  {
    forall j | 0 <= j < |a| ensures !OccursAt(a + b, pat, j) {
      if OccursAt(a + b, pat, j) {
        OccursAcross(a, b, pat, j);
      }
    }
  }

  /** Where an occurrence in `a + b` starts inside `a`: it lies in `a`, or
      `b[0]` is one of its characters after the first. */
  lemma OccursAcross(a: string, b: string, pat: string, j: int)
    requires OccursAt(a + b, pat, j) && j < |a|
    ensures OccursAt(a, pat, j) || (b != [] && b[0] in pat[1..])
  {
    if j + |pat| <= |a| {
      assert (a + b)[j..j + |pat|] == a[j..j + |pat|];
    } else {
      assert (a + b)[j..j + |pat|][|a| - j] == b[0];
      assert pat[1..][|a| - j - 1] == b[0];
    }
  }

  /** An occurrence in `a + b` that starts past `a` is one in `b`. */
  lemma OccursAfter(a: string, b: string, pat: string, j: int)
    requires OccursAt(a + b, pat, j) && |a| <= j
    ensures OccursAt(b, pat, j - |a|)
  {
    assert (a + b)[j..j + |pat|] == b[j - |a|..j - |a| + |pat|];
  }

  /** Every character an occurrence covers is a character of the pattern. */
  lemma OccursCovers(s: string, pat: string, j: int, k: int)
    requires OccursAt(s, pat, j) && j <= k < j + |pat|
    ensures s[k] in pat
  {
    assert s[j..j + |pat|][k - j] == s[k];
  }

  /** Two strings without the pattern, joined by a character the pattern
      lacks, hold no occurrence either. */
  lemma AbsentAround(a: string, c: char, b: string, pat: string)
    requires c !in pat && !Contains(a, pat) && !Contains(b, pat)
    ensures !Contains(a + [c] + b, pat)
  {
    var s := a + [c] + b;
    assert s == a + ([c] + b) && s[|a|] == c;
    forall j ensures !OccursAt(s, pat, j) {
      if OccursAt(s, pat, j) {
        if j + |pat| <= |a| {
          OccursAcross(a, [c] + b, pat, j);
        } else if j > |a| {
          OccursAfter(a + [c], b, pat, j);
        } else {
          OccursCovers(s, pat, j, |a|);
        }
      }
    }
  }

  /** Two strings without the pattern, the second starting with a character
      found nowhere in the pattern after its first position, hold no
      occurrence when joined. */
  lemma AbsentAfter(a: string, b: string, pat: string)
    requires !Contains(a, pat) && !Contains(b, pat)
    requires b != [] && b[0] !in pat[1..]
    ensures !Contains(a + b, pat)
  {
    NoStartBefore(a, b, pat);
    forall j ensures !OccursAt(a + b, pat, j) {
      if OccursAt(a + b, pat, j) && |a| <= j {
        OccursAfter(a, b, pat, j);
      }
    }
  }

  /** Leading whitespace removed (`s.lstrip()`). */
  function StripStart(s: string): string {
    if s != [] && IsSpace(s[0]) then StripStart(s[1..]) else s
  }

  /** Trailing whitespace removed (`s.rstrip()`). */
  function StripEnd(s: string): string {
    if s != [] && IsSpace(s[|s| - 1]) then StripEnd(s[..|s| - 1]) else s
  }

  /** `s.strip()`: whitespace removed at both ends. */
  function Strip(s: string): string {
    StripEnd(StripStart(s))
  }

  /** `lstrip` drops exactly the leading run of whitespace. */
  lemma {:induction false} StripStartDropsSpace(s: string)
    ensures var r := StripStart(s);
      && |r| <= |s| && r == s[|s| - |r|..]
      && (forall i :: 0 <= i < |s| - |r| ==> IsSpace(s[i]))
      && (r == [] || !IsSpace(r[0]))
    decreases |s|
  {
    if s != [] && IsSpace(s[0]) {
      StripStartDropsSpace(s[1..]);
    }
  }

  /** `rstrip` drops exactly the trailing run of whitespace. */
  lemma {:induction false} StripEndDropsSpace(s: string)
    ensures var r := StripEnd(s);
      && |r| <= |s| && r == s[..|r|]
      && (forall i :: |r| <= i < |s| ==> IsSpace(s[i]))
      && (r == [] || !IsSpace(r[|r| - 1]))
    decreases |s|
  {
    if s != [] && IsSpace(s[|s| - 1]) {
      StripEndDropsSpace(s[..|s| - 1]);
    }
  }

  /** `strip` keeps a middle part of `s` that neither starts nor ends with
      whitespace, and everything it dropped is whitespace. */
  lemma StripTrims(s: string)
    ensures var r, lo := Strip(s), |s| - |StripStart(s)|;
      && (r == [] || (!IsSpace(r[0]) && !IsSpace(r[|r| - 1])))
      && 0 <= lo <= lo + |r| <= |s| && r == s[lo..lo + |r|]
      && (forall i :: 0 <= i < lo ==> IsSpace(s[i]))
      && (forall i :: lo + |r| <= i < |s| ==> IsSpace(s[i]))
  {
    var t := StripStart(s);
    StripStartDropsSpace(s);
    StripEndDropsSpace(t);
    var r := StripEnd(t);
    var lo := |s| - |t|;
    assert t == s[lo..];
    assert r == s[lo..][..|r|];
    forall i | lo + |r| <= i < |s| ensures IsSpace(s[i]) {
      assert s[i] == t[i - lo];
    }
  }

  /** Every character of `s.strip()` is a character of `s`. */
  lemma StripChars(s: string)
    ensures forall c :: c in Strip(s) ==> c in s
  {
    StripTrims(s);
    var lo := |s| - |StripStart(s)|;
    assert forall c :: c in s[lo..lo + |Strip(s)|] ==> c in s;
  }

  /** `lstrip` removes a leading run of whitespace and stops at the first
      other character. */
  lemma {:induction false} StripStartSkips(pre: string, s: string)
    requires forall i :: 0 <= i < |pre| ==> IsSpace(pre[i])
    requires s == [] || !IsSpace(s[0])
    ensures StripStart(pre + s) == s
    decreases |pre|
  {
    if pre != [] {
      assert (pre + s)[1..] == pre[1..] + s;
      StripStartSkips(pre[1..], s);
    } else {
      assert pre + s == s;
    }
  }

  /** `rstrip` removes a trailing run of whitespace and stops at the last
      other character. */
  lemma {:induction false} StripEndSkips(s: string, post: string)
    requires forall i :: 0 <= i < |post| ==> IsSpace(post[i])
    requires s == [] || !IsSpace(s[|s| - 1])
    ensures StripEnd(s + post) == s
    decreases |post|
  {
    if post != [] {
      assert (s + post)[..|s + post| - 1] == s + post[..|post| - 1];
      StripEndSkips(s, post[..|post| - 1]);
    } else {
      assert s + post == s;
    }
  }

  /** Whitespace around a word that neither starts nor ends with whitespace
      is exactly what `strip` removes. */
  lemma StripAround(pre: string, mid: string, post: string)
    requires forall i :: 0 <= i < |pre| ==> IsSpace(pre[i])
    requires forall i :: 0 <= i < |post| ==> IsSpace(post[i])
    requires mid != [] && !IsSpace(mid[0]) && !IsSpace(mid[|mid| - 1])
    ensures Strip(pre + mid + post) == mid
  {
    assert pre + mid + post == pre + (mid + post);
    StripStartSkips(pre, mid + post);
    StripEndSkips(mid, post);
  }

  /** A string without whitespace at its ends is its own strip. */
  lemma StripUnpadded(s: string)
    requires s == [] || (!IsSpace(s[0]) && !IsSpace(s[|s| - 1]))
    ensures Strip(s) == s
  {
  }

  /** Stripping twice is stripping once. */
  lemma StripIdempotent(s: string)
    ensures Strip(Strip(s)) == Strip(s)
  {
    StripTrims(s);
    StripUnpadded(Strip(s));
  }

  /** Python's `upper()` on an ASCII character. */
  function UpperChar(c: char): (u: char)
    ensures 'a' <= c <= 'z' ==> u != c && 'A' <= u <= 'Z'
    ensures !('a' <= c <= 'z') ==> u == c
  {
    if 'a' <= c <= 'z' then (c as int - 32) as char else c
  }

  /** `s.upper()`, character by character (ASCII letters only): no
      lower-case letter is left, and every other character stays in place. */
  function Upper(s: string): (r: string)
    ensures |r| == |s|
    ensures forall i :: 0 <= i < |r| ==> !('a' <= r[i] <= 'z')
    ensures forall i :: 0 <= i < |s| ==> r[i] == s[i] || ('a' <= s[i] <= 'z' && r[i] as int == s[i] as int - 32)
  {
    seq(|s|, i requires 0 <= i < |s| => UpperChar(s[i]))
  }

  /** Upper-casing leaves nothing to upper-case. */
  lemma UpperIdempotent(s: string)
    ensures Upper(Upper(s)) == Upper(s)
  {
  }

  /** Upper-casing neither creates nor removes whitespace. */
  lemma UpperKeepsSpace(c: char)
    ensures IsSpace(UpperChar(c)) == IsSpace(c)
  {
  }

  lemma {:induction false} StripStartUpper(s: string)
    ensures StripStart(Upper(s)) == Upper(StripStart(s))
    decreases |s|
  {
    if s != [] {
      UpperKeepsSpace(s[0]);
      assert Upper(s)[1..] == Upper(s[1..]);
      StripStartUpper(s[1..]);
    }
  }

  lemma {:induction false} StripEndUpper(s: string)
    ensures StripEnd(Upper(s)) == Upper(StripEnd(s))
    decreases |s|
  {
    if s != [] {
      UpperKeepsSpace(s[|s| - 1]);
      assert Upper(s)[..|s| - 1] == Upper(s[..|s| - 1]);
      StripEndUpper(s[..|s| - 1]);
    }
  }

  /** `s.upper().strip()` is `s.strip().upper()`. */
  lemma StripUpperCommute(s: string)
    ensures Strip(Upper(s)) == Upper(Strip(s))
  {
    StripStartUpper(s);
    StripEndUpper(StripStart(s));
  }
}
