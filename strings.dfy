/** The Python string operations the loader applies to column labels and cells. */
module Strings {

  /** Python's `key in s`: `key` occurs in `s` as a contiguous run (the empty key occurs everywhere). */
  predicate Contains(s: string, key: string)
    ensures s == [] ==> (Contains(s, key) <==> key == [])
    decreases |s|
  {
    key <= s || (s != [] && Contains(s[1..], key))
  }

  /** `key` is the slice of `s` starting at position `p`. */
  predicate OccursAt(s: string, key: string, p: int) {
    0 <= p <= |s| - |key| && s[p..p + |key|] == key
  }

  /** A contained key occurs at some position: the position of the first occurrence. */
  lemma {:induction false} ContainsPosition(s: string, key: string) returns (p: nat)
    requires Contains(s, key)
    ensures OccursAt(s, key, p)
    decreases |s|
  {
    if key <= s {
      p := 0;
      assert s[0..|key|] == key;
    } else {
      var q := ContainsPosition(s[1..], key);
      p := q + 1;
      assert s[p..p + |key|] == s[1..][q..q + |key|];
    }
  }

  /** A key occurring at some position is contained. */
  lemma {:induction false} PositionContains(s: string, key: string, p: nat)
    requires OccursAt(s, key, p)
    ensures Contains(s, key)
    decreases p
  {
    if p == 0 {
      assert key <= s;
    } else {
      assert s[1..][p - 1..p - 1 + |key|] == s[p..p + |key|];
      PositionContains(s[1..], key, p - 1);
    }
  }

  /** `key in s` holds exactly when `key` occurs in `s` at some position. */
  lemma ContainsIsSubstring(s: string, key: string)
    ensures Contains(s, key) <==> exists p :: OccursAt(s, key, p)
  {
    if Contains(s, key) {
      var p := ContainsPosition(s, key);
    }
    if exists p :: OccursAt(s, key, p) {
      var p :| OccursAt(s, key, p);
      PositionContains(s, key, p);
    }
  }

  /** A string that starts with `p` contains everything `p` contains. */
  lemma {:induction false} PrefixContains(p: string, s: string, key: string)
    requires p <= s && Contains(p, key)
    ensures Contains(s, key)
    decreases |p|
  {
    if !(key <= p) {
      assert p != [] && s != [];
      assert p[1..] <= s[1..];
      PrefixContains(p[1..], s[1..], key);
    }
  }

  /** Containment is transitive. */
  lemma {:induction false} ContainsTransitive(s: string, mid: string, key: string)
    requires Contains(s, mid) && Contains(mid, key)
    ensures Contains(s, key)
    decreases |s|
  {
    if mid <= s {
      PrefixContains(mid, s, key);
    } else {
      ContainsTransitive(s[1..], mid, key);
    }
  }

  /** Every character of a contained string occurs in the containing one. */
  lemma {:induction false} ContainedCharsOccur(s: string, key: string, c: char)
    requires Contains(s, key) && c in key
    ensures c in s
    decreases |s|
  {
    if key <= s {
      var k :| 0 <= k < |key| && key[k] == c;
      assert s[k] == c;
    } else {
      ContainedCharsOccur(s[1..], key, c);
    }
  }

  /** A string lacking one of `key`'s characters does not contain `key`. */
  lemma NotContained(s: string, key: string, c: char)
    requires c in key && c !in s
    ensures !Contains(s, key)
  {
    if Contains(s, key) {
      ContainedCharsOccur(s, key, c);
    }
  }

  /** Python's `str.isspace` for one character: the characters `str.strip()` removes. */
  predicate IsSpace(c: char)
    ensures IsAsciiChar(c) && IsSpace(c) ==> c <= ' '
    ensures c == ' ' || c == '\t' || c == '\n' || c == '\r' ==> IsSpace(c)
  {
    || ('\t' <= c <= '\r')
    || ('\U{1C}' <= c <= ' ')
    || c == '\U{85}' || c == '\U{A0}' || c == '\U{1680}'
    || ('\U{2000}' <= c <= '\U{200A}')
    || c == '\U{2028}' || c == '\U{2029}' || c == '\U{202F}' || c == '\U{205F}' || c == '\U{3000}'
  }

  /** Python's `str.strip()`: drop whitespace at both ends. */
  function Strip(s: string): (r: string)
    ensures |r| <= |s|
    ensures r == [] || (!IsSpace(r[0]) && !IsSpace(r[|r| - 1]))
    ensures Contains(s, r)
    decreases |s|
  {
    if s != [] && IsSpace(s[0]) then
      Strip(s[1..])
    else if s != [] && IsSpace(s[|s| - 1]) then
      var r := Strip(s[..|s| - 1]);
      PrefixContains(s[..|s| - 1], s, r);
      r
    else
      s
  }

  /** The slice between a blank prefix `s[..i]` and a blank suffix `s[j..]`. */
  predicate TrimmedAt(s: string, r: string, i: nat, j: nat) {
    && i <= j <= |s| && r == s[i..j]
    && (forall k | 0 <= k < i :: IsSpace(s[k]))
    && (forall k | j <= k < |s| :: IsSpace(s[k]))
  }

  /** A trimmed slice of `s[1..]` is one of `s` when `s[0]` is blank. */
  lemma TrimmedAfterFirst(s: string, r: string, i: nat, j: nat)
    requires s != [] && IsSpace(s[0]) && TrimmedAt(s[1..], r, i, j)
    ensures TrimmedAt(s, r, i + 1, j + 1)
  {
    var tail := s[1..];
    assert tail[i..j] == s[i + 1..j + 1];
    forall k | 0 <= k < i + 1 ensures IsSpace(s[k]) {
      if k > 0 { assert s[k] == tail[k - 1]; }
    }
    forall k | j + 1 <= k < |s| ensures IsSpace(s[k]) {
      assert s[k] == tail[k - 1];
    }
  }

  /** A trimmed slice of `s` without its last character is one of `s` when that character is blank. */
  lemma TrimmedBeforeLast(s: string, r: string, i: nat, j: nat)
    requires s != [] && IsSpace(s[|s| - 1]) && TrimmedAt(s[..|s| - 1], r, i, j)
    ensures TrimmedAt(s, r, i, j)
  {
    var init := s[..|s| - 1];
    assert init[i..j] == s[i..j];
    forall k | 0 <= k < i ensures IsSpace(s[k]) {
      assert s[k] == init[k];
    }
    forall k | j <= k < |s| ensures IsSpace(s[k]) {
      if k < |s| - 1 { assert s[k] == init[k]; }
    }
  }

  /** `strip()` cuts whitespace only: its result is the slice between a blank prefix and a blank suffix. */
  lemma {:induction false} StripIsTrimmedSlice(s: string) returns (i: nat, j: nat)
    ensures TrimmedAt(s, Strip(s), i, j)
    decreases |s|
  {
    if s != [] && IsSpace(s[0]) {
      var i', j' := StripIsTrimmedSlice(s[1..]);
      TrimmedAfterFirst(s, Strip(s[1..]), i', j');
      i, j := i' + 1, j' + 1;
    } else if s != [] && IsSpace(s[|s| - 1]) {
      i, j := StripIsTrimmedSlice(s[..|s| - 1]);
      TrimmedBeforeLast(s, Strip(s[..|s| - 1]), i, j);
    } else {
      i, j := 0, |s|;
    }
  }

  predicate IsAsciiChar(c: char) {
    c < '\U{80}'
  }

  predicate IsAscii(s: string) {
    forall i | 0 <= i < |s| :: IsAsciiChar(s[i])
  }

  /** `s.encode('ascii', 'ignore').decode('utf-8')`: the ASCII characters of `s`, in order. */
  function AsciiOnly(s: string): (r: string)
    ensures IsAscii(r)
    ensures |r| <= |s|
    ensures forall c :: c in r <==> c in s && IsAsciiChar(c)
    ensures IsAscii(s) ==> r == s
    decreases |s|
  {
    if s == [] then []
    else
      assert IsAscii(s) ==> IsAscii(s[1..]);
      (if IsAsciiChar(s[0]) then [s[0]] else []) + AsciiOnly(s[1..])
  }

  /** One character survives exactly when it is ASCII. */
  lemma AsciiOnlyChar(c: char)
    ensures AsciiOnly([c]) == (if IsAsciiChar(c) then [c] else [])
  {
    assert [c][1..] == [];
  }

  /**
   * Dropping non-ASCII characters works character by character: with
   * AsciiOnlyChar this fixes the result as the input's ASCII characters in
   * their order, repeats included.
   */
  lemma {:induction false} AsciiOnlyAppend(a: string, b: string)
    ensures AsciiOnly(a + b) == AsciiOnly(a) + AsciiOnly(b)
    decreases |a|
  {
    if a == [] {
      assert a + b == b;
    } else {
      assert (a + b)[0] == a[0];
      assert (a + b)[1..] == a[1..] + b;
      AsciiOnlyAppend(a[1..], b);
    }
  }
}
