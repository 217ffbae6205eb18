/** Facts about where one string occurs inside another, used to state what
    the composed prompts contain and in which order. */
module Text {

  /** `p` occurs in `s` starting at index `i`. */
  ghost predicate OccursAt(s: string, p: string, i: int)
  {
    0 <= i && i + |p| <= |s| && s[i..i + |p|] == p
  }

  ghost predicate Contains(s: string, p: string)
  {
    exists i :: OccursAt(s, p, i)
  }

  ghost predicate EndsWith(s: string, p: string)
  {
    |p| <= |s| && s[|s| - |p|..] == p
  }

  /** The `parts` occur in `s` one after another, none overlapping the next. */
  ghost predicate InOrder(s: string, parts: seq<string>)
    decreases |parts|
  {
    parts == [] ||
    exists i :: OccursAt(s, parts[0], i) && InOrder(s[i + |parts[0]|..], parts[1..])
  }

  lemma InOrderContains(s: string, parts: seq<string>, k: nat)
    requires InOrder(s, parts) && k < |parts|
    ensures Contains(s, parts[k])
    decreases k
  {
    var i :| OccursAt(s, parts[0], i) && InOrder(s[i + |parts[0]|..], parts[1..]);
    if k == 0 {
      assert OccursAt(s, parts[0], i);
    } else {
      var t := s[i + |parts[0]|..];
      InOrderContains(t, parts[1..], k - 1);
      var j :| OccursAt(t, parts[1..][k - 1], j);
      var off := i + |parts[0]|;
      assert s[off + j..off + j + |parts[k]|] == t[j..j + |parts[k]|];
      assert OccursAt(s, parts[k], off + j);
    }
  }

  /** Appending text and one more part keeps the earlier parts in order and
      puts the new part after them. */
  lemma {:induction false} InOrderSnoc(s: string, parts: seq<string>, gap: string, p: string)
    requires InOrder(s, parts)
    ensures InOrder(s + gap + p, parts + [p])
    decreases |parts|
  {
    var u := s + gap + p;
    if parts == [] {
      assert OccursAt(u, p, |s + gap|);
      assert u[|s + gap| + |p|..] == [];
      assert InOrder(u[|s + gap| + |p|..], (parts + [p])[1..]);
    } else {
      var i :| OccursAt(s, parts[0], i) && InOrder(s[i + |parts[0]|..], parts[1..]);
      var t := s[i + |parts[0]|..];
      InOrderSnoc(t, parts[1..], gap, p);
      assert u[i..i + |parts[0]|] == s[i..i + |parts[0]|];
      assert u[i + |parts[0]|..] == t + gap + p;
      assert (parts + [p])[1..] == parts[1..] + [p];
      assert (parts + [p])[0] == parts[0];
      assert OccursAt(u, (parts + [p])[0], i);
    }
  }

  /** Trailing text does not disturb the order of the parts. */
  lemma {:induction false} InOrderExtend(s: string, parts: seq<string>, tail: string)
    requires InOrder(s, parts)
    ensures InOrder(s + tail, parts)
    decreases |parts|
  {
    if parts != [] {
      var i :| OccursAt(s, parts[0], i) && InOrder(s[i + |parts[0]|..], parts[1..]);
      var t := s[i + |parts[0]|..];
      InOrderExtend(t, parts[1..], tail);
      var u := s + tail;
      assert u[i..i + |parts[0]|] == s[i..i + |parts[0]|];
      assert u[i + |parts[0]|..] == t + tail;
      assert OccursAt(u, parts[0], i);
    }
  }

  lemma OccursBetween(a: string, p: string, b: string)
    ensures OccursAt(a + p + b, p, |a|) && Contains(a + p + b, p)
  {
    assert (a + p + b)[|a|..|a| + |p|] == p;
    assert OccursAt(a + p + b, p, |a|);
  }
  lemma ContainsExtend(s: string, p: string, t: string)
    requires Contains(s, p)
    ensures Contains(s + t, p) && Contains(t + s, p)
  {
    var i :| OccursAt(s, p, i);
    assert (s + t)[i..i + |p|] == s[i..i + |p|];
    assert OccursAt(s + t, p, i);
    assert (t + s)[|t| + i..|t| + i + |p|] == s[i..i + |p|];
    assert OccursAt(t + s, p, |t| + i);
  }

  lemma ContainsTransitive(s: string, t: string, p: string)
    requires Contains(s, t) && Contains(t, p)
    ensures Contains(s, p)
  {
    var i :| OccursAt(s, t, i);
    var j :| OccursAt(t, p, j);
    forall k | 0 <= k < |p|
      ensures s[i + j + k] == p[k]
    {
      assert t[j + k] == p[k];
      assert s[i + (j + k)] == s[i..i + |t|][j + k];
    }
    assert s[i + j..i + j + |p|] == p;
    assert OccursAt(s, p, i + j);
  }

  /** Both marked parts of `a + p + b + q + c` occur in it. */
  lemma ContainsBoth(a: string, p: string, b: string, q: string, c: string)
    ensures Contains(a + p + b + q + c, p) && Contains(a + p + b + q + c, q)
  {
    OccursBetween(a, p, b);
    ContainsExtend(a + p + b, p, q);
    ContainsExtend(a + p + b + q, p, c);
    OccursBetween(a + p + b, q, c);
  }

  /** The first slot of `a + p + b + q + c + r` is contained in it, and it
      ends with the last. */
  lemma Framed(a: string, p: string, b: string, q: string, c: string, r: string)
    ensures Contains(a + p + b + q + c + r, p) && EndsWith(a + p + b + q + c + r, r)
  {
    OccursBetween(a, p, b + q + c + r);
    assert a + p + (b + q + c + r) == a + p + b + q + c + r;
  }

  /** A suffix is contained, and so is whatever the suffix contains. */
  lemma EndsWithContains(s: string, r: string, p: string)
    requires EndsWith(s, r) && Contains(r, p)
    ensures Contains(s, p)
  {
    assert OccursAt(s, r, |s| - |r|);
    ContainsTransitive(s, r, p);
  }

  /** Two texts whose third characters from the end differ are never both
      suffixes of the same string. */
  lemma EndsWithDistinct(s: string, r: string, o: string)
    requires EndsWith(s, r) && 3 <= |r| && 3 <= |o| && r[|r| - 3] != o[|o| - 3]
    ensures !EndsWith(s, o)
  {
    assert s[|s| - 3] == s[|s| - |r|..][|r| - 3];
  }

  /** A text that lacks some character of `p` does not contain `p`. */
  lemma MissingCharExcludes(s: string, p: string, c: char)
    requires c in p && c !in s
    ensures !Contains(s, p)
  {
  }

  // Parts separated by arbitrary text, for one to six parts. Each is stated
  // over variables so that long literals never enter the proof.

  lemma Ordered1(a: string, w1: string)
    ensures InOrder(a + w1, [w1])
  {
    InOrderSnoc("", [], a, w1);
    assert "" + a + w1 == a + w1;
  }

  lemma Ordered2(a: string, w1: string, b: string, w2: string)
    ensures InOrder(a + w1 + b + w2, [w1, w2])
  {
    Ordered1(a, w1);
    InOrderSnoc(a + w1, [w1], b, w2);
    assert [w1] + [w2] == [w1, w2];
  }

  lemma Ordered3(a: string, w1: string, b: string, w2: string, c: string, w3: string)
    ensures InOrder(a + w1 + b + w2 + c + w3, [w1, w2, w3])
  {
    Ordered2(a, w1, b, w2);
    InOrderSnoc(a + w1 + b + w2, [w1, w2], c, w3);
    assert [w1, w2] + [w3] == [w1, w2, w3];
  }

  lemma Ordered4(a: string, w1: string, b: string, w2: string, c: string, w3: string, d: string, w4: string)
    ensures InOrder(a + w1 + b + w2 + c + w3 + d + w4, [w1, w2, w3, w4])
  {
    Ordered3(a, w1, b, w2, c, w3);
    InOrderSnoc(a + w1 + b + w2 + c + w3, [w1, w2, w3], d, w4);
    assert [w1, w2, w3] + [w4] == [w1, w2, w3, w4];
  }

  lemma Ordered5(a: string, w1: string, b: string, w2: string, c: string, w3: string, d: string, w4: string,
                 e: string, w5: string)
    ensures InOrder(a + w1 + b + w2 + c + w3 + d + w4 + e + w5, [w1, w2, w3, w4, w5])
  {
    Ordered4(a, w1, b, w2, c, w3, d, w4);
    InOrderSnoc(a + w1 + b + w2 + c + w3 + d + w4, [w1, w2, w3, w4], e, w5);
    assert [w1, w2, w3, w4] + [w5] == [w1, w2, w3, w4, w5];
  }

  lemma Ordered6(a: string, w1: string, b: string, w2: string, c: string, w3: string, d: string, w4: string,
                 e: string, w5: string, f: string, w6: string)
    ensures InOrder(a + w1 + b + w2 + c + w3 + d + w4 + e + w5 + f + w6, [w1, w2, w3, w4, w5, w6])
  {
    Ordered5(a, w1, b, w2, c, w3, d, w4, e, w5);
    InOrderSnoc(a + w1 + b + w2 + c + w3 + d + w4 + e + w5, [w1, w2, w3, w4, w5], f, w6);
    assert [w1, w2, w3, w4, w5] + [w6] == [w1, w2, w3, w4, w5, w6];
  }
}
