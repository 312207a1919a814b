/** Substring facts about strings (Python `str`, a sequence of code points). */
module Text {

  /** `sub` occurs in `s` starting at offset `i`. */
  predicate OccursAt(s: string, sub: string, i: nat)
  {
    i + |sub| <= |s| && s[i..i + |sub|] == sub
  }

  /** Python's `sub in s`. */
  predicate Contains(s: string, sub: string)
  {
    exists i: nat | i <= |s| :: OccursAt(s, sub, i)
  }

  /** A string contains every middle part of a concatenation it is built from. */
  lemma ContainsMiddle(before: string, sub: string, after: string)
    ensures Contains(before + sub + after, sub)
  {
    assert OccursAt(before + sub + after, sub, |before|);
  }

  /** Containment survives adding text on either side. */
  lemma ContainsWithin(s: string, sub: string, before: string, after: string)
    requires Contains(s, sub)
    ensures Contains(before + s + after, sub)
  {
    var i: nat :| i <= |s| && OccursAt(s, sub, i);
    var whole := before + s + after;
    assert whole[|before| + i..|before| + i + |sub|] == s[i..i + |sub|];
    assert OccursAt(whole, sub, |before| + i);
  }

  /** A template with two holes contains what fills each hole. */
  lemma ContainsBothHoles(head: string, x: string, middle: string, y: string, tail: string)
    ensures Contains(head + x + middle + y + tail, x)
    ensures Contains(head + x + middle + y + tail, y)
  {
    ContainsMiddle(head, x, middle + y + tail);
    assert head + x + (middle + y + tail) == head + x + middle + y + tail;
    ContainsMiddle(head + x + middle, y, tail);
  }
}
