// The one-pass glob matcher with a single backtrack point, against what `*` and `?` mean.

module Glob {

  /** `*` stands for any text, `?` for any one character, every other character for itself. */
  ghost predicate Means(pattern: string, text: string)
    decreases |pattern| + |text|
  {
    if pattern == "" then text == ""
    else if pattern[0] == '*' then Means(pattern[1..], text) || (text != "" && Means(pattern, text[1..]))
    else text != "" && (pattern[0] == '?' || pattern[0] == text[0]) && Means(pattern[1..], text[1..])
  }

  /** The rest of the pattern means the rest of the text. */
  ghost predicate From(pattern: string, p: nat, text: string, t: nat)
    requires p <= |pattern| && t <= |text|
  {
    Means(pattern[p..], text[t..])
  }

  lemma FromStep(pattern: string, p: nat, text: string, t: nat)
    requires p <= |pattern| && t <= |text|
    ensures p == |pattern| ==> (From(pattern, p, text, t) <==> t == |text|)
    ensures p < |pattern| && pattern[p] == '*' ==>
              (From(pattern, p, text, t) <==>
               From(pattern, p + 1, text, t) || (t < |text| && From(pattern, p, text, t + 1)))
    ensures p < |pattern| && pattern[p] != '*' ==>
              (From(pattern, p, text, t) <==>
               t < |text| && (pattern[p] == '?' || pattern[p] == text[t]) && From(pattern, p + 1, text, t + 1))
  {
    if p < |pattern| {
      assert pattern[p..][0] == pattern[p] && pattern[p..][1..] == pattern[p + 1..];
    }
    if t < |text| {
      assert text[t..][0] == text[t] && text[t..][1..] == text[t + 1..];
    }
  }

  /** A star stands for any stretch of the text. */
  lemma {:induction false} StarTakes(pattern: string, p: nat, text: string, t: nat, m: nat)
    requires p < |pattern| && pattern[p] == '*' && t <= m <= |text| && From(pattern, p + 1, text, m)
    ensures From(pattern, p, text, t)
    decreases m - t
  {
    hide From;
    FromStep(pattern, p, text, t);
    if t < m {
      StarTakes(pattern, p, text, t + 1, m);
    }
  }

  lemma {:induction false} StarTook(pattern: string, p: nat, text: string, t: nat) returns (m: nat)
    requires p < |pattern| && pattern[p] == '*' && t <= |text| && From(pattern, p, text, t)
    ensures t <= m <= |text| && From(pattern, p + 1, text, m)
    decreases |text| - t
  {
    hide From;
    FromStep(pattern, p, text, t);
    if From(pattern, p + 1, text, t) {
      m := t;
    } else {
      m := StarTook(pattern, p, text, t + 1);
    }
  }

  /** A stretch of the pattern without stars takes exactly as many characters. */
  lemma {:induction false} StretchTakes(pattern: string, p: nat, q: nat, text: string, t: nat)
    requires p <= q <= |pattern| && t <= |text| && From(pattern, p, text, t)
    requires forall i :: p <= i < q ==> pattern[i] != '*'
    ensures t + (q - p) <= |text| && From(pattern, q, text, t + (q - p))
    decreases q - p
  {
    hide From;
    FromStep(pattern, p, text, t);
    if p < q {
      StretchTakes(pattern, p + 1, q, text, t + 1);
    }
  }

  /** The pattern after a star means the text from `m` on. */
  ghost predicate After(pattern: string, star: nat, text: string, m: nat)
    requires star < |pattern| && m <= |text|
  {
    From(pattern, star + 1, text, m)
  }

  /** Where the matcher may still succeed from: where it stands, or a later start after the last star. */
  ghost predicate Open(pattern: string, p: nat, text: string, t: nat, starred: bool, star: nat, mark: nat)
    requires p <= |pattern| && t <= |text| && (starred ==> star < |pattern|)
  {
    || From(pattern, p, text, t)
    || (starred && exists m :: mark < m <= |text| && After(pattern, star, text, m))
  }

  /** A start after an older star is also one after a newer star. */
  lemma NewerStarCovers(pattern: string, p: nat, text: string, t: nat, star: nat, mark: nat)
    requires star < p < |pattern| && mark <= t <= |text| && pattern[p] == '*'
    requires p - (star + 1) == t - mark && forall i :: star < i < p ==> pattern[i] != '*'
    requires Open(pattern, p, text, t, true, star, mark)
    ensures Open(pattern, p + 1, text, t, true, p, t)
  {
    hide From;
    if !From(pattern, p, text, t) {
      var m :| mark < m <= |text| && After(pattern, star, text, m);
      StretchTakes(pattern, star + 1, p, text, m);
      var k := StarTook(pattern, p, text, m + (t - mark));
      assert After(pattern, p, text, k);
    } else {
      var k := StarTook(pattern, p, text, t);
      assert After(pattern, p, text, k);
    }
  }

  /** At the end of the text no later start is left. */
  lemma NoLaterStart(pattern: string, p: nat, text: string, star: nat, mark: nat)
    requires star < p <= |pattern| && mark <= |text| && p - (star + 1) == |text| - mark
    requires forall i :: star < i < p ==> pattern[i] != '*'
    requires Open(pattern, p, text, |text|, true, star, mark)
    ensures From(pattern, p, text, |text|)
  {
    hide From;
    if !From(pattern, p, text, |text|) {
      var m :| mark < m <= |text| && After(pattern, star, text, m);
      StretchTakes(pattern, star + 1, p, text, m);
      assert false;
    }
  }

  lemma {:induction false} OnlyStarsLeft(pattern: string, p: nat, text: string)
    requires p <= |pattern|
    ensures From(pattern, p, text, |text|) <==> forall i :: p <= i < |pattern| ==> pattern[i] == '*'
    decreases |pattern| - p
  {
    hide From;
    FromStep(pattern, p, text, |text|);
    if p < |pattern| {
      OnlyStarsLeft(pattern, p + 1, text);
    }
  }

  /** Only stars are left of the pattern. */
  predicate Stars(pattern: string, p: nat) {
    forall i :: p <= i < |pattern| ==> pattern[i] == '*'
  }

  /** The search as a function of the matcher's variables. */
  function Search(pattern: string, p: nat, text: string, t: nat, starred: bool, star: nat, mark: nat): bool
    requires p <= |pattern| && mark <= t <= |text| && (starred ==> star < p)
    decreases |text| - mark, |pattern| - p
  {
    if t == |text| then Stars(pattern, p)
    else if p < |pattern| && (pattern[p] == '?' || pattern[p] == text[t]) then
      Search(pattern, p + 1, text, t + 1, starred, star, mark)
    else if p < |pattern| && pattern[p] == '*' then Search(pattern, p + 1, text, t, true, p, t)
    else if starred then Search(pattern, star + 1, text, mark + 1, true, star, mark + 1)
    else false
  }

  lemma AfterIs(pattern: string, star: nat, text: string, m: nat)
    requires star < |pattern| && m <= |text|
    ensures After(pattern, star, text, m) <==> From(pattern, star + 1, text, m)
  {
  }

  /** Every match it reports is one, from where it stands or from a start after its last star. */
  lemma {:induction false} SearchSound(pattern: string, p: nat, text: string, t: nat, starred: bool, star: nat,
                                       mark: nat)
    requires p <= |pattern| && mark <= t <= |text| && (starred ==> star < p)
    requires Search(pattern, p, text, t, starred, star, mark)
    ensures From(pattern, p, text, t) || (starred && exists m :: mark <= m <= |text| && After(pattern, star, text, m))
    decreases |text| - mark, |pattern| - p
  {
    hide From, After;
    FromStep(pattern, p, text, t);
    if t == |text| {
      OnlyStarsLeft(pattern, p, text);
    } else if p < |pattern| && (pattern[p] == '?' || pattern[p] == text[t]) {
      SearchSound(pattern, p + 1, text, t + 1, starred, star, mark);
      if pattern[p] == '*' && From(pattern, p + 1, text, t + 1) {
        StarTakes(pattern, p, text, t, t + 1);
      }
    } else if p < |pattern| && pattern[p] == '*' {
      SearchSound(pattern, p + 1, text, t, true, p, t);
      if m :| t <= m <= |text| && After(pattern, p, text, m) {
        AfterIs(pattern, p, text, m);
        StarTakes(pattern, p, text, t, m);
      }
    } else {
      SearchSound(pattern, star + 1, text, mark + 1, true, star, mark + 1);
      AfterIs(pattern, star, text, mark + 1);
    }
  }

  /** Without a star in the text it reports every match it may still succeed with. */
  lemma {:induction false} SearchComplete(pattern: string, p: nat, text: string, t: nat, starred: bool, star: nat,
                                          mark: nat)
    requires p <= |pattern| && mark <= t <= |text| && (starred ==> star < p) && '*' !in text
    requires starred ==> p - (star + 1) == t - mark && forall i :: star < i < p ==> pattern[i] != '*'
    requires Open(pattern, p, text, t, starred, star, mark)
    ensures Search(pattern, p, text, t, starred, star, mark)
    decreases |text| - mark, |pattern| - p
  {
    hide From, After;
    FromStep(pattern, p, text, t);
    if t == |text| {
      if starred {
        NoLaterStart(pattern, p, text, star, mark);
      }
      OnlyStarsLeft(pattern, p, text);
    } else if p < |pattern| && (pattern[p] == '?' || pattern[p] == text[t]) {
      assert pattern[p] != '*' by { assert text[t] in text; }
      SearchComplete(pattern, p + 1, text, t + 1, starred, star, mark);
    } else if p < |pattern| && pattern[p] == '*' {
      NewStar(pattern, p, text, t, starred, star, mark);
      SearchComplete(pattern, p + 1, text, t, true, p, t);
    } else {
      AfterIs(pattern, star, text, mark + 1);
      SearchComplete(pattern, star + 1, text, mark + 1, true, star, mark + 1);
    }
  }

  lemma NewStar(pattern: string, p: nat, text: string, t: nat, starred: bool, star: nat, mark: nat)
    requires p < |pattern| && pattern[p] == '*' && mark <= t <= |text| && (starred ==> star < p)
    requires starred ==> p - (star + 1) == t - mark && forall i :: star < i < p ==> pattern[i] != '*'
    requires Open(pattern, p, text, t, starred, star, mark)
    ensures Open(pattern, p + 1, text, t, true, p, t)
  {
    if starred {
      hide Open;
      NewerStarCovers(pattern, p, text, t, star, mark);
    } else {
      hide From;
      var k := StarTook(pattern, p, text, t);
      assert After(pattern, p, text, k);
    }
  }

  lemma SearchIsMeans(pattern: string, text: string)
    ensures Search(pattern, 0, text, 0, false, 0, 0) ==> Means(pattern, text)
    ensures '*' !in text ==> (Search(pattern, 0, text, 0, false, 0, 0) <==> Means(pattern, text))
  {
    assert From(pattern, 0, text, 0) <==> Means(pattern, text);
    hide From, Means, Search;
    if Search(pattern, 0, text, 0, false, 0, 0) {
      SearchSound(pattern, 0, text, 0, false, 0, 0);
    } else if '*' !in text && Means(pattern, text) {
      SearchComplete(pattern, 0, text, 0, false, 0, 0);
    }
  }

  /**
   * Every match it reports is one, and it reports all of them when the text itself has no `*`: a star of the
   * text is taken for a literal match of a star in the pattern, which then stands for one character only.
   */
  method GlobMatch(pattern: string, text: string) returns (matched: bool)
    ensures matched == Search(pattern, 0, text, 0, false, 0, 0)
    ensures matched ==> Means(pattern, text)
    ensures '*' !in text ==> (matched <==> Means(pattern, text))
  {
    SearchIsMeans(pattern, text);
    hide Means;
    var p, t, star, mark := 0, 0, 0, 0;
    var starred := false;
    while t < |text|
      invariant p <= |pattern| && t <= |text| && mark <= t && (starred ==> star < p)
      invariant Search(pattern, p, text, t, starred, star, mark) == Search(pattern, 0, text, 0, false, 0, 0)
      decreases |text| - mark, |pattern| - p
    {
      if p < |pattern| && (pattern[p] == '?' || pattern[p] == text[t]) {
        p := p + 1;
        t := t + 1;
      } else if p < |pattern| && pattern[p] == '*' {
        star, starred := p, true;
        p := p + 1;
        mark := t;
      } else if starred {
        p := star + 1;
        mark := mark + 1;
        t := mark;
      } else {
        return false;
      }
    }
    ghost var from := p;
    while p < |pattern| && pattern[p] == '*'
      invariant from <= p <= |pattern| && forall i :: from <= i < p ==> pattern[i] == '*'
    {
      p := p + 1;
    }
    return p == |pattern|;
  }

  // ------------------------------------------------------------------ a star in the text

  /** A pattern that repeats the start of the text gets past it character by character, and means it. */
  lemma {:induction false} SameStart(pattern: string, text: string, k: nat, i: nat)
    requires k <= i <= |text| && i <= |pattern|
    requires forall j :: 0 <= j < i ==> pattern[j] == text[j] && text[j] != '*'
    ensures Search(pattern, k, text, k, false, 0, 0) == Search(pattern, i, text, i, false, 0, 0)
    ensures From(pattern, i, text, i) ==> From(pattern, k, text, k)
    decreases i - k
  {
    hide From;
    if k < i {
      FromStep(pattern, k, text, k);
      SameStart(pattern, text, k + 1, i);
    }
  }

  lemma {:induction false} FirstStar(text: string) returns (i: nat)
    requires '*' in text
    ensures i < |text| && text[i] == '*' && forall j :: 0 <= j < i ==> text[j] != '*'
  {
    if text[0] == '*' {
      i := 0;
    } else {
      var k := FirstStar(text[1..]);
      i := k + 1;
      forall j | 0 <= j < i
        ensures text[j] != '*'
      {
        if j > 0 { assert text[1..][j - 1] == text[j]; }
      }
    }
  }

  /** Up to the first star of the text the pattern is the text; then a star, which the search spends on that star. */
  function Blind(text: string, i: nat): string
    requires i < |text|
  {
    text[..i] + if i + 1 < |text| then "*" else "*?"
  }

  lemma BlindMisses(text: string, i: nat)
    requires i < |text| && text[i] == '*' && forall j :: 0 <= j < i ==> text[j] != '*'
    ensures Means(Blind(text, i), text) && !Search(Blind(text, i), 0, text, 0, false, 0, 0)
  {
    var pattern := Blind(text, i);
    assert pattern[i] == '*' && From(pattern, 0, text, 0) <==> Means(pattern, text);
    hide From, Means;
    SameStart(pattern, text, 0, i);
    if i + 1 < |text| {
      OnlyStarsLeft(pattern, i + 1, text);
      StarTakes(pattern, i, text, i, |text|);
    } else {
      OnlyStarsLeft(pattern, i + 2, text);
      FromStep(pattern, i + 1, text, i);
      StarTakes(pattern, i, text, i, i);
    }
  }

  /** The matcher is right about every pattern exactly for the texts without a star. */
  lemma ExactIffNoStar(text: string)
    ensures (forall pattern :: Search(pattern, 0, text, 0, false, 0, 0) == Means(pattern, text)) <==> '*' !in text
  {
    hide Search, Means;
    if '*' in text {
      var i := FirstStar(text);
      BlindMisses(text, i);
    } else {
      forall pattern: string
        ensures Search(pattern, 0, text, 0, false, 0, 0) == Means(pattern, text)
      {
        SearchIsMeans(pattern, text);
      }
    }
  }
}
