/**
 * The two regular expressions the generator uses to pull code out of a model's reply,
 * written as explicit delimiter searches:
 *
 *   a fenced block     /```[\w]*\n?([\s\S]*?)```/
 *   a tagged region    /<code>([\s\S]*?)<\/code>/   (and the same shape with <generated_code>)
 *
 * Each search is related to a declarative description of every way the pattern can match
 * (a "candidate"), and proved to return the candidate a backtracking matcher reports first:
 * leftmost start, then the longest `[\w]*\n?` prefix, then the shortest lazy body.
 */
module CodeMatch {
  import opened Wrappers
  import opened JsStrings

  const Fence: string := "```"

  /** One match: the whole match starts at `start`; the captured group is s[bodyStart..bodyEnd]. */
  datatype Match = Match(start: nat, bodyStart: nat, bodyEnd: nat)

  predicate AllWord(s: string, lo: nat, hi: nat)
    requires lo <= hi <= |s|
  {
    forall k :: lo <= k < hi ==> IsWordChar(s[k])
  }

  lemma FenceChars(s: string, i: nat)
    requires OccursAt(s, Fence, i)
    ensures i + 3 <= |s| && s[i] == '`' && s[i + 1] == '`' && s[i + 2] == '`'
  {
    assert s[i..i + 3] == Fence;
    assert s[i..i + 3][0] == s[i] && s[i..i + 3][1] == s[i + 1] && s[i..i + 3][2] == s[i + 2];
  }

  /**
   * Every way /```[\w]*\n?([\s\S]*?)```/ can match `s`: an opening fence, a run of word
   * characters optionally followed by one newline, the group, and a closing fence.
   */
  predicate FenceCandidate(s: string, m: Match) {
    && OccursAt(s, Fence, m.start)
    && OccursAt(s, Fence, m.bodyEnd)
    && m.start + |Fence| <= m.bodyStart <= m.bodyEnd
    && (|| AllWord(s, m.start + |Fence|, m.bodyStart)
        || (&& m.bodyStart > m.start + |Fence|
            && s[m.bodyStart - 1] == '\n'
            && AllWord(s, m.start + |Fence|, m.bodyStart - 1)))
  }

  /** `a` is reported before `b` by a backtracking matcher (leftmost, then greedy prefix, then lazy body). */
  predicate Preferred(a: Match, b: Match) {
    || a.start < b.start
    || (a.start == b.start && a.bodyStart > b.bodyStart)
    || (a.start == b.start && a.bodyStart == b.bodyStart && a.bodyEnd <= b.bodyEnd)
  }

  /** End of the maximal run of word characters starting at `p`. */
  function WordRunEnd(s: string, p: nat): (j: nat)
    requires p <= |s|
    ensures p <= j <= |s| && AllWord(s, p, j)
    ensures j == |s| || !IsWordChar(s[j])
    decreases |s| - p
  {
    if p < |s| && IsWordChar(s[p]) then WordRunEnd(s, p + 1) else p
  }

  /** Where the group starts after the opening fence at `i`: past `[\w]*` and one optional newline. */
  function BodyStart(s: string, i: nat): nat
    requires i + |Fence| <= |s|
  {
    var j := WordRunEnd(s, i + |Fence|);
    if j < |s| && s[j] == '\n' then j + 1 else j
  }

  /** The delimiter search: first fence, skip the language tag, first fence after that. */
  function FenceMatch(s: string): Option<Match> {
    match IndexOfFrom(s, Fence, 0)
    case None => None
    case Some(i) =>
      var b := BodyStart(s, i);
      match IndexOfFrom(s, Fence, b)
      case None => None
      case Some(m) => Some(Match(i, b, m))
  }

  /** `s` is `code` wrapped in a fence that opens with a word-character tag and a newline. */
  predicate Wrapped(s: string, tag: string, code: string) {
    && s == Fence + tag + "\n" + code + Fence
    && (forall k :: 0 <= k < |tag| ==> IsWordChar(tag[k]))
    && '`' !in code
  }

  /** The search finds the opening fence at 0, the group right after the newline and the closing fence after the code. */
  lemma WrappedMatch(s: string, tag: string, code: string)
    requires Wrapped(s, tag, code)
    ensures FenceMatch(s) == Some(Match(0, |tag| + 4, |tag| + 4 + |code|))
  {
    WrappedOpens(s, tag, code);
    WrappedBody(s, tag, code);
    WrappedCloses(s, tag, code);
  }

  lemma WrappedOpens(s: string, tag: string, code: string)
    requires Wrapped(s, tag, code)
    ensures IndexOfFrom(s, Fence, 0) == Some(0)
  {
    assert s[..3] == Fence;
    assert OccursAt(s, Fence, 0);
  }

  lemma WrappedBody(s: string, tag: string, code: string)
    requires Wrapped(s, tag, code)
    ensures BodyStart(s, 0) == |tag| + 4
  {
    var n := 3 + |tag|;
    assert s[n] == '\n';
    forall k | 3 <= k < n
      ensures IsWordChar(s[k])
    {
      assert s[k] == tag[k - 3];
    }
    assert WordRunEnd(s, 3) == n;
  }

  lemma WrappedCloses(s: string, tag: string, code: string)
    requires Wrapped(s, tag, code)
    ensures IndexOfFrom(s, Fence, |tag| + 4) == Some(|tag| + 4 + |code|)
  {
    var b := |tag| + 4;
    var close := b + |code|;
    assert s[close..close + 3] == Fence;
    assert OccursAt(s, Fence, close);
    forall k | b <= k < close
      ensures !OccursAt(s, Fence, k)
    {
      assert s[k] == code[k - b];
    }
  }

  /** Between the opening fence and the group there is no backtick. */
  lemma NoBacktickBeforeBody(s: string, i: nat, k: nat)
    requires i + |Fence| <= |s|
    requires i + |Fence| <= k < BodyStart(s, i)
    ensures s[k] != '`'
  {
    var j := WordRunEnd(s, i + |Fence|);
    if k < j {
      assert IsWordChar(s[k]);
    } else {
      assert k == j && s[j] == '\n';
    }
  }

  /**
   * With `f` the first fence in `s`, no candidate closes before the group start chosen for
   * `f`, and no candidate opening at `f` has a later group start.
   */
  lemma CandidateBounds(s: string, f: nat, c: Match)
    requires IndexOfFrom(s, Fence, 0) == Some(f)
    requires FenceCandidate(s, c)
    ensures f <= c.start
    ensures c.bodyEnd >= BodyStart(s, f)
    ensures c.start == f ==> c.bodyStart <= BodyStart(s, f)
  {
    FenceChars(s, f);
    FenceChars(s, c.start);
    FenceChars(s, c.bodyEnd);
    var big := BodyStart(s, f);
    var j := WordRunEnd(s, f + 3);
    if c.start == f {
      if c.bodyEnd < big {
        NoBacktickBeforeBody(s, f, c.bodyEnd);
      }
    } else if c.start < big {
      if c.start >= f + 3 {
        NoBacktickBeforeBody(s, f, c.start);
      } else {
        assert s[f + 3] == '`';
        assert j == f + 3;
      }
    }
  }

  /**
   * The delimiter search agrees with the regular expression: it returns a candidate that is
   * preferred to every other candidate, and it finds nothing exactly when no candidate exists.
   */
  lemma FenceMatchIsFirstCandidate(s: string)
    ensures FenceMatch(s).Some? ==> FenceCandidate(s, FenceMatch(s).value)
    ensures FenceMatch(s).Some? ==> forall c :: FenceCandidate(s, c) ==> Preferred(FenceMatch(s).value, c)
    ensures FenceMatch(s).None? <==> forall c :: !FenceCandidate(s, c)
  {
    match IndexOfFrom(s, Fence, 0)
    case None =>
      forall c ensures !FenceCandidate(s, c) {
        assert 0 <= c.start;
      }
    case Some(f) =>
      FirstFenceBoundsCandidates(s, f);
      FirstFenceMatchIsCandidate(s, f);
  }

  /** Every candidate closes at or after the body of the first fence, and the search's match is preferred to it. */
  lemma FirstFenceBoundsCandidates(s: string, f: nat)
    requires IndexOfFrom(s, Fence, 0) == Some(f)
    ensures forall c :: FenceCandidate(s, c) ==> c.bodyEnd >= BodyStart(s, f)
    ensures FenceMatch(s).Some? ==> forall c :: FenceCandidate(s, c) ==> Preferred(FenceMatch(s).value, c)
  {
    forall c | FenceCandidate(s, c)
      ensures c.bodyEnd >= BodyStart(s, f)
      ensures FenceMatch(s).Some? ==> Preferred(FenceMatch(s).value, c)
    {
      CandidateBounds(s, f, c);
    }
  }

  /** What the search returns from the first fence on is itself a candidate. */
  lemma FirstFenceMatchIsCandidate(s: string, f: nat)
    requires IndexOfFrom(s, Fence, 0) == Some(f)
    ensures FenceMatch(s).Some? ==> FenceCandidate(s, FenceMatch(s).value)
  {
    FenceChars(s, f);
    var b := BodyStart(s, f);
    var j := WordRunEnd(s, f + 3);
    match IndexOfFrom(s, Fence, b)
    case None =>
    case Some(m) =>
      var mt := Match(f, b, m);
      if b > f + 3 && !AllWord(s, f + 3, b) {
        assert s[b - 1] == '\n' && j == b - 1;
      }
      assert FenceCandidate(s, mt);
  }

  /** Every way /<open>([\s\S]*?)<close>/ can match `s`. */
  predicate TagCandidate(s: string, open: string, close: string, m: Match) {
    && OccursAt(s, open, m.start)
    && m.bodyStart == m.start + |open|
    && m.bodyStart <= m.bodyEnd
    && OccursAt(s, close, m.bodyEnd)
  }

  /** The delimiter search: first opening tag, then the first closing tag after it. */
  function TagMatch(s: string, open: string, close: string): Option<Match> {
    match IndexOfFrom(s, open, 0)
    case None => None
    case Some(i) =>
      match IndexOfFrom(s, close, i + |open|)
      case None => None
      case Some(m) => Some(Match(i, i + |open|, m))
  }

  /** The tag search returns the candidate a backtracking matcher reports, and nothing only when none exists. */
  lemma TagMatchIsFirstCandidate(s: string, open: string, close: string)
    ensures TagMatch(s, open, close).Some? ==> TagCandidate(s, open, close, TagMatch(s, open, close).value)
    ensures TagMatch(s, open, close).Some? ==>
              forall c :: TagCandidate(s, open, close, c) ==> Preferred(TagMatch(s, open, close).value, c)
    ensures TagMatch(s, open, close).None? <==> forall c :: !TagCandidate(s, open, close, c)
  {
    match IndexOfFrom(s, open, 0)
    case None =>
      forall c ensures !TagCandidate(s, open, close, c) {
        assert 0 <= c.start;
      }
    case Some(f) =>
      forall c | TagCandidate(s, open, close, c)
        ensures f <= c.start && c.bodyEnd >= f + |open|
      {
        assert 0 <= c.start;
      }
      match IndexOfFrom(s, close, f + |open|)
      case None =>
      case Some(m) =>
        assert TagCandidate(s, open, close, Match(f, f + |open|, m));
  }
}
