/** Which of the listed releases a poll looks at (internal/providers/source/release_pick.go),
    and what a poll makes of the same list given in another order. Tags are compared as Go
    compares strings: byte by byte, which for UTF-8 is the order of the code points. */
module ReleasePick {
  import opened Wrappers
  import PollModel

  /** `publishedAt` is an instant. */
  datatype Release = Release(tag: string, publishedAt: int, name: string, notes: string)

  /** Go's `<` on strings. */
  predicate Less(a: string, b: string) {
    b != "" && (a == "" || a[0] < b[0] || (a[0] == b[0] && Less(a[1..], b[1..])))
  }

  predicate Newer(a: Release, b: Release) {
    a.publishedAt > b.publishedAt || (a.publishedAt == b.publishedAt && Less(b.tag, a.tag))
  }

  /** Same instant and tag: the choice cannot tell them apart. */
  predicate Tied(a: Release, b: Release) {
    a.publishedAt == b.publishedAt && a.tag == b.tag
  }

  ghost predicate IsNewest(r: Release, candidates: seq<Release>) {
    r in candidates && forall c | c in candidates :: !Newer(c, r)
  }

  /** pickNewestRelease: the index of the candidate it points at. */
  method PickNewestRelease(candidates: seq<Release>) returns (best: Option<nat>)
    ensures best.None? <==> candidates == []
    ensures best.Some? ==> best.value < |candidates| && IsNewest(candidates[best.value], candidates)
    ensures best.Some? ==> forall c | c in candidates ::
              c.publishedAt < candidates[best.value].publishedAt
              || (c.publishedAt == candidates[best.value].publishedAt && !Less(candidates[best.value].tag, c.tag))
    ensures best.Some? ==> forall j | 0 <= j < best.value :: !Tied(candidates[j], candidates[best.value])
  {
    if |candidates| == 0 { return None; }
    var b := 0;
    NewerIsIrreflexive(candidates[0]);
    for i := 1 to |candidates|
      invariant 0 <= b < i
      invariant forall j | 0 <= j < i :: !Newer(candidates[j], candidates[b])
      invariant forall j | 0 <= j < b :: !Tied(candidates[j], candidates[b])
    {
      var candidate := candidates[i];
      NewerIsIrreflexive(candidate);
      if candidate.publishedAt > candidates[b].publishedAt {
        SupersedesBest(candidates[..i], candidates[b], candidate);
        b := i;
        continue;
      }
      if candidate.publishedAt == candidates[b].publishedAt && Less(candidates[b].tag, candidate.tag) {
        SupersedesBest(candidates[..i], candidates[b], candidate);
        b := i;
      }
    }
    return Some(b);
  }

  /** Nothing that was not newer than the best so far is newer than, or tied with, its replacement. */
  lemma SupersedesBest(earlier: seq<Release>, best: Release, candidate: Release)
    requires Newer(candidate, best) && forall c | c in earlier :: !Newer(c, best)
    ensures forall j | 0 <= j < |earlier| :: !Newer(earlier[j], candidate) && !Tied(earlier[j], candidate)
  {
    forall j | 0 <= j < |earlier| ensures !Newer(earlier[j], candidate) && !Tied(earlier[j], candidate) {
      assert earlier[j] in earlier;
      if Newer(earlier[j], candidate) { NewerIsTransitive(earlier[j], candidate, best); }
    }
  }

  // ---- the order ------------------------------------------------------------------------------

  /** Go's order of strings: `a` is a proper prefix of `b`, or is smaller at the first place
      where they differ. */
  lemma {:induction false} LessMeans(a: string, b: string)
    ensures Less(a, b) <==> exists n: nat :: FirstDifference(a, b, n) && (n == |a| || a[n] < b[n])
  {
    if b != "" && a != "" && a[0] == b[0] {
      LessMeans(a[1..], b[1..]);
      if Less(a, b) {
        var n: nat :| FirstDifference(a[1..], b[1..], n) && (n == |a[1..]| || a[1..][n] < b[1..][n]);
        assert FirstDifference(a, b, n + 1);
      }
      if n: nat :| FirstDifference(a, b, n) && (n == |a| || a[n] < b[n]) {
        assert n > 0 && FirstDifference(a[1..], b[1..], n - 1);
      }
    } else if Less(a, b) {
      assert FirstDifference(a, b, 0);
    }
  }

  /** `a` and `b` agree before place `n`, where `b` goes on and `a` stops or differs. */
  ghost predicate FirstDifference(a: string, b: string, n: nat) {
    n <= |a| && n < |b| && (forall i | 0 <= i < n :: a[i] == b[i]) && (n < |a| ==> a[n] != b[n])
  }

  lemma {:induction false} LessIsTotal(a: string, b: string)
    ensures a == b || Less(a, b) || Less(b, a)
    ensures !(Less(a, b) && Less(b, a)) && (Less(a, b) ==> a != b)
  {
    if a != "" && b != "" {
      assert a == [a[0]] + a[1..] && b == [b[0]] + b[1..];
      LessIsTotal(a[1..], b[1..]);
    }
  }

  lemma {:induction false} LessIsTransitive(a: string, b: string, c: string)
    requires Less(a, b) && Less(b, c)
    ensures Less(a, c)
  {
    if a != "" && a[0] == b[0] == c[0] { LessIsTransitive(a[1..], b[1..], c[1..]); }
  }

  lemma NewerIsTransitive(a: Release, b: Release, c: Release)
    requires Newer(a, b) && Newer(b, c)
    ensures Newer(a, c)
  {
    if a.publishedAt == b.publishedAt == c.publishedAt { LessIsTransitive(c.tag, b.tag, a.tag); }
  }

  lemma NewerIsIrreflexive(a: Release)
    ensures !Newer(a, a)
  {
    LessIsTotal(a.tag, a.tag);
  }

  // ---- the choice does not depend on the order of the list ---------------------------------------

  /** The newest release of a list is unique up to ties. */
  lemma NewestIsUnique(a: Release, b: Release, candidates: seq<Release>)
    requires IsNewest(a, candidates) && IsNewest(b, candidates)
    ensures Tied(a, b)
  {
    LessIsTotal(a.tag, b.tag);
  }

  /** Any re-listing of the same releases, in any order and with any repetitions, gives the
      same tag and instant. */
  lemma OrderDoesNotMatter(a: seq<Release>, b: seq<Release>, newestA: Release, newestB: Release)
    requires forall r :: r in a <==> r in b
    requires IsNewest(newestA, a) && IsNewest(newestB, b)
    ensures Tied(newestA, newestB)
  {
    NewestIsUnique(newestA, newestB, a);
  }

  /** A permutation of the list is decided as skip by the poll that stored its tag. */
  lemma RelistingIsSkipped(a: seq<Release>, b: seq<Release>, newestA: Release, newestB: Release,
                           published: Option<string>)
    requires multiset(a) == multiset(b)
    requires IsNewest(newestA, a) && IsNewest(newestB, b)
    ensures PollModel.DecideTagChange(Some(newestA.tag), Some(PollModel.Release(newestB.tag, published))) ==
              (PollModel.TagSkip, newestA.tag)
  {
    forall r ensures r in a <==> r in b {
      assert r in a <==> r in multiset(a);
      assert r in b <==> r in multiset(b);
    }
    OrderDoesNotMatter(a, b, newestA, newestB);
  }

  /** Between two listings the choice moves exactly when a newer release was listed or every
      release tied with the old choice was taken away. */
  lemma ChoiceMovesExactly(a: seq<Release>, b: seq<Release>, was: Release, now: Release)
    requires IsNewest(was, a) && IsNewest(now, b)
    ensures !Tied(was, now) <==> (exists r | r in b :: Newer(r, was)) || (forall r | r in b :: !Tied(r, was))
  {
    LessIsTotal(was.tag, now.tag);
    if Tied(was, now) {
      forall r | r in b ensures !Newer(r, was) { assert !Newer(r, now); }
      assert now in b;
    } else if !exists r | r in b :: Newer(r, was) {
      assert !Newer(now, was);
      assert Newer(was, now);
      forall r | r in b ensures !Tied(r, was) { assert !Newer(r, now); }
    }
  }
}
