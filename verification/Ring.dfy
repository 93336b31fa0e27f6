/** The arithmetic of views: `view % num_servers` around the ring, and the view a candidate asks for. */
module Ring {
  import opened PaxosTypes
  import opened Handlers

  lemma {:induction false} TimesMonotone(a: int, b: int, n: int)
    requires a <= b && n >= 0
    ensures a * n <= b * n
    decreases b - a
  {
    if a == b {
    } else {
      TimesMonotone(a, b - 1, n);
      assert b * n == (b - 1) * n + n;
    }
  }

  lemma OnlyZeroFits(m: int, n: int, d: int)
    requires n > 0 && -n < d < n && m * n == d
    ensures m == 0
  {
    if m > 0 {
      TimesMonotone(1, m, n);
    } else if m < 0 {
      TimesMonotone(m, -1, n);
    }
  }

  lemma RemainderIs(x: int, k: int, n: int, r: int)
    requires n > 0 && x == k * n + r && 0 <= r < n
    ensures x % n == r
  {
    var y, z := x / n, x % n;
    assert x == y * n + z;
    assert (y - k) * n == y * n - k * n;
    OnlyZeroFits(y - k, n, r - z);
  }

  lemma OwnerBetween(view: nat, k: int, n: pos, w: nat)
    requires k * n <= view <= w < view + n && view < (k + 1) * n
    ensures Owner(w, n) == if w < (k + 1) * n then w - k * n else w - (k + 1) * n
  {
    assert (k + 1) * n == k * n + n;
    if w < (k + 1) * n {
      RemainderIs(w, k, n, w - k * n);
    } else {
      RemainderIs(w, k + 1, n, w - (k + 1) * n);
    }
  }

  /** A candidate asks for the least view above its own that it owns. */
  lemma CandidacyIsNext(view: nat, me: nat, n: pos)
    requires me < n && Owner(view, n) != me
    ensures view < Candidacy(view, me, n) < view + n
    ensures Owner(Candidacy(view, me, n), n) == me
    ensures forall w :: view < w < Candidacy(view, me, n) ==> Owner(w, n) != me
  {
    var k := view / n;
    assert view == k * n + view % n && (k + 1) * n == k * n + n;
    forall w | view <= w < view + n
      ensures Owner(w, n) == if w < (k + 1) * n then w - k * n else w - (k + 1) * n
    {
      OwnerBetween(view, k, n, w);
    }
  }

  /** Two servers never stand for the same view, whatever views they start from. */
  lemma CandidaciesDiffer(view1: nat, me1: nat, view2: nat, me2: nat, n: pos)
    requires me1 < n && me2 < n && me1 != me2
    requires Owner(view1, n) != me1 && Owner(view2, n) != me2
    ensures Candidacy(view1, me1, n) != Candidacy(view2, me2, n)
  {
    CandidacyIsNext(view1, me1, n);
    CandidacyIsNext(view2, me2, n);
  }
}
