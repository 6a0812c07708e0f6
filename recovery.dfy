/** The two recovery rules of the Braitenberg controllers: the "stray
    critical" rule (a lone, very close reading on one front trio while the
    other trio sees nothing) and the "U-block" rule (both flanks and the
    front weighted at once). */
module Recovery {
  import opened Sensors

  /** Which trio a stray critical reading was found on. */
  datatype Stray = NoStray | LeftTrio | RightTrio

  /** The first test of `stray_criticals`: one of sensors 5, 6, 7 reads above
      the critical threshold, the other two of that trio are unweighted, and
      the right trio 0, 1, 2 is unweighted. Written as the source's three
      disjuncts. */
  predicate LeftStray(v: Frame, w: Frame, critical: real) {
    (v[5] > critical && !On(w, 6) && !On(w, 7) && !On(w, 0) && !On(w, 1) && !On(w, 2)) ||
    (!On(w, 5) && v[6] > critical && !On(w, 7) && !On(w, 0) && !On(w, 1) && !On(w, 2)) ||
    (!On(w, 5) && !On(w, 6) && v[7] > critical && !On(w, 0) && !On(w, 1) && !On(w, 2))
  }

  /** The second test: the same with the trios exchanged. */
  predicate RightStray(v: Frame, w: Frame, critical: real) {
    (v[0] > critical && !On(w, 1) && !On(w, 2) && !On(w, 5) && !On(w, 6) && !On(w, 7)) ||
    (!On(w, 0) && v[1] > critical && !On(w, 2) && !On(w, 5) && !On(w, 6) && !On(w, 7)) ||
    (!On(w, 0) && !On(w, 1) && v[2] > critical && !On(w, 5) && !On(w, 6) && !On(w, 7))
  }

  /** Which branch of `stray_criticals` is taken; the left trio is checked
      first. A stray needs some reading above the critical threshold and
      leaves the opposite trio clear. */
  function CriticalSide(v: Frame, w: Frame, critical: real): (s: Stray)
    ensures s != NoStray ==> exists i: Index :: v[i] > critical
    ensures s == LeftTrio ==> Clear(w, 0, 1, 2)
    ensures s == RightTrio ==> Clear(w, 5, 6, 7) && !LeftStray(v, w, critical)
  {
    if LeftStray(v, w, critical) then LeftTrio
    else if RightStray(v, w, critical) then RightTrio
    else NoStray
  }

  /** The U-block test: (5 or 6) and (1 or 2) and (0 or 7) weighted. It
      needs both front trios occupied, so it never meets a stray, which
      needs one of them clear. */
  predicate UBlock(w: Frame)
    ensures UBlock(w) ==> !Clear(w, 0, 1, 2) && !Clear(w, 5, 6, 7)
  {
    (On(w, 5) || On(w, 6)) && (On(w, 1) || On(w, 2)) && (On(w, 0) || On(w, 7))
  }

  // Reference definitions of the rules in words: "exactly one sensor of the
  // trio a, b, c is weighted and that sensor reads above the critical
  // threshold", and "none of a, b, c is weighted".

  predicate LoneCritical(v: Frame, w: Frame, a: Index, b: Index, c: Index, critical: real) {
    (On(w, a) && !On(w, b) && !On(w, c) && v[a] > critical) ||
    (!On(w, a) && On(w, b) && !On(w, c) && v[b] > critical) ||
    (!On(w, a) && !On(w, b) && On(w, c) && v[c] > critical)
  }

  predicate Clear(w: Frame, a: Index, b: Index, c: Index) {
    !On(w, a) && !On(w, b) && !On(w, c)
  }

  /** With the weights classified from the same readings and the critical
      threshold at or above the presence threshold, the left stray test
      holds exactly when one sensor of 5, 6, 7 is weighted, reads above the
      critical threshold, and 0, 1, 2 are clear. */
  lemma LeftStrayIsLoneCritical(v: Frame, threshold: real, critical: real)
    requires threshold <= critical
    ensures var w := Classify(v, threshold);
      LeftStray(v, w, critical) <==> LoneCritical(v, w, 5, 6, 7, critical) && Clear(w, 0, 1, 2)
  {
  }

  /** The mirror statement for the right trio. */
  lemma RightStrayIsLoneCritical(v: Frame, threshold: real, critical: real)
    requires threshold <= critical
    ensures var w := Classify(v, threshold);
      RightStray(v, w, critical) <==> LoneCritical(v, w, 0, 1, 2, critical) && Clear(w, 5, 6, 7)
  {
  }

  /** The two stray tests can never hold together, so the left-first order
      decides nothing: each needs a weighted sensor on its own trio and a
      clear opposite trio. */
  lemma StraysExclusive(v: Frame, threshold: real, critical: real)
    requires threshold <= critical
    ensures var w := Classify(v, threshold);
      !(LeftStray(v, w, critical) && RightStray(v, w, critical))
  {
    LeftStrayIsLoneCritical(v, threshold, critical);
    RightStrayIsLoneCritical(v, threshold, critical);
  }

  /** The rule is symmetric: the mirror image of a left stray is a right
      stray and back. */
  lemma StrayMirror(v: Frame, w: Frame, critical: real)
    ensures LeftStray(v, w, critical) <==> RightStray(Mirror(v), Mirror(w), critical)
    ensures RightStray(v, w, critical) <==> LeftStray(Mirror(v), Mirror(w), critical)
  {
  }

  /** Two weighted sensors in one trio are a wall, not a stray: neither
      branch fires, whatever the readings. */
  lemma WallIsNotStray(v: Frame, w: Frame, critical: real, a: Index, b: Index)
    requires a != b && ((a in {5, 6, 7} && b in {5, 6, 7}) || (a in {0, 1, 2} && b in {0, 1, 2}))
    requires On(w, a) && On(w, b)
    ensures CriticalSide(v, w, critical) == NoStray
  {
  }

  /** Clearing any one of the three zones switches the U-block rule off. */
  lemma UBlockNeedsEveryZone(w: Frame)
    ensures !On(w, 5) && !On(w, 6) ==> !UBlock(w)
    ensures !On(w, 1) && !On(w, 2) ==> !UBlock(w)
    ensures !On(w, 0) && !On(w, 7) ==> !UBlock(w)
    ensures UBlock(w) <==> UBlock(Mirror(w))
  {
  }
}
