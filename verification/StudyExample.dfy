/** Bars on distinct dates that are less than a day apart, and two measured cases whose windows overlap. */
module StudyExample {
  import opened Common
  import opened Study
  import opened StudyCases
  import opened StudyReport

  const HOUR: int := 60 * MINUTE

  /** The start of every day, except that day 61 is measured 23 hours later. */
  function Instant(k: nat): int { k * DAY + if k == 61 then 23 * HOUR else 0 }

  function Flat(k: nat): Bar { Bar(Instant(k), 1.0, 1.0, 1.0, 1.0, 0) }

  function History(): (bars: seq<Bar>)
    ensures |bars| == 66 && forall k :: 0 <= k < 66 ==> bars[k] == Flat(k)
  {
    seq(66, k requires 0 <= k < 66 => Flat(k))
  }

  const PARAMETERS := Parameters(1, 0.5, 0.5, -0.5, 0.0, None)

  lemma HistoryIsStudied()
    ensures Studied(History(), PARAMETERS) && ReservedStart(History()) == 61
  {
    var bars := History();
    forall i, j | 0 <= i < j < 66 ensures bars[i].time < bars[j].time {
      assert Instant(i) < Instant(j);
    }
  }

  lemma Admits(i: int)
    requires Studied(History(), PARAMETERS) && (i == 61 || i == 62)
    ensures Eligible(History(), PARAMETERS, i) && Records(History(), PARAMETERS)[i].Some?
  {
    hide FirstTouch, Mae, Mfe, AtrAt;
    var bars := History();
    assert bars[65].time == 65 * DAY && bars[i].time + DAY <= 65 * DAY;
    assert Published(bars, PARAMETERS, i);
    assert Decide(bars, PARAMETERS, i).Admit?;
  }

  lemma {:induction false} FirstTwo<T>(rs: seq<Option<T>>)
    requires |rs| == 66 && rs[61].Some? && rs[62].Some?
    ensures |Kept(rs, 61, 65, 1)| >= 2 && Kept(rs, 61, 65, 1)[0] == 61 && Kept(rs, 61, 65, 1)[1] == 62
  {
    assert Kept(rs, 61, 65, 1) == [61] + Kept(rs, 62, 65, 1);
    assert Kept(rs, 62, 65, 1) == [62] + Kept(rs, 63, 65, 1);
  }

  lemma WindowReachesPast()
    requires Studied(History(), PARAMETERS)
    ensures 62 < WindowEnd(History(), PARAMETERS, 61)
  {
    var bars, p := History(), PARAMETERS;
    assert bars[62].time < HorizonEnd(bars, p, 61);
    WindowsDisjointIff(bars, p, 61, 62);
  }

  /** No two bars share a date. */
  predicate DistinctDates(bars: seq<Bar>) { forall k :: 0 <= k < |bars| - 1 ==> bars[k].time / DAY < bars[k + 1].time / DAY }

  lemma HistoryHasDistinctDates()
    ensures DistinctDates(History())
  {
    forall k | 0 <= k < |History()| - 1 ensures History()[k].time / DAY < History()[k + 1].time / DAY {
      DateOf(k);
      DateOf(k + 1);
    }
  }

  /** The first two cases stand at bars 61 and 62, and the window of the first reaches past the second. */
  lemma CasesCanOverlap() returns (bars: seq<Bar>, p: Parameters)
    ensures Studied(bars, p) && DistinctDates(bars) && |CaseIndices(bars, p)| >= 2
    ensures CaseIndices(bars, p)[0] == 61 && CaseIndices(bars, p)[1] == 62 < WindowEnd(bars, p, 61)
  {
    hide Records, Studied, DistinctDates, Kept, WindowEnd;
    bars, p := History(), PARAMETERS;
    HistoryIsStudied();
    Admits(61);
    Admits(62);
    FirstTwo(Records(bars, p));
    WindowReachesPast();
    HistoryHasDistinctDates();
  }

  lemma DateOf(k: nat)
    ensures Instant(k) / DAY == k
  {
  }
}
