/** The home page's promotion carousel over a fixed list of four sample
    promotions: the start index alternates between 0 and 2, so the two
    windows split the list into two halves. */
module HomePromotionList {

  import opened Options
  import opened Carousel

  /** A sample promotion of the home page. */
  datatype Promotion = Promotion(id: int, eventName: string, startDate: string, endDate: string)

  /** The fixed list the home page rotates through. */
  const Promotions: seq<Promotion> := [
    Promotion(1, "Music Fest 2025", "2025-12-20", "2025-12-22"),
    Promotion(2, "Business Summit", "2026-01-10", "2026-01-12"),
    Promotion(3, "Gaming Arena", "2026-02-01", "2026-02-03"),
    Promotion(4, "Art Expo", "2026-03-05", "2026-03-10")
  ]

  /** With four promotions the rotation is active and a tick alternates the
      start index between 0 and 2. */
  lemma TickAlternates()
    ensures |Promotions| > 2
    ensures Step(0, |Promotions|) == 2 && Step(2, |Promotions|) == 0
  {
  }

  /** The two windows, one after the other, are the whole list: every
      promotion is shown, in exactly one window, at exactly one place. */
  lemma WindowsPartition()
    ensures Visible(Promotions, 0) + Visible(Promotions, 2)
         == seq(|Promotions|, i requires 0 <= i < |Promotions| => Some(Promotions[i]))
  {
    var w0, w2 := Visible(Promotions, 0), Visible(Promotions, 2);
    assert w0 == [Some(Promotions[0]), Some(Promotions[1])];
    assert w2 == [Some(Promotions[2]), Some(Promotions[3])];
  }

  /** The sample promotions have distinct ids, so no card key repeats. */
  lemma IdsDistinct()
    ensures forall i, j :: 0 <= i < j < |Promotions| ==> Promotions[i].id != Promotions[j].id
  {
  }

  /** The carousel's state: only the start index changes. */
  class Rotator {
    var startIndex: int

    /** The start index is one of the two window starts. */
    ghost predicate Valid()
      reads this
    {
      startIndex == 0 || startIndex == 2
    }

    /** The carousel starts at the first window. */
    constructor ()
      ensures startIndex == 0 && Valid()
    {
      startIndex := 0;
    }

    /** The window on screen. */
    function Shown(): seq<Option<Promotion>>
      reads this
    {
      Visible(Promotions, startIndex)
    }

    /** One tick of the interval. */
    method Tick()
      modifies this
      requires Valid()
      ensures startIndex == Step(old(startIndex), |Promotions|)
      ensures startIndex == 2 - old(startIndex)
      ensures Valid()
    {
      startIndex := Step(startIndex, |Promotions|);
    }
  }

  /** In a valid state exactly two real promotions are shown: either the
      first half of the list or the second. */
  lemma ShownIsAHalf(r: Rotator)
    requires r.Valid()
    ensures |r.Shown()| == 2 && WellDefined(r.Shown())
    ensures r.Shown() == [Some(Promotions[r.startIndex]), Some(Promotions[r.startIndex + 1])]
  {
    assert (r.startIndex + 1) % |Promotions| == r.startIndex + 1;
  }
}
