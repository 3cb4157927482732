/** The organizer page's promotion carousel: the browse carousel's step and
    window over the promotions of one organizer, with the start index reset
    whenever the organizer changes. The promotions query is an input. */
module OrganizerPromotionList {

  import opened Options
  import opened Carousel

  /** `data ?? []` for an organizer: the query is disabled for organizer 0,
      so nothing is fetched then; otherwise the reply is the list. */
  function Fetched<T>(organizerId: int, reply: seq<T>): (promotions: seq<T>)
    ensures organizerId == 0 ==> promotions == []
    ensures organizerId != 0 ==> promotions == reply
  {
    if organizerId == 0 then [] else reply
  }

  /** Right after a reset the window shows the first two promotions of a
      list longer than two, and the whole list otherwise. */
  lemma ResetShowsFirstPair<T>(promotions: seq<T>)
    ensures |promotions| > 2 ==> Visible(promotions, 0) == [Some(promotions[0]), Some(promotions[1])]
    ensures |promotions| <= 2 ==> |Visible(promotions, 0)| == |promotions|
    ensures WellDefined(Visible(promotions, 0))
  {
    if |promotions| > 2 {
      assert (0 + 1) % |promotions| == 1;
    }
  }

  /** The carousel's state for the organizer shown on the page. */
  class Rotator<T> {
    var organizerId: int
    var promotions: seq<T>
    var startIndex: int

    /** The start index is a position in the list, or 0 with an empty list. */
    ghost predicate Valid()
      reads this
    {
      0 <= startIndex && (startIndex < |promotions| || startIndex == 0)
    }

    /** First render for an organizer: start index 0. */
    constructor (organizerId: int, reply: seq<T>)
      ensures this.organizerId == organizerId && promotions == Fetched(organizerId, reply)
      ensures startIndex == 0 && Valid()
    {
      this.organizerId := organizerId;
      promotions := Fetched(organizerId, reply);
      startIndex := 0;
    }

    /** The window on screen. */
    function Shown(): seq<Option<T>>
      reads this
    {
      Visible(promotions, startIndex)
    }

    /** One tick of the interval, which runs only with more than two
        promotions. */
    method Tick()
      modifies this`startIndex
      ensures |promotions| > 2 ==> startIndex == Step(old(startIndex), |promotions|)
      ensures |promotions| <= 2 ==> startIndex == old(startIndex)
      ensures old(Valid()) ==> Valid()
    {
      if |promotions| > 2 {
        startIndex := Step(startIndex, |promotions|);
      }
    }

    /** A new organizer: its promotions replace the list and the effect on
        `organizerId` puts the start index back to 0, so the window is
        well-defined whatever the previous state. */
    method OnOrganizerChange(id: int, reply: seq<T>)
      modifies this
      ensures organizerId == id && promotions == Fetched(id, reply)
      ensures startIndex == 0 && Valid()
    {
      organizerId := id;
      promotions := Fetched(id, reply);
      startIndex := 0;
    }

    /** A refetch for the same organizer replaces the list and keeps the
        start index, as written: the same hazard as the browse carousel's
        `Carousel.IndexAfterDataAsWritten`. */
    method OnData(data: seq<T>)
      modifies this`promotions
      ensures promotions == data && startIndex == old(startIndex)
      ensures old(Valid()) && startIndex < |data| ==> Valid()
    {
      promotions := data;
    }
  }

  /** In a valid state no shown card is `undefined`: in particular after every
      organizer change. */
  lemma ValidShowsOnlyPromotions<T>(r: Rotator<T>)
    requires r.Valid()
    ensures WellDefined(r.Shown())
    ensures |r.promotions| > 2 ==> |r.Shown()| == 2
  {
  }
}
