/** The two-card promotion carousel of the browse page (the organizer page and
    the home page repeat the same step and window): every tick moves the start
    index on by two, wrapping around, and two neighbouring promotions are
    shown. The promotions query and the interval timer are inputs. */
module Carousel {

  import opened Options

  /** `promotions[i]`: `undefined` outside the list. */
  function At<T>(promotions: seq<T>, i: int): (item: Option<T>)
    ensures item.Some? <==> 0 <= i < |promotions|
    ensures item.Some? ==> item.value == promotions[i]
  {
    if 0 <= i < |promotions| then Some(promotions[i]) else None
  }

  /** One timer tick: `(prev + 2) % promotions.length`. */
  function Step(s: int, len: nat): (next: int)
    requires len > 0
    ensures 0 <= next < len
  {
    (s + 2) % len
  }

  /** `visiblePromos`: the whole list when it has at most two entries;
      otherwise the entries at the start index and the one after it,
      wrapping around. */
  function Visible<T>(promotions: seq<T>, s: int): (shown: seq<Option<T>>)
    ensures |promotions| <= 2 ==> shown == seq(|promotions|, i requires 0 <= i < |promotions| => Some(promotions[i]))
    ensures |promotions| > 2 ==> |shown| == 2
    ensures |promotions| > 2 && 0 <= s < |promotions| ==>
      && shown == [Some(promotions[s]), Some(promotions[(s + 1) % |promotions|])]
      && s != (s + 1) % |promotions|
  {
    if |promotions| <= 2 then seq(|promotions|, i requires 0 <= i < |promotions| => Some(promotions[i]))
    else [At(promotions, s), At(promotions, (s + 1) % |promotions|)]
  }

  /** Every shown card is a real promotion, not `undefined`. */
  predicate WellDefined<T>(shown: seq<Option<T>>) {
    forall k :: 0 <= k < |shown| ==> shown[k].Some?
  }

  /** The start index after `k` ticks from 0. */
  function Iterate(k: nat, len: nat): (s: int)
    requires len > 0
    ensures 0 <= s < len
  {
    if k == 0 then 0 else Step(Iterate(k - 1, len), len)
  }

  /** Euclidean division is unique: a quotient and a remainder in `[0, n)`
      are the ones `/` and `%` give. */
  lemma DivModUnique(y: int, q: int, r: int, n: int)
    requires n > 0 && 0 <= r < n && y == q * n + r
    ensures y % n == r
  {
    var d := q - y / n;
    assert d * n == y % n - r by {
      assert y == (y / n) * n + y % n;
      assert d * n == q * n - (y / n) * n;
    }
  }

  lemma ModAdd(a: int, b: int, n: int)
    requires n > 0
    ensures (a % n + b) % n == (a + b) % n
  {
    var c := a % n + b;
    assert a == (a / n) * n + a % n;
    var q, r := c / n, c % n;
    assert c == q * n + r;
    assert a + b == (q + a / n) * n + r;
    DivModUnique(a + b, q + a / n, r, n);
  }

  /** After `k` ticks the start index is `2k mod len`. */
  lemma {:induction false} IterateClosedForm(k: nat, len: nat)
    requires len > 0
    ensures Iterate(k, len) == (2 * k) % len
  {
    if k > 0 {
      IterateClosedForm(k - 1, len);
      ModAdd(2 * (k - 1), 2, len);
    }
  }

  /** The window at a start index inside a list of more than two. */
  lemma WindowAt<T>(promotions: seq<T>, s: int)
    requires |promotions| > 2 && 0 <= s < |promotions|
    ensures Some(promotions[s]) in Visible(promotions, s)
    ensures Some(promotions[(s + 1) % |promotions|]) in Visible(promotions, s)
  {
    var shown := Visible(promotions, s);
    assert shown[0] == Some(promotions[s]);
    assert shown[1] == Some(promotions[(s + 1) % |promotions|]);
  }

  /** Where `j / 2` ticks put the window, arithmetically. */
  lemma HalfwayIndex(j: nat, len: nat)
    requires 0 <= j < len
    ensures (2 * (j / 2)) % len == j - j % 2
    ensures j % 2 == 1 ==> (j - j % 2 + 1) % len == j
  {
    DivModUnique(2 * (j / 2), 0, 2 * (j / 2), len);
    DivModUnique(j, 0, j, len);
  }

  /** After `j / 2` ticks the window starts at `j` (even `j`) or just before
      it (odd `j`). */
  lemma StartAfterHalf(j: nat, len: nat)
    requires 0 <= j < len
    ensures j % 2 == 0 ==> Iterate(j / 2, len) == j
    ensures j % 2 == 1 ==> (Iterate(j / 2, len) + 1) % len == j
  {
    IterateClosedForm(j / 2, len);
    HalfwayIndex(j, len);
  }

  /** For more than two promotions, ticking from 0 eventually shows every one
      of them: promotion `j` is on screen after `j / 2` ticks. */
  lemma EveryPromotionShown<T>(promotions: seq<T>, j: nat)
    requires |promotions| > 2 && j < |promotions|
    ensures Some(promotions[j]) in Visible(promotions, Iterate(j / 2, |promotions|))
  {
    StartAfterHalf(j, |promotions|);
    WindowAt(promotions, Iterate(j / 2, |promotions|));
  }

  /** As written, new data keeps the start index: a list that shrinks below it
      leaves the window pointing past the end. */
  function IndexAfterDataAsWritten(s: int, newLen: nat): int {
    s
  }

  /** Five promotions at start index 4, refetched as three: the first shown
      card is `undefined`. */
  lemma ShrinkingListBreaksWindow()
    ensures var s := IndexAfterDataAsWritten(4, 3);
      !WellDefined(Visible([10, 11, 12], s))
  {
    assert Visible([10, 11, 12], 4)[0] == None;
  }

  /** The start index once new data arrives: kept while it is still inside the
      list, otherwise back to the first promotion. */
  function IndexAfterData(s: int, newLen: nat): (next: int)
    ensures 0 <= s < newLen ==> next == s
    ensures newLen > 0 ==> 0 <= next < newLen || (next == s && s < 0)
    ensures 0 <= s ==> 0 <= next
  {
    if s < newLen then s else 0
  }

  /** The carousel's state. */
  class Rotator<T> {
    var promotions: seq<T>
    var startIndex: int

    /** The start index is a position in the list, or 0 with an empty list. */
    ghost predicate Valid()
      reads this
    {
      0 <= startIndex && (startIndex < |promotions| || startIndex == 0)
    }

    /** `data ?? []` before the query resolves, start index 0. */
    constructor ()
      ensures promotions == [] && startIndex == 0 && Valid()
    {
      promotions := [];
      startIndex := 0;
    }

    /** The window on screen. */
    function Shown(): seq<Option<T>>
      reads this
    {
      Visible(promotions, startIndex)
    }

    /** One tick of the interval, which runs only with more than two
        promotions. */
    method Tick()
      modifies this`startIndex
      ensures |promotions| > 2 ==> startIndex == Step(old(startIndex), |promotions|)
      ensures |promotions| <= 2 ==> startIndex == old(startIndex)
      ensures old(Valid()) ==> Valid()
    {
      if |promotions| > 2 {
        startIndex := (startIndex + 2) % |promotions|;
      }
    }

    /** New query data replaces the list. This is the corrected behaviour
        (`IndexAfterData`): the component as written keeps the start index
        whatever the new length (`IndexAfterDataAsWritten`); here it is kept
        only while it still points into the list. */
    method OnData(data: seq<T>)
      modifies this
      ensures promotions == data && startIndex == IndexAfterData(old(startIndex), |data|)
      ensures old(Valid()) ==> Valid()
    {
      promotions := data;
      if startIndex >= |data| {
        startIndex := 0;
      }
    }
  }

  /** In a valid state no shown card is ever `undefined`. */
  lemma ValidShowsOnlyPromotions<T>(r: Rotator<T>)
    requires r.Valid()
    ensures WellDefined(r.Shown())
  {
  }
}
