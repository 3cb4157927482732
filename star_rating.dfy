/** The star input of the review form: five buttons, lit up to the hovered
    star or else the committed value; a click reports its star. */
module StarRating {

  import opened Options
  import opened JsMath

  /** `displayValue = hover ?? value`. */
  function DisplayValue(hover: Option<int>, value: int): (shown: int)
    ensures hover.Some? ==> shown == hover.value
    ensures hover.None? ==> shown == value
  {
    hover.GetOr(value)
  }

  /** The five stars, left to right: star `i + 1` is lit when it is at most
      the displayed value. */
  function Stars(display: int): (lit: seq<bool>)
    ensures |lit| == 5
    ensures forall i :: 0 <= i < 5 ==> (lit[i] <==> i + 1 <= display)
  {
    LitPrefix(5, display)
  }

  /** The first `n` stars. */
  function LitPrefix(n: nat, display: int): (lit: seq<bool>)
    ensures |lit| == n
    ensures forall i :: 0 <= i < n ==> (lit[i] <==> i + 1 <= display)
  {
    seq(n, i => i + 1 <= display)
  }

  /** How many stars are lit. */
  function CountLit(lit: seq<bool>): nat {
    if lit == [] then 0 else CountLit(lit[..|lit| - 1]) + (if lit[|lit| - 1] then 1 else 0)
  }

  /** Of the first `n` stars, exactly `display` clamped to `[0, n]` are lit. */
  lemma {:induction false} LitPrefixCount(n: nat, display: int)
    ensures CountLit(LitPrefix(n, display)) == Max(0, Min(n, display))
  {
    if n > 0 {
      assert LitPrefix(n, display)[..n - 1] == LitPrefix(n - 1, display);
      LitPrefixCount(n - 1, display);
    }
  }

  /** A display value lights exactly that many stars, clamped to `[0, 5]`:
      an integer value `v` in `[0, 5]` lights exactly `v` stars, lit ones
      first. */
  lemma LitCount(display: int)
    ensures CountLit(Stars(display)) == Max(0, Min(5, display))
    ensures 0 <= display <= 5 ==> CountLit(Stars(display)) == display
  {
    LitPrefixCount(5, display);
  }

  /** A click on the button at position `i` (0 to 4): a disabled button
      reports nothing, an enabled one its star number. */
  function Click(i: nat, disabled: bool): (emitted: Option<int>)
    requires i < 5
    ensures disabled <==> emitted.None?
    ensures emitted.Some? ==> 1 <= emitted.value <= 5 && Stars(emitted.value)[i]
    ensures emitted.Some? && i + 1 < 5 ==> !Stars(emitted.value)[i + 1]
  {
    if disabled then None else Some(i + 1)
  }

  /** Once the parent stores a clicked star as the value and the mouse has
      left, exactly that many stars are lit. */
  lemma ClickLightsUpToStar(i: nat)
    requires i < 5
    ensures CountLit(Stars(DisplayValue(None, Click(i, false).value))) == i + 1
  {
    LitCount(i + 1);
  }

  /** The component's own state: the hovered star. */
  class Input {
    var hover: Option<int>

    constructor ()
      ensures hover == None
    {
      hover := None;
    }

    /** `onMouseEnter` on star `star`: recorded only when enabled. */
    method MouseEnter(star: int, disabled: bool)
      modifies this
      ensures disabled ==> hover == old(hover)
      ensures !disabled ==> hover == Some(star)
    {
      if !disabled {
        hover := Some(star);
      }
    }

    /** `onMouseLeave`: the hover is cleared. */
    method MouseLeave()
      modifies this
      ensures hover == None
    {
      hover := None;
    }
  }
}
