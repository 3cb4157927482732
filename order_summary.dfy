/** The order summary panel: the points the order would earn, the final total
    once points are deducted, when the points toggle may be used, and when the
    promo "Apply" button is enabled. It only reads its props. */
module OrderSummary {

  import opened Options
  import opened JsMath
  import opened Text

  /** `estimatedEarnPoints`: one point per whole 1000 rupiah of the total;
      a negative total earns nothing. */
  function EstimatedEarnPoints(total: int): (points: nat)
    ensures points * 1000 <= Max(0, total) < (points + 1) * 1000
    ensures total < 1000 ==> points == 0
  {
    Max(0, total) / 1000
  }

  /** `totalAfterPoints`: the total itself with the toggle off; otherwise the
      total less the (non-negative part of the) points used, floored at zero. */
  function TotalAfterPoints(usePoints: bool, total: int, pointsUsed: int): (r: int)
    ensures !usePoints ==> r == total
    ensures usePoints ==> 0 <= r && r >= total - Max(0, pointsUsed)
    ensures usePoints && 0 <= total ==> r <= total
    ensures usePoints && 0 <= pointsUsed <= total ==> r == total - pointsUsed
  {
    if usePoints then Max(0, total - Max(0, pointsUsed)) else total
  }

  /** `canUsePoints`: a positive balance, at least one item and a positive total. */
  predicate CanUsePoints(pointsBalance: int, itemCount: nat, total: int) {
    pointsBalance > 0 && itemCount > 0 && total > 0
  }

  /** The toggle's click handler: the value it asks the parent to set, or
      `None` when it returns early (no handler, or points unusable). */
  function ToggleRequest(hasHandler: bool, pointsBalance: int, itemCount: nat, total: int, usePoints: bool)
    : (request: Option<bool>)
    ensures request.Some? <==> hasHandler && pointsBalance > 0 && itemCount > 0 && total > 0
    ensures request.Some? ==> request.value != usePoints
  {
    if !hasHandler then None
    else if !CanUsePoints(pointsBalance, itemCount, total) then None
    else Some(!usePoints)
  }

  /** The toggle's `disabled` attribute. */
  predicate ToggleDisabled(hasHandler: bool, pointsBalance: int, itemCount: nat, total: int) {
    !hasHandler || !CanUsePoints(pointsBalance, itemCount, total)
  }

  /** A click on the toggle does something exactly when the toggle is enabled. */
  lemma ToggleActsIffEnabled(hasHandler: bool, pointsBalance: int, itemCount: nat, total: int, usePoints: bool)
    ensures ToggleRequest(hasHandler, pointsBalance, itemCount, total, usePoints).Some?
        <==> !ToggleDisabled(hasHandler, pointsBalance, itemCount, total)
  {
  }

  /** The "Apply" button: enabled when no request is pending and the trimmed
      code has at least two characters. */
  predicate ApplyEnabled(promoLoading: bool, promoCode: string) {
    !promoLoading && |Trim(promoCode)| >= 2
  }

  /** An enabled "Apply" button never submits a blank code: at least two
      characters of the code are not whitespace. */
  lemma ApplyEnabledMeansNotBlank(promoLoading: bool, promoCode: string)
    requires ApplyEnabled(promoLoading, promoCode)
    ensures !IsBlank(promoCode)
    ensures !IsWhitespace(promoCode[Leading(promoCode)])
  {
  }
}
