/** One review on the organizer page: its five read-only stars, the avatar
    with its fallback picture and the missing-date placeholder. */
module ReviewCard {

  import opened Options
  import opened Text
  import opened JsMath
  import StarRating

  /** `r` of `renderStars`: the rating clamped to `[0, 5]` (the rating is an
      integer, so rounding leaves it unchanged). */
  function LitStars(rating: int): (r: int)
    ensures 0 <= r <= 5
    ensures 0 <= rating <= 5 ==> r == rating
    ensures rating > 5 ==> r == 5
    ensures rating < 0 ==> r == 0
  {
    Max(0, Min(5, rating))
  }

  /** `renderStars`: five stars, star `i` lit when `i < r`. */
  function RenderStars(rating: int): (lit: seq<bool>)
    ensures |lit| == 5
  {
    var r := LitStars(rating);
    seq(5, i => i < r)
  }

  /** The card lights exactly `LitStars(rating)` stars, the same stars the
      review form's input lights for that value. */
  lemma CardMatchesInput(rating: int)
    ensures RenderStars(rating) == StarRating.Stars(rating)
    ensures StarRating.CountLit(RenderStars(rating)) == LitStars(rating)
  {
    StarRating.LitCount(rating);
  }

  const FallbackAvatar: string := "/profpic-pengganti.png"

  /** `avatar`: the profile image when present and not blank, otherwise the
      fallback picture. */
  function Avatar(profileImage: Option<string>): (src: string)
    ensures profileImage.Some? && !IsBlank(profileImage.value) ==> src == profileImage.value
    ensures profileImage.None? || IsBlank(profileImage.value) ==> src == FallbackAvatar
  {
    if profileImage.Some? && |Trim(profileImage.value)| > 0 then profileImage.value else FallbackAvatar
  }

  /** The avatar is never blank: a blank image is replaced. */
  lemma AvatarNeverBlank(profileImage: Option<string>)
    ensures !IsBlank(Avatar(profileImage))
  {
    TrimEmptyIff(FallbackAvatar);
    assert !IsWhitespace(FallbackAvatar[0]);
  }

  /** `formatDate`: "-" for a missing or empty date, the raw text for one
      that does not parse, otherwise the locale rendering. `toTime` stands
      for `new Date(..).getTime()` (absent for an invalid date) and
      `localeDate` for `toLocaleDateString`. */
  function FormatDate(dateStr: Option<string>, toTime: string -> Option<int>,
                      localeDate: string -> string): (shown: string)
    ensures Falsy(dateStr) ==> shown == "-"
    ensures !Falsy(dateStr) && toTime(dateStr.value).None? ==> shown == dateStr.value
    ensures !Falsy(dateStr) && toTime(dateStr.value).Some? ==> shown == localeDate(dateStr.value)
  {
    if Falsy(dateStr) then "-"
    else if toTime(dateStr.value).None? then dateStr.value
    else localeDate(dateStr.value)
  }
}
