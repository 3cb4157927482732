/** The paged, searchable event list: its URL-backed state (page, search
    text, category), the request parameters built from it and the cache key.
    The debounced search text is an input. */
module EventList {

  import opened Options

  /** The parameters of `GET /events`; the two filters are keys that may be
      absent. */
  datatype Params = Params(page: int, take: int, search: string,
                           categoryId: Option<int>, organizerId: Option<int>)

  /** The react-query key `["events", page, search, category, take, organizer_id]`. */
  datatype QueryKey = QueryKey(page: int, search: string, category: int, take: int,
                               organizerId: Option<int>)

  /** A filter value is sent only when it is present and positive. */
  function PositiveFilter(v: Option<int>): (sent: Option<int>)
    ensures sent.Some? <==> v.Some? && v.value > 0
    ensures sent.Some? ==> sent == v
  {
    if v.Some? && v.value > 0 then v else None
  }

  /** The parameters a key asks for: page, take and search always, each
      filter exactly when it is positive. */
  function ParamsFor(key: QueryKey): (p: Params)
    ensures p.page == key.page && p.take == key.take && p.search == key.search
    ensures p.categoryId.Some? <==> key.category > 0
    ensures p.categoryId.Some? ==> p.categoryId.value == key.category
    ensures p.organizerId.Some? <==> key.organizerId.Some? && key.organizerId.value > 0
    ensures p.organizerId.Some? ==> p.organizerId == key.organizerId
  {
    Params(key.page, key.take, key.search, PositiveFilter(Some(key.category)), PositiveFilter(key.organizerId))
  }

  /** Two keys that differ only in a non-positive category ask for the same
      request: the key is finer than the parameters, never coarser. */
  lemma KeyFinerThanParams(k: QueryKey)
    requires k.category <= 0
    ensures ParamsFor(k) == ParamsFor(k.(category := 0))
  {
  }

  /** The page size when the `take` prop is left out. */
  const DefaultTake: int := 3

  /** The list's state. `take`, `showSearch` and `organizerId` are props;
      `page`, `search` and `category` live in the URL. */
  class List {
    const take: int
    const showSearch: bool
    const organizerId: Option<int>
    var page: int
    var search: string
    var category: int

    /** The props with their defaults (`take = 3`, `showSearch = true`, no
        organizer), and the URL defaults: page 1, no search, no category. */
    constructor (take: Option<int>, showSearch: Option<bool>, organizerId: Option<int>)
      ensures take.None? ==> this.take == DefaultTake
      ensures take.Some? ==> this.take == take.value
      ensures this.showSearch <==> showSearch != Some(false)
      ensures this.organizerId == organizerId
      ensures page == 1 && search == "" && category == 0
    {
      this.take := take.GetOr(DefaultTake);
      this.showSearch := showSearch.GetOr(true);
      this.organizerId := organizerId;
      page := 1;
      search := "";
      category := 0;
    }

    /** The component's key for a debounced search text. */
    function Key(debounced: string): QueryKey
      reads this
    {
      QueryKey(page, debounced, category, take, organizerId)
    }

    /** The `queryFn` building `params`: the fixed keys first, then each
        filter assigned only when it is positive. */
    method BuildParams(debounced: string) returns (p: Params)
      ensures p == ParamsFor(Key(debounced))
    {
      p := Params(page, take, debounced, None, None);
      if category > 0 {
        p := p.(categoryId := Some(category));
      }
      if organizerId.Some? && organizerId.value > 0 {
        p := p.(organizerId := organizerId);
      }
    }

    /** The active-category banner with its "Clear" button: it sits inside the
        search area, so it shows only when `showSearch` is on. */
    predicate CategoryBannerShown()
      reads this
    {
      showSearch && category > 0
    }

    /** The pager's `onClick`. */
    method OnClickPagination(nextPage: int)
      modifies this`page
      ensures page == nextPage
    {
      page := nextPage;
    }

    /** `clearCategory`: no category, back to page 1, search kept. */
    method ClearCategory()
      modifies this`category, this`page
      ensures category == 0 && page == 1
    {
      category := 0;
      page := 1;
    }

    /** Typing in the search box: the new text, back to page 1. */
    method OnSearchChange(text: string)
      modifies this`search, this`page
      ensures search == text && page == 1
    {
      search := text;
      page := 1;
    }
  }

  /** After clearing the category the request carries no category filter and
      the banner is gone. */
  lemma ClearedCategoryIsNotSent(l: List, debounced: string)
    requires l.category == 0
    ensures ParamsFor(l.Key(debounced)).categoryId == None
    ensures !l.CategoryBannerShown()
  {
  }
}
