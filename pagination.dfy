/** The page number of the `Home` component and its Prev / Next buttons. */
module Pagination {
  import opened Request

  /** `useState(1)`. */
  const InitialPage := 1

  /** The Prev button is disabled exactly on page 1. */
  predicate PrevDisabled(page: int) { page == 1 }

  datatype Button = PrevButton | NextButton

  /** The page after a click on a rendered button: Next always adds one;
      Prev subtracts one unless it is disabled, when the click does nothing. */
  function Press(page: int, b: Button): (after: int)
    ensures page >= 1 ==> after >= 1
    ensures after == page <==> b == PrevButton && PrevDisabled(page)
    ensures after == page + 1 <==> b == NextButton
    ensures b == PrevButton && !PrevDisabled(page) ==> after == page - 1
  {
    match b
    case NextButton => page + 1
    case PrevButton => if PrevDisabled(page) then page else page - 1
  }

  /** The page after a sequence of clicks. */
  function Run(page: int, clicks: seq<Button>): int
    decreases |clicks|
  {
    if clicks == [] then page else Run(Press(page, clicks[0]), clicks[1..])
  }

  /** From any valid page, and so from the initial one, no sequence of clicks
      leaves the pages numbered from 1. */
  lemma {:induction false} RunStaysPositive(page: int, clicks: seq<Button>)
    requires page >= 1
    ensures Run(page, clicks) >= 1
    decreases |clicks|
  {
    if clicks != [] {
      RunStaysPositive(Press(page, clicks[0]), clicks[1..]);
    }
  }

  /** Next has no upper bound: n clicks on Next from page p reach p + n. */
  lemma {:induction false} NextUnbounded(page: int, n: nat)
    ensures Run(page, seq(n, _ => NextButton)) == page + n
    decreases n
  {
    if n > 0 {
      var clicks := seq(n, _ => NextButton);
      assert clicks[1..] == seq(n - 1, _ => NextButton);
      NextUnbounded(page + 1, n - 1);
    }
  }

  /** Each click moves the page by at most one. */
  lemma {:induction false} RunWithinReach(page: int, clicks: seq<Button>)
    ensures page - |clicks| <= Run(page, clicks) <= page + |clicks|
    decreases |clicks|
  {
    if clicks != [] {
      RunWithinReach(Press(page, clicks[0]), clicks[1..]);
    }
  }

  /** Prev undoes Next on every valid page, and Next undoes an enabled Prev. */
  lemma PrevUndoesNext(page: int)
    requires page >= 1
    ensures Press(Press(page, NextButton), PrevButton) == page
    ensures page != 1 ==> Press(Press(page, PrevButton), NextButton) == page
  {
  }

  /** The page the component starts on is the one the build-time prefetch
      filled: its cache key is `['market', 1]`, and the argument-less
      `getUser()` of the prefetch fetched that page's URL. */
  lemma InitialPageReadsPrefetch()
    ensures CacheKey(InitialPage) == PrefetchKey
    ensures InitialPage == DefaultPage
    ensures RequestUrl(InitialPage) == RequestUrl(DefaultPage)
  {
  }

  /** The page state held by `useState`, with `nextPage` and `prevPage`. */
  class Pager {
    var page: int

    /** Pages are numbered from 1. */
    ghost predicate Valid()
      reads this
    {
      page >= 1
    }

    constructor ()
      ensures page == InitialPage && Valid()
    {
      page := InitialPage;
    }

    predicate PrevEnabled()
      reads this
    {
      !PrevDisabled(page)
    }

    /** The query key of the page shown. */
    function Key(): (k: QueryKey)
      reads this
      ensures k.page == page && k.resource == Resource
    {
      CacheKey(page)
    }

    /** `nextPage`: one page forward, whatever the page. */
    method NextPage()
      modifies this
      ensures page == old(page) + 1
      ensures old(Valid()) ==> Valid()
    {
      page := page + 1;
    }

    /** `prevPage`: one page back, with no clamp of its own; its only caller
        is the Prev button, which is enabled only off page 1. */
    method PrevPage()
      requires PrevEnabled()
      modifies this
      ensures page == old(page) - 1
      ensures old(Valid()) ==> Valid()
    {
      page := page - 1;
    }

    /** A click on a rendered button: a disabled Prev does not fire. */
    method Click(b: Button)
      modifies this
      ensures page == Press(old(page), b)
      ensures old(Valid()) ==> Valid()
    {
      match b
      case NextButton =>
        NextPage();
      case PrevButton =>
        if PrevEnabled() {
          PrevPage();
        }
    }
  }
}
