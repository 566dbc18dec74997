/**
 * The client-side router the front-end components navigate with
 * (`useRouter()` of Next.js): the pages pushed so far and how many times the
 * current page's server data was asked to refresh.
 */
module Navigation {

  class Router {
    var history: seq<string>
    var refreshes: nat

    /** A router that has navigated nowhere yet. */
    constructor ()
      ensures history == [] && refreshes == 0
    {
      history := [];
      refreshes := 0;
    }

    /** `router.push(path)`: the path becomes the current page. */
    method Push(path: string)
      modifies this
      ensures history == old(history) + [path]
      ensures refreshes == old(refreshes)
    {
      history := history + [path];
    }

    /** `router.refresh()`: the current page is re-rendered from the server. */
    method Refresh()
      modifies this
      ensures history == old(history)
      ensures refreshes == old(refreshes) + 1
    {
      refreshes := refreshes + 1;
    }
  }
}
