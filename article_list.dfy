/**
 * The public article listing: a paginated fetch driven by the filters and
 * the current page, nine articles per page.
 */
module ArticleList {
  import opened Wrappers
  import Api
  import PageCount
  import AppPagination

  const ArticlesPerPage := 9
  const FetchErrorMessage := "Failed to fetch articles. Please try again later."

  /** `Math.ceil(totalArticles / articlesPerPage)`: no articles give no pages. */
  function TotalPages(totalArticles: nat): (pages: nat)
    ensures pages == 0 <==> totalArticles == 0
    ensures totalArticles <= pages * ArticlesPerPage
    ensures totalArticles > 0 ==> (pages - 1) * ArticlesPerPage < totalArticles
  {
    PageCount.CeilDiv(totalArticles, ArticlesPerPage)
  }

  /** Every page the bar offers starts at an article that exists. */
  lemma EveryPageHasArticles(totalArticles: nat, page: nat)
    requires 1 <= page <= TotalPages(totalArticles)
    ensures (page - 1) * ArticlesPerPage < totalArticles
  {
    var pages := TotalPages(totalArticles);
    assert (page - 1) * ArticlesPerPage <= (pages - 1) * ArticlesPerPage by {
      PageCount.MulMonotone(page - 1, pages - 1, ArticlesPerPage);
    }
  }

  /** The pagination bar appears exactly when there are more than nine articles. */
  lemma PaginationShownIff(currentPage: int, totalArticles: nat)
    ensures AppPagination.Render(currentPage, TotalPages(totalArticles)).Some? <==> totalArticles > ArticlesPerPage
  {
  }

  datatype Filters = Filters(category: string, search: string)

  /** The `params` of `GET /articles`. */
  datatype Query = Query(search: string, categoryId: string, page: int, limit: nat)

  /** What the component shows. */
  datatype ListView =
    | LoadingView
    | ErrorView(message: string)
    | ListingView(shown: nat, total: nat, articles: seq<Api.Article>, pagination: Option<AppPagination.View>)

  class ArticleListState {
    var articles: seq<Api.Article>
    var totalArticles: nat
    var isLoading: bool
    var error: Option<string>
    var currentPage: int

    /** A recorded error is always the fixed fetch message. */
    predicate Valid()
      reads this
    {
      error.Some? ==> error.value == FetchErrorMessage
    }

    constructor ()
      ensures Valid()
      ensures articles == [] && totalArticles == 0 && isLoading && error == None && currentPage == 1
    {
      articles, totalArticles, isLoading, error, currentPage := [], 0, true, None, 1;
    }

    /** `fetchArticles` up to its `await`: loading starts, the error is cleared, the query goes out. */
    method StartFetch(filters: Filters) returns (query: Query)
      modifies this`isLoading, this`error
      ensures Valid()
      ensures isLoading && error == None
      ensures query == Query(filters.search, filters.category, currentPage, ArticlesPerPage)
    {
      isLoading := true;
      error := None;
      query := Query(filters.search, filters.category, currentPage, ArticlesPerPage);
    }

    /**
     * The rest of `fetchArticles`: a success replaces the articles and the
     * total, a failure records the fixed message; loading ends either way.
     */
    method FinishFetch(response: Api.Response<Api.Page<Api.Article>>)
      requires Valid()
      modifies this`articles, this`totalArticles, this`error, this`isLoading
      ensures Valid()
      ensures !isLoading
      ensures response.Ok? ==>
        articles == response.value.data && totalArticles == response.value.total && error == old(error)
      ensures response.Failed? ==>
        articles == old(articles) && totalArticles == old(totalArticles) && error == Some(FetchErrorMessage)
    {
      if response.Ok? {
        articles := response.value.data;
        totalArticles := response.value.total;
      } else {
        error := Some(FetchErrorMessage);
      }
      isLoading := false;
    }

    /** `onPageChange={(page) => setCurrentPage(page)}`. */
    method SetPage(page: int)
      modifies this`currentPage
      ensures currentPage == page
    {
      currentPage := page;
    }

    /** Loading first, then a recorded error, then the listing with its pagination bar. */
    function View(): (v: ListView)
      reads this
      ensures isLoading <==> v.LoadingView?
      ensures v.ErrorView? <==> !isLoading && error.Some?
      ensures v.ErrorView? ==> v.message == error.value
      ensures v.ListingView? ==>
        v.shown == |articles| && v.total == totalArticles && v.articles == articles &&
        (v.pagination.Some? <==> totalArticles > ArticlesPerPage) &&
        v.pagination == AppPagination.Render(currentPage, TotalPages(totalArticles))
    {
      if isLoading then LoadingView
      else if error.Some? then ErrorView(error.value)
      else
        PaginationShownIff(currentPage, totalArticles);
        ListingView(|articles|, totalArticles, articles,
                    AppPagination.Render(currentPage, TotalPages(totalArticles)))
    }
  }
}
