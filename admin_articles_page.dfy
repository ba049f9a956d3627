/**
 * The admin article table: the list fetched from the API, its count, and the
 * delete flow through the confirmation dialog.
 */
module AdminArticlesPage {
  import opened Wrappers
  import Api
  import Seqs
  import DeleteDialog

  /** Whether an article survives the deletion of `id`. */
  function KeepsOtherThan(id: string): Api.Article -> bool
  {
    (a: Api.Article) => a.id != id
  }

  /** `articles.filter((article) => article.id !== id)`. */
  function RemoveArticle(articles: seq<Api.Article>, id: string): (r: seq<Api.Article>)
    ensures forall i :: 0 <= i < |r| ==> r[i].id != id && r[i] in articles
    ensures forall i :: 0 <= i < |articles| && articles[i].id != id ==> articles[i] in r
    ensures |r| <= |articles|
  {
    Seqs.Filter(articles, KeepsOtherThan(id))
  }

  /**
   * Deletion removes every article with the id and no other: each other
   * article keeps its number of occurrences.
   */
  lemma RemoveArticleCounts(articles: seq<Api.Article>, id: string, a: Api.Article)
    ensures multiset(RemoveArticle(articles, id))[a] == if a.id == id then 0 else multiset(articles)[a]
  {
    Seqs.FilterCount(articles, KeepsOtherThan(id), a);
  }

  /** Deletion keeps the order of the remaining articles. */
  lemma RemoveArticleKeepsOrder(before: seq<Api.Article>, after: seq<Api.Article>, id: string)
    ensures RemoveArticle(before + after, id) == RemoveArticle(before, id) + RemoveArticle(after, id)
  {
    Seqs.FilterConcat(before, after, KeepsOtherThan(id));
  }

  /** A list without the id is left exactly as it was. */
  lemma RemoveAbsentArticle(articles: seq<Api.Article>, id: string)
    requires forall i :: 0 <= i < |articles| ==> articles[i].id != id
    ensures RemoveArticle(articles, id) == articles
  {
    Seqs.FilterKeepsAll(articles, KeepsOtherThan(id));
  }

  /** The `itemType` the page gives its delete dialog: it passes none. */
  const DialogItemType: Option<string> := None

  /** As written, the article dialog falls back to the default and speaks of a category. */
  lemma ArticleDialogSaysCategory()
    ensures DeleteDialog.ItemTypeOrDefault(DialogItemType) == "category"
  {
  }

  /** The item type the page evidently means to pass. */
  const IntendedDialogItemType: Option<string> := Some("article")

  /** With `itemType="article"` the dialog's confirm button reads "Delete article". */
  lemma IntendedDialogSaysArticle()
    ensures DeleteDialog.ItemTypeOrDefault(IntendedDialogItemType) == "article"
    ensures "Delete " + DeleteDialog.ItemTypeOrDefault(IntendedDialogItemType) == "Delete article"
  {
  }

  class ArticlesPageState {
    var articles: seq<Api.Article>
    var isLoading: bool
    var isDialogOpen: bool
    var articleToDelete: Option<Api.Article>

    /** The dialog is open exactly while an article is selected for deletion. */
    predicate Valid()
      reads this
    {
      isDialogOpen <==> articleToDelete.Some?
    }

    constructor ()
      ensures Valid()
      ensures articles == [] && isLoading && !isDialogOpen && articleToDelete == None
    {
      articles, isLoading := [], true;
      isDialogOpen, articleToDelete := false, None;
    }

    /** `totalArticles`: derived from the list, never stored. */
    function TotalArticles(): nat
      reads this
    {
      |articles|
    }

    /** `itemName={articleToDelete?.title || ""}`. */
    function DialogItemName(): (name: string)
      reads this
      ensures articleToDelete.None? ==> name == ""
      ensures articleToDelete.Some? ==> name == articleToDelete.value.title
    {
      if articleToDelete.Some? then articleToDelete.value.title else ""
    }

    /** The initial fetch: `response.data.data || []` on success; loading ends either way. */
    method FetchArticles(response: Api.Response<Option<seq<Api.Article>>>)
      modifies this`articles, this`isLoading
      ensures !isLoading
      ensures response.Ok? && response.value.Some? ==> articles == response.value.value
      ensures response.Ok? && response.value.None? ==> articles == []
      ensures response.Failed? ==> articles == old(articles)
    {
      isLoading := true;
      if response.Ok? {
        articles := if response.value.Some? then response.value.value else [];
      }
      isLoading := false;
    }

    method OpenDeleteDialog(article: Api.Article)
      modifies this`isDialogOpen, this`articleToDelete
      ensures Valid()
      ensures isDialogOpen && articleToDelete == Some(article)
    {
      articleToDelete := Some(article);
      isDialogOpen := true;
    }

    method CloseDialog()
      modifies this`isDialogOpen, this`articleToDelete
      ensures Valid()
      ensures !isDialogOpen && articleToDelete == None
    {
      isDialogOpen := false;
      articleToDelete := None;
    }

    /**
     * `handleDeleteArticle`: with nothing selected it does nothing; otherwise
     * it requests the deletion of the selected id (`requested`), drops that
     * id from the list only when the request succeeds, and closes the dialog
     * in every outcome.
     */
    method DeleteArticle(response: Api.Response<()>) returns (requested: Option<string>)
      requires Valid()
      modifies this`articles, this`isDialogOpen, this`articleToDelete
      ensures Valid()
      ensures old(articleToDelete).None? ==>
        requested == None && articles == old(articles) && !isDialogOpen && articleToDelete == None
      ensures old(articleToDelete).Some? ==>
        requested == Some(old(articleToDelete).value.id) &&
        !isDialogOpen && articleToDelete == None &&
        articles == if response.Ok? then RemoveArticle(old(articles), old(articleToDelete).value.id)
                    else old(articles)
    {
      if articleToDelete.None? {
        return None;
      }
      var id := articleToDelete.value.id;
      requested := Some(id);
      if response.Ok? {
        articles := RemoveArticle(articles, id);
      }
      CloseDialog();
    }
  }
}
