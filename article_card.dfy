/** The article card of the public listing: a content snippet and a link. */
module ArticleCard {
  import Text
  import Api

  const SnippetLength := 100
  const Ellipsis := "..."

  /**
   * `content.substring(0, 100) + "..."`: at most the first 100 characters,
   * then an ellipsis, which is appended even to short content.
   */
  function ContentSnippet(content: string): (snippet: string)
    ensures |snippet| == (if |content| <= SnippetLength then |content| else SnippetLength) + 3
    ensures |snippet| <= SnippetLength + 3
    ensures snippet[..|snippet| - 3] <= content
    ensures snippet[|snippet| - 3..] == Ellipsis
  {
    Text.Take(content, SnippetLength) + Ellipsis
  }

  /** Content of at most 100 characters appears whole, followed by the ellipsis. */
  lemma ShortContentSnippet(content: string)
    requires |content| <= SnippetLength
    ensures ContentSnippet(content) == content + Ellipsis
  {
  }

  /** The snippet depends only on the first 100 characters of the content. */
  lemma SnippetSeesOnlyPrefix(a: string, b: string)
    requires |a| >= SnippetLength && |b| >= SnippetLength
    requires a[..SnippetLength] == b[..SnippetLength]
    ensures ContentSnippet(a) == ContentSnippet(b)
  {
  }

  /** `/articles/${article.id}`. */
  function CardHref(article: Api.Article): (href: string)
    ensures Text.StartsWith(href, "/articles/")
    ensures href[|"/articles/"|..] == article.id
  {
    "/articles/" + article.id
  }
}
