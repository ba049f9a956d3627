# Blog CMS frontend logic, modelled in Dafny

This project models the decision logic of a Next.js blog CMS frontend: a
public article listing with cards and pagination, a site header, and an admin
area for articles and categories. Each core component file is one Dafny
module. Pure expressions become functions with lemmas. Components whose
handlers update React state step by step become classes: a field for each
piece of `useState` the modelled handlers read or write, and one method per
handler or effect. A network call is a
parameter of type `Api.Response<T>` (`Ok(value)` or `Failed(error)`).
`localStorage`'s `access_token` is an `Option<string>` field, and a
`router.push` target is recorded in a `route` field.

Modules:

- `ArticleForm`: the article editor form. It holds the plain-text extractor
  `lexicalJsonToPlainText` over a small JSON value type, and under `Json` it
  models JavaScript property access, truthiness and `String(...)`. It also
  holds the article schema, the editor-to-field content sync, the category
  options and the preview lookup, the upload-then-submit payload assembly,
  and the form's state machine. A reference `Document` type encodes the
  serialized shape of paragraphs, headings, quotes, flat lists, links and
  line breaks, and gives an independent reading of the extractor
  (`ExtractDocument`, `ExtractedLines`).
- `AppPagination`: the pagination bar as a function of the current page and
  the page count. It covers the rendered view, the page links, and the page
  each control asks for.
- `ArticleCard`: the card's content snippet and its link.
- `AdminArticlesPage`: the admin article table, which fetches the list,
  deletes through a dialog and filters the list by id.
- `AdminCategoriesPage`: the admin category table. It covers the paginated
  fetch, the add/edit modal and its save, and the delete flow.
- `ArticleList`: the public listing's fetch state and its page count.
- `DeleteDialog`: the confirmation dialog's busy flag, error message and
  close guard.
- `CategoryModal`: the category schema, the modal's wording and the name
  field's reset.
- `Header`: the public header's initials, profile loading and logout.
- `AdminLayout`: the admin shell's nav highlighting, role gate and avatar
  letter.
- `AdminProfilePage`: the profile page's token check and fetch flow.
- Shared helpers:
  - `Text`: JavaScript `split` on one character, `join`, `substring`,
    `startsWith`, and ASCII case conversion.
  - `Seqs`: filter, `findIndex` and all-or-nothing map.
  - `PageCount`: `Math.ceil(total / perPage)` on naturals.
  - `Api`: the shared record types and the response type.
  - `Wrappers`: `Option`.

The extractor does less than a summary helper usually does:

- `lexicalJsonToPlainText` joins blocks with `"\n"`, not with a space.
- It does not truncate; the card does its own truncation, and the card
  appends `"..."` even to short content.
- On a parse failure it returns the input unchanged; there is no markup or
  regex fallback.

Behaviours of the code that the model keeps:

- The JSON text `null` parses, and then reading `json.root` throws. The
  `catch` then returns the input, so the result is `"null"`, not `""`. The
  same happens when a block is `null` (`NullBlockReturnsInput`) or when an
  inline child of a block is `null` (`NullInlineReturnsInput`).
- A truthy non-string `text` value is converted with `String(...)`, so a
  number prints as its decimal digits and an object as `"[object Object]"`.
  An object with its own `toString` key cannot be converted: `String(...)`
  throws, and the `catch` returns the input. So does an array holding such
  an object at any depth (`UnconvertibleTextReturnsInput`,
  `OwnToStringExample`).
- A link (`link` or `autolink`) keeps its words in text runs under its own
  `children`, and has no `text` member. The extractor reads only one level
  of children, so a link reads as `""` and its words are missing from the
  preview (`InlineTextOfLink`).
- List blocks (`list` → `listitem` → text) lose their item text. A list
  item has no `text` member, so each item reads as `""`, and a list of n
  items reads as n − 1 spaces (`ListItemsReadAsSpaces`).
- `getInitials(" Bob")` is `"UNDEFINEDB"`, because an empty first piece
  prints `undefined` in the template literal (`Header.LeadingSpaceInitials`).
- The nav highlight is a string-prefix test, so `/admin/profile` also
  highlights on `/admin/profilex`.
- On the admin profile page, a missing token redirects to `/login` and
  returns before the `try`, so `loading` stays true.

## Model

| member | source | states |
|---|---|---|
| ArticleForm.InlineText | src/components/features/admin/ArticleForm.tsx:460 | an inline child contributes its `text` converted to a string when truthy, else `""`; it fails (throws) exactly when the child is `null` or its truthy `text` is a value `String()` refuses (an object with its own `toString` key, or an array holding one at any depth); a string `text` is kept verbatim |
| ArticleForm.BlockText | src/components/features/admin/ArticleForm.tsx:458-461 | a block without a `children` array gives `""`; otherwise it is its children's texts joined with one space, and it fails exactly when the block is `null` or reading one of its children fails |
| ArticleForm.Extract | src/components/features/admin/ArticleForm.tsx:455-463 | no `root` or a non-array `root.children` gives `""`; otherwise the block texts joined with `"\n"` in order, failing exactly when a block fails |
| ArticleForm.LexicalJsonToPlainText | src/components/features/admin/ArticleForm.tsx:453-467 | a parse error, the value `null`, a `null` block or inline child, or a `text` value `String()` refuses (each a caught throw) gives the input unchanged; a value without a block list gives `""`; otherwise the extracted text; the function is total |
| ArticleForm.NullBlockReturnsInput | src/components/features/admin/ArticleForm.tsx:457-466 | a `null` block anywhere in the list makes the extractor return its input |
| ArticleForm.NullInlineReturnsInput | src/components/features/admin/ArticleForm.tsx:459-466 | a `null` inline child of any block with a `children` array makes the extractor return its input |
| ArticleForm.UnconvertibleTextReturnsInput | src/components/features/admin/ArticleForm.tsx:459-466 | an inline child whose `text` is a value `String()` refuses makes the extractor return its input |
| ArticleForm.OwnToStringExample | src/components/features/admin/ArticleForm.tsx:453-466 | `{"root":{"children":[{"children":[{"text":{"toString":0}}]}]}}` gives back its input |
| ArticleForm.InlineTextOfEncoded | src/components/features/admin/ArticleForm.tsx:460 | a serialized text run reads as its text; a line break and a link read as `""` |
| ArticleForm.InlineTextOfLink | src/components/features/admin/ArticleForm.tsx:460 | a serialized link, plain or automatic, has no `text` and reads as `""` whatever its words |
| ArticleForm.InlineTextOfListItem | src/components/features/admin/ArticleForm.tsx:459-460 | a serialized list item, having no `text`, reads as `""` |
| ArticleForm.BlockTextOfEncoded | src/components/features/admin/ArticleForm.tsx:458-461 | on a serialized block the extractor agrees with the reference reading `BlockPlain` |
| ArticleForm.ExtractDocument | src/components/features/admin/ArticleForm.tsx:456-463 | on any serialized document the extracted text equals the reference reading: the blocks' readings joined with `"\n"` in document order |
| ArticleForm.ExtractedLines | src/components/features/admin/ArticleForm.tsx:457-463 | when no text run holds a line feed, splitting the result on `"\n"` gives back exactly one line per block, each that block's reading |
| ArticleForm.ListItemsReadAsSpaces | src/components/features/admin/ArticleForm.tsx:458-461 | a list of n items reads as n − 1 spaces (none for an empty list), whatever the items say |
| ArticleForm.HelloWorldExample | src/components/features/admin/ArticleForm.tsx:453-463 | `{"root":{"children":[{"children":[{"text":"Hello world"}]}]}}` reads `"Hello world"` |
| ArticleForm.ArticleIssues | src/components/features/admin/ArticleForm.tsx:36-50 | the form is valid iff title ≥ 5 characters, a non-empty category id, content ≥ 20 characters, and the thumbnail is absent, falsy or a file; each message appears iff its rule fails |
| ArticleForm.CategoryOptions | src/components/features/admin/ArticleForm.tsx:331-332 | the select offers the categories with a non-empty id, each exactly as often as in the fetched list, and no other |
| ArticleForm.CategoryOptionsConcat | src/components/features/admin/ArticleForm.tsx:331-332 | the options keep the fetched order: the options of a concatenation are the concatenation of the options |
| ArticleForm.PreviewCategoryName | src/components/features/admin/ArticleForm.tsx:149-154 | the preview names the first category whose id matches, and shows `""` when none matches |
| ArticleForm.InitialImageUrl | src/components/features/admin/ArticleForm.tsx:161 | without initial data, or without its `thumbnailUrl`, the image URL starts as `""` |
| ArticleForm.Wording | src/components/features/admin/ArticleForm.tsx:190-222 | only `mode === 'create'` gives the heading "Create Article" and the announcement "Article created successfully!"; any other mode, an absent one included, gives "Edit Article" and "Article updated successfully!" |
| ArticleForm.CreatePageAnnouncesUpdate | src/app/admin/articles/create/page.tsx:53 | the creation page, which passes no `mode`, shows "Edit Article" and announces "Article updated successfully!" |
| ArticleForm.IntendedCreatePageAnnouncesCreate | src/app/admin/articles/create/page.tsx:53 | with `mode="create"` the page shows "Create Article" and announces "Article created successfully!" |
| ArticleForm.ArticleFormState.constructor | src/components/features/admin/ArticleForm.tsx:80-92 | every state field starts at its initial value |
| ArticleForm.ArticleFormState.LoadInitialData | src/components/features/admin/ArticleForm.tsx:95-111 | only with `mode === 'edit'` and initial data: the fields are reset to `x \|\| ""`; the preview image and editor state change only when the thumbnail/content is truthy |
| ArticleForm.ArticleFormState.FetchCategories | src/components/features/admin/ArticleForm.tsx:114-127 | success replaces the categories, failure keeps them; loading ends either way |
| ArticleForm.ArticleFormState.EditorChanged | src/components/features/admin/ArticleForm.tsx:355-358 | an editor change records the JSON and also writes it straight into `content` |
| ArticleForm.ArticleFormState.SyncContentFromEditor | src/components/features/admin/ArticleForm.tsx:130-134 | editor output of length ≥ 20 is written to `content`; shorter output leaves `content` untouched |
| ArticleForm.ArticleFormState.HandleFileChange | src/components/features/admin/ArticleForm.tsx:136-145 | a picked file is previewed and stored; no file clears both |
| ArticleForm.ArticleFormState.HandleDeleteThumbnail | src/components/features/admin/ArticleForm.tsx:204-210 | the preview and the thumbnail value are cleared |
| ArticleForm.ArticleFormState.HandlePreview | src/components/features/admin/ArticleForm.tsx:147-158 | the preview opens with the current title, content, image and the looked-up category name |
| ArticleForm.ArticleFormState.HandleFormSubmit | src/components/features/admin/ArticleForm.tsx:160-200 | a failed upload of a new file sends nothing; without a new file `imageUrl` is the initial thumbnail URL or `""`; with one it is the uploaded URL; the payload has no thumbnail; success is announced only after `onSubmit` resolves |
| AppPagination.PageLinks | src/components/shared/AppPagination.tsx:48-56 | one link per page, link `i` for page `i+1`, active iff it is the current page |
| AppPagination.Render | src/components/shared/AppPagination.tsx:25-74 | nothing is rendered iff there are at most one page; Previous is disabled iff on page 1, Next iff on the last page |
| AppPagination.Request | src/components/shared/AppPagination.tsx:36-71 | Previous asks for page−1 iff above page 1, Next asks for page+1 iff below the last page, a link asks for its page |
| AppPagination.RequestInRange | src/components/shared/AppPagination.tsx:38-71 | from a page in range, every requested page is in range |
| AppPagination.LinksCoverPages | src/components/shared/AppPagination.tsx:48 | the links carry exactly the pages 1..totalPages in increasing order |
| AppPagination.ActiveLink | src/components/shared/AppPagination.tsx:56 | exactly one link is active when the current page is in range, none otherwise |
| ArticleCard.ContentSnippet | src/components/features/articles/ArticleCard.tsx:31 | the snippet is the first min(100, len) characters followed by `"..."`, at most 103 characters, and without its last three characters a prefix of the content |
| ArticleCard.ShortContentSnippet | src/components/features/articles/ArticleCard.tsx:31 | content of at most 100 characters is kept whole and still gets `"..."` |
| ArticleCard.SnippetSeesOnlyPrefix | src/components/features/articles/ArticleCard.tsx:31 | contents sharing their first 100 characters have the same snippet |
| ArticleCard.CardHref | src/components/features/articles/ArticleCard.tsx:34 | the link is `/articles/` followed by exactly the article id |
| PageCount.CeilDiv | src/app/admin/categories/page.tsx:61 | `ceil(total / perPage)`: enough pages for every item, and no page too many; zero pages iff zero items |
| PageCount.CeilDivLeast | src/app/admin/categories/page.tsx:61 | no smaller page count holds every item |
| AdminArticlesPage.RemoveArticle | src/app/admin/articles/page.tsx:86-88 | the result holds no article with the id and keeps every article without it |
| AdminArticlesPage.RemoveArticleCounts | src/app/admin/articles/page.tsx:86-88 | articles with the id are gone and every other article keeps its number of occurrences |
| AdminArticlesPage.RemoveArticleKeepsOrder | src/app/admin/articles/page.tsx:86-88 | deletion distributes over concatenation, so the survivors keep their order |
| AdminArticlesPage.RemoveAbsentArticle | src/app/admin/articles/page.tsx:86-88 | deleting an id no article has leaves the list unchanged |
| AdminArticlesPage.ArticleDialogSaysCategory | src/app/admin/articles/page.tsx:186-191 | the article page's delete dialog, given no `itemType`, speaks of a "category" |
| AdminArticlesPage.IntendedDialogSaysArticle | src/app/admin/articles/page.tsx:186-191 | with `itemType="article"` the dialog's confirm button reads "Delete article" |
| AdminArticlesPage.ArticlesPageState.constructor | src/app/admin/articles/page.tsx:33-38 | an empty list, loading, and no dialog or selection |
| AdminArticlesPage.ArticlesPageState.DialogItemName | src/app/admin/articles/page.tsx:190 | the dialog names the selected article's title, or `""` |
| AdminArticlesPage.ArticlesPageState.FetchArticles | src/app/admin/articles/page.tsx:43-57 | success stores `data \|\| []`, failure keeps the list; loading ends either way |
| AdminArticlesPage.ArticlesPageState.OpenDeleteDialog | src/app/admin/articles/page.tsx:63-66 | the article is selected and the dialog opened together |
| AdminArticlesPage.ArticlesPageState.CloseDialog | src/app/admin/articles/page.tsx:69-72 | the dialog closes and the selection is cleared |
| AdminArticlesPage.ArticlesPageState.DeleteArticle | src/app/admin/articles/page.tsx:75-95 | with no selection nothing is requested or changed; otherwise the selected id is requested, removed from the list only on success, and the dialog closes in every outcome |
| AdminCategoriesPage.TotalPages | src/app/admin/categories/page.tsx:61 | ceil(total / 10): zero iff no categories, and tight bounds |
| AdminCategoriesPage.PaginationShownIff | src/app/admin/categories/page.tsx:186-190 | the pagination bar appears iff there are more than ten categories |
| AdminCategoriesPage.SaveTarget | src/app/admin/categories/page.tsx:89-93 | a save updates the edited category's id iff one is being edited, and creates otherwise, with the same data |
| AdminCategoriesPage.CategoriesPageState.constructor | src/app/admin/categories/page.tsx:31-43 | every state field starts at its initial value |
| AdminCategoriesPage.CategoriesPageState.StartFetch | src/app/admin/categories/page.tsx:49-58 | loading starts; the query carries the search term, the current page and limit 10 |
| AdminCategoriesPage.CategoriesPageState.FinishFetch | src/app/admin/categories/page.tsx:59-66 | success replaces the page, its total and the page count; failure keeps them; loading ends |
| AdminCategoriesPage.CategoriesPageState.SetPage | src/app/admin/categories/page.tsx:189 | a page request becomes the current page |
| AdminCategoriesPage.CategoriesPageState.OpenModal | src/app/admin/categories/page.tsx:74-77 | the modal opens, editing the given category or, with none, in add mode |
| AdminCategoriesPage.CategoriesPageState.CloseModal | src/app/admin/categories/page.tsx:80-83 | the modal closes and the edited category is cleared |
| AdminCategoriesPage.CategoriesPageState.StartSave | src/app/admin/categories/page.tsx:86-93 | saving starts and the update-or-create request goes out |
| AdminCategoriesPage.CategoriesPageState.FinishSave | src/app/admin/categories/page.tsx:94-100 | success closes the modal and refetches, failure leaves the modal as it is; saving ends in both |
| AdminCategoriesPage.CategoriesPageState.OpenDeleteDialog | src/app/admin/categories/page.tsx:106-109 | the category is selected and the dialog opened together |
| AdminCategoriesPage.CategoriesPageState.CloseDeleteDialog | src/app/admin/categories/page.tsx:112-115 | the dialog closes and the selection is cleared |
| AdminCategoriesPage.CategoriesPageState.DeleteCategory | src/app/admin/categories/page.tsx:118-135 | with no selection nothing happens; otherwise the selected id is requested, a refetch starts only on success, and the dialog closes in every outcome |
| ArticleList.TotalPages | src/components/features/articles/ArticleList.tsx:62 | ceil(total / 9): zero articles give zero pages, and (pages−1)·9 < total ≤ pages·9 |
| ArticleList.EveryPageHasArticles | src/components/features/articles/ArticleList.tsx:62 | every page from 1 to the page count starts at an existing article |
| ArticleList.PaginationShownIff | src/components/features/articles/ArticleList.tsx:62 | the pagination bar appears iff there are more than nine articles |
| ArticleList.ArticleListState.constructor | src/components/features/articles/ArticleList.tsx:28-32 | no articles, loading, no error, page 1 |
| ArticleList.ArticleListState.StartFetch | src/components/features/articles/ArticleList.tsx:37-48 | loading starts and the error is cleared before the request; the query carries search, category, page and limit 9 |
| ArticleList.ArticleListState.FinishFetch | src/components/features/articles/ArticleList.tsx:49-56 | success stores the articles and the total; failure records the fixed message; loading ends either way |
| ArticleList.ArticleListState.SetPage | src/components/features/articles/ArticleList.tsx:95 | a page request becomes the current page |
| ArticleList.ArticleListState.View | src/components/features/articles/ArticleList.tsx:64-96 | loading first, then the recorded error message, then the listing: "Showing n of total", exactly the fetched articles, and the pagination bar `Render(currentPage, TotalPages(total))`, present iff there are more than nine articles |
| DeleteDialog.DeleteErrorMessage | src/components/features/admin/DeleteDialog.tsx:42-46 | the response's message if present, else the error's message, else "Failed to delete {itemType}. Please try again."; never empty |
| DeleteDialog.ItemTypeOrDefault | src/components/features/admin/DeleteDialog.tsx:30 | a missing item type defaults to "category" |
| DeleteDialog.DeleteDialogState.constructor | src/components/features/admin/DeleteDialog.tsx:30-33 | not deleting, no error, the defaulted item type |
| DeleteDialog.DeleteDialogState.ConfirmLabel | src/components/features/admin/DeleteDialog.tsx:100-109 | "Deleting..." while deleting, else "Delete {itemType}" |
| DeleteDialog.DeleteDialogState.BeginConfirm | src/components/features/admin/DeleteDialog.tsx:36-39 | busy, with the error cleared, before `onConfirm` runs |
| DeleteDialog.DeleteDialogState.FinishConfirm | src/components/features/admin/DeleteDialog.tsx:39-49 | a rejection shows its message; a success leaves the dialog as it is; busy ends either way |
| DeleteDialog.DeleteDialogState.HandleClose | src/components/features/admin/DeleteDialog.tsx:52-57 | a close is ignored while deleting; otherwise the error is cleared and `onClose` is called |
| CategoryModal.CategoryIssues | src/components/features/admin/CategoryModal.tsx:26-28 | a name is accepted iff it has at least 3 characters, else the one schema message |
| CategoryModal.ModalTitle | src/components/features/admin/CategoryModal.tsx:57 | "Edit Category" iff a category is given, "Add Category" iff none |
| CategoryModal.ModalDescription | src/components/features/admin/CategoryModal.tsx:58 | the edit description iff a category is given, the add description iff none |
| CategoryModal.SaveDisabled | src/components/features/admin/CategoryModal.tsx:84 | Save is disabled iff `isSaving` is true |
| CategoryModal.CategoryModalState.constructor | src/components/features/admin/CategoryModal.tsx:41-46 | the name starts as `""` |
| CategoryModal.CategoryModalState.SyncWithCategory | src/components/features/admin/CategoryModal.tsx:49-55 | edit mode loads the category's name, add mode resets it to `""` |
| CategoryModal.CategoryModalState.Submit | src/components/features/admin/CategoryModal.tsx:68 | `onSave` receives the name iff it passes the schema |
| Header.FirstCharText | src/components/shared/Header.tsx:61 | `piece[0]` in a template: the first character, or "undefined" for an empty piece |
| Header.GetInitials | src/components/shared/Header.tsx:58-64 | without a space, the first two characters upper-cased; with several pieces whose ends are non-empty, the upper-cased first characters of the first and last piece |
| Header.SinglePieceInitials | src/components/shared/Header.tsx:63 | a one-piece name gives two characters, or one for a one-character name |
| Header.MiddleNamesIgnored | src/components/shared/Header.tsx:59-61 | a middle name does not change the initials |
| Header.LeadingSpaceInitials | src/components/shared/Header.tsx:59-61 | `" Bob"` gives `"UNDEFINEDB"` |
| Header.HeaderState.constructor | src/components/shared/Header.tsx:25-27 | no user, loading, dialog closed |
| Header.HeaderState.LoadProfile | src/components/shared/Header.tsx:39-53 | fetched iff a token is stored; success stores the user; failure removes the token and the user; loading ends in every branch |
| Header.HeaderState.OpenLogoutDialog | src/components/shared/Header.tsx:93 | the logout dialog opens |
| Header.HeaderState.CloseLogoutDialog | src/components/shared/Header.tsx:114 | the logout dialog closes |
| Header.HeaderState.HandleLogoutConfirmed | src/components/shared/Header.tsx:31-36 | the token is removed, the user forgotten and the dialog closed |
| Header.HeaderState.View | src/components/shared/Header.tsx:74-106 | a placeholder iff loading, the account menu with the user's initials iff loaded with a user, else the sign-in links |
| AdminLayout.IsActive | src/app/admin/layout.tsx:41 | a nav item is active iff its href is a prefix of the pathname |
| AdminLayout.ActiveBelowHref | src/app/admin/layout.tsx:41 | every path below an item's href highlights it |
| AdminLayout.ArticlePathsHighlightArticles | src/app/admin/layout.tsx:20-41 | every path starting with `/admin/articles` highlights the Articles item and neither of the other two |
| AdminLayout.AvatarInitial | src/app/admin/layout.tsx:81 | `""` for an empty username, else its first character upper-cased |
| AdminLayout.AdminRoleIgnoresCase | src/app/admin/layout.tsx:101 | the role test gives the same verdict after upper-casing the role |
| AdminLayout.AdminLayoutState.constructor | src/app/admin/layout.tsx:94-95 | an empty username, loading |
| AdminLayout.AdminLayoutState.LoadProfile | src/app/admin/layout.tsx:98-112 | an admin sets the username; another role goes to "/" and leaves it; a failure, or no token, removes the token and goes to "/login"; loading ends in all outcomes |
| AdminLayout.AdminLayoutState.OpenLogoutDialog | src/app/admin/layout.tsx:55 | the logout dialog opens |
| AdminLayout.AdminLayoutState.CloseLogoutDialog | src/app/admin/layout.tsx:62 | the logout dialog closes |
| AdminLayout.AdminLayoutState.Logout | src/app/admin/layout.tsx:26-29 | the token is removed and the page goes to "/login" |
| AdminLayout.AdminLayoutState.View | src/app/admin/layout.tsx:114-124 | the loading line iff loading, else the shell with the username and its avatar letter |
| AdminProfilePage.GetInitial | src/app/admin/profile/page.tsx:48-50 | `""` for a missing or empty name, else its first character upper-cased |
| AdminProfilePage.ProfilePageState.constructor | src/app/admin/profile/page.tsx:24-25 | no user, loading |
| AdminProfilePage.ProfilePageState.LoadProfile | src/app/admin/profile/page.tsx:29-44 | without a token it goes to "/login" and loading stays on; otherwise success stores the profile, failure removes the token and goes to "/login", and loading ends |
| AdminProfilePage.ProfilePageState.View | src/app/admin/profile/page.tsx:52-76 | loading first; once loaded, nothing iff there is no user, else the profile with its initial |
| Text.Split | src/components/shared/Header.tsx:59 | `split(' ')`: at least one piece, no piece holds the separator, and joining the pieces with it gives back the string |
| Text.ToUpper | src/components/shared/Header.tsx:61 | position by position, ASCII lower-case letters become upper-case and every other character is kept |
| Seqs.Filter | src/app/admin/articles/page.tsx:87 | the kept elements come from the sequence and satisfy the test, and every element satisfying it is kept |

## Left out

- The editor wrapper (`LexicalEditor.tsx`) is not part of this model. Serializing, loading and format toggling happen inside the Lexical library. So there is no round-trip or idempotence property of the editor. The reference `Document` type stands in for the part of its output format made of paragraphs, headings, quotes, flat lists, links and line breaks.
- `Document` has no code block. The editor registers `CodeNode` and `CodeHighlightNode` (src/components/features/admin/LexicalEditor.tsx:82-83); a `code` block's children are `code-highlight` runs that carry a `text`, so the extractor reads them like text runs joined with spaces, but no lemma states this. Nested lists are not in `Document` either; their inner items also read as `""`.
- `JSON.parse` itself is not modelled. Its result is the parameter `ParseResult` (`ParseError` or `Parsed(json)`).
- JSON numbers are unbounded integers only. Fractions and exponents are not modelled. Neither is `String()` of an integer of 10^21 or more, which JavaScript writes in exponent form (`"1e+21"`). Neither is the loss of precision of integers beyond 2^53.
- There is no extractor truncation, HTML detection, regex tag stripping or legacy-markup import, because the code has none.
- Case conversion covers ASCII letters only; full Unicode `toUpperCase` and `toLowerCase` are not modelled.
- Strings are sequences of characters. JavaScript's UTF-16 code units (surrogate pairs in `substring`, `[0]` and `length`) are not distinguished.
- Network requests are parameters (`Api.Response`). Their URLs, headers, the token in the `Authorization` header, multipart upload and axios configuration (`src/lib/axios.ts`) are not modelled. `fetchUserProfile` (`src/lib/auth.ts`) is modelled only by its refusal without a token (`Api.NoTokenError`).
- `localStorage` is a `token` field. `router.push` and `window.location.href` are a `route` field. `alert` and `console.error` are dropped.
- React effect scheduling is not modelled: each effect is a method the caller invokes. Overlapping fetches and stale closures are not modelled.
- ArticleForm.ArticleFormState.FetchCategories, AdminArticlesPage.ArticlesPageState.FetchArticles: each fetch, `await` included, is one method, so the state while the request runs is not modelled. That state is the category select disabled by `isLoadingCategories` (ArticleForm.tsx:326), and the table with its delete buttons hidden while `isLoading` (articles/page.tsx:111).
- AdminArticlesPage.ArticlesPageState: the page's `filters` state (articles/page.tsx:32, set by `ArticleFilters` at line 104) has no field. It is set but never read: the fetch ignores it.
- AdminCategoriesPage.CategoriesPageState: `searchTerm` and its debounced copy have no field. The debounced term is the `search` parameter of `StartFetch`.
- ArticleForm.ArticleFormState.HandleFormSubmit: the 2-second `setTimeout` redirect to `/admin/articles` is not modelled. `isSubmitting` belongs to the caller and is not modelled either.
- ArticleForm.ArticleFormState.constructor: react-hook-form leaves the three text fields `undefined` until reset or typed into; the model starts them at `""`.
- ArticleForm.ArticleFormState.HandleDeleteThumbnail: clearing the file input's DOM value is not modelled.
- ArticleForm.ArticleFormState.HandleFileChange: `URL.createObjectURL` is the parameter `objectUrl`.
- `useDebounce` (the 500 ms search delay) is not part of this model. The categories page's fetch takes the debounced term as a parameter.
- Date formatting (`toLocaleDateString`), icons, styling and the presentation-only files (`LogoutDialog.tsx`, `Footer.tsx`, UI primitives, `src/app/layout.tsx`, `src/app/page.tsx`, `src/app/admin/page.tsx`) are not modelled.
- The rest of `src/app/admin/articles/create/page.tsx` only assembles form data and posts it, so it is not part of this model.
- Header.GetInitials: its `ensures` covers names without spaces and names whose first and last pieces are non-empty. The empty-piece case (`"undefined"`) is covered by `Header.FirstCharText` and the lemma `Header.LeadingSpaceInitials`, not by a general clause.
- `src/app/admin/articles/create/page.tsx` is modelled only by the `mode` it passes to the form (`ArticleForm.CreatePageMode`).
- DeleteDialog.DeleteDialogState.ButtonsDisabled and AdminArticlesPage.ArticlesPageState.TotalArticles are plain readings of a field (`disabled={isDeleting}`, `articles.length`). They have no contract beyond their definition.
- The articles page passes `handleDeleteArticle` as `onConfirm`. Because it catches its own errors and never rejects, that dialog never shows an error; the model keeps the two components separate and does not prove this composition.

## Findings

| source | as written | input that shows it | evidently intended | confidence | as-written member | corrected member |
|---|---|---|---|---|---|---|
| src/app/admin/articles/create/page.tsx:53 | the creation page renders `<ArticleForm>` without `mode`, so `mode === 'create'` is false | creating any article: the form is headed "Edit Article" and announces "Article updated successfully!" | pass `mode="create"`, so the form is headed "Create Article" and announces "Article created successfully!" | high; not executed | ArticleForm.CreatePageAnnouncesUpdate | ArticleForm.IntendedCreatePageAnnouncesCreate |
| src/app/admin/articles/page.tsx:186-191 | the article page's `DeleteDialog` gets no `itemType`, so it defaults to `"category"` | deleting any article: the button reads "Delete category" | pass `itemType="article"` | high; not executed | AdminArticlesPage.ArticleDialogSaysCategory | AdminArticlesPage.IntendedDialogSaysArticle |
