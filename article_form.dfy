/**
 * The article editor form: the validation schema, the editor-to-field
 * content sync, the category options and preview lookup, the submit payload
 * assembly, and the plain-text extractor used by the preview.
 */
module ArticleForm {
  import opened Wrappers
  import opened Json
  import Text
  import Seqs
  import Api

  // ---------------------------------------------------------------------
  // Plain-text extraction from a serialized editor state
  // ---------------------------------------------------------------------

  /**
   * Whether reading one inline node throws: `.text` of `null`, or converting
   * a truthy `text` value that `String()` refuses.
   */
  predicate InlineThrows(c: Json)
  {
    c.JNull? || (Truthy(Prop(c, "text")) && StringThrows(c.fields["text"]))
  }

  /**
   * What one inline node contributes: its `text` member converted to a
   * string when truthy, else "". `None` when reading `.text` or converting
   * the value throws. The source converts in the `join` after the `map`, but
   * every throw reaches the same `catch`, so converting here gives the same
   * result.
   */
  function InlineText(c: Json): (r: Option<string>)
    ensures r.None? <==> InlineThrows(c)
    ensures !c.JNull? && !Truthy(Prop(c, "text")) ==> r == Some("")
    ensures !c.JNull? && Truthy(Prop(c, "text")) ==> r == JsString(c.fields["text"])
    ensures c.JObj? && "text" in c.fields && c.fields["text"].JStr? ==> r == Some(c.fields["text"].s)
  {
    if c.JNull? then None
    else
      var t := Prop(c, "text");
      if Truthy(t) then JsString(t.value) else Some("")
  }

  /**
   * What one top-level block contributes: the texts of its `children`
   * joined with single spaces, or "" when `children` is not an array.
   * `None` when the block itself is `null` or reading one of its children
   * throws.
   */
  function BlockText(p: Json): (r: Option<string>)
    ensures p.JNull? ==> r.None?
    ensures !p.JNull? && !IsArray(Prop(p, "children")) ==> r == Some("")
    ensures !p.JNull? && IsArray(Prop(p, "children")) ==>
      var cs := p.fields["children"].items;
      (r.None? <==> exists i :: 0 <= i < |cs| && InlineThrows(cs[i])) &&
      (r.Some? ==> r.value == Text.Join(Seqs.MapAll(cs, InlineText).value, " "))
  {
    if p.JNull? then None
    else
      var children := Prop(p, "children");
      if !IsArray(children) then Some("")
      else
        match Seqs.MapAll(children.value.items, InlineText)
        case None => None
        case Some(texts) => Some(Text.Join(texts, " "))
  }

  /** Whether `json.root` is truthy and `json.root.children` is an array. */
  predicate HasBlockList(json: Json)
    requires !json.JNull?
  {
    var root := Prop(json, "root");
    Truthy(root) && IsArray(Prop(root.value, "children"))
  }

  /** The block list of a value that has one. */
  function Blocks(json: Json): seq<Json>
    requires !json.JNull? && HasBlockList(json)
  {
    json.fields["root"].fields["children"].items
  }

  /**
   * The body of the `try` block: "" for a value without a block list, else
   * the block texts joined with "\n"; `None` when a property read throws.
   */
  function Extract(json: Json): (r: Option<string>)
    ensures json.JNull? ==> r.None?
    ensures !json.JNull? && !HasBlockList(json) ==> r == Some("")
    ensures !json.JNull? && HasBlockList(json) ==>
      var bs := Seqs.MapAll(Blocks(json), BlockText);
      (r.None? <==> bs.None?) && (r.Some? ==> r.value == Text.Join(bs.value, "\n"))
  {
    if json.JNull? then None
    else if !HasBlockList(json) then Some("")
    else
      match Seqs.MapAll(Blocks(json), BlockText)
      case None => None
      case Some(texts) => Some(Text.Join(texts, "\n"))
  }

  /**
   * `lexicalJsonToPlainText(input)`, given what `JSON.parse(input)` does.
   * Whatever throws inside the `try` (the parse, a property read on `null`,
   * or a `text` value `String()` refuses) is caught and answered with the
   * input unchanged.
   */
  function LexicalJsonToPlainText(input: string, parsed: ParseResult): (r: string)
    ensures parsed.ParseError? ==> r == input
    ensures parsed == Parsed(JNull) ==> r == input
    ensures parsed.Parsed? && !parsed.value.JNull? && !HasBlockList(parsed.value) ==> r == ""
    ensures parsed.Parsed? && Extract(parsed.value).Some? ==> r == Extract(parsed.value).value
    ensures parsed.Parsed? && Extract(parsed.value).None? ==> r == input
  {
    match parsed
    case ParseError => input
    case Parsed(json) =>
      match Extract(json)
      case None => input
      case Some(text) => text
  }

  /** A `null` block anywhere in the list makes the whole extraction return the input. */
  lemma NullBlockReturnsInput(input: string, json: Json, k: nat)
    requires !json.JNull? && HasBlockList(json)
    requires k < |Blocks(json)| && Blocks(json)[k].JNull?
    ensures LexicalJsonToPlainText(input, Parsed(json)) == input
  {
    assert BlockText(Blocks(json)[k]).None?;
  }

  /** So does a `null` inline child of any block that has a `children` array. */
  lemma NullInlineReturnsInput(input: string, json: Json, k: nat, m: nat)
    requires !json.JNull? && HasBlockList(json)
    requires k < |Blocks(json)| && !Blocks(json)[k].JNull? && IsArray(Prop(Blocks(json)[k], "children"))
    requires m < |Blocks(json)[k].fields["children"].items| && Blocks(json)[k].fields["children"].items[m].JNull?
    ensures LexicalJsonToPlainText(input, Parsed(json)) == input
  {
    assert BlockText(Blocks(json)[k]).None?;
  }

  /**
   * And so does a `text` value that cannot be converted to a string, such
   * as an object with its own `toString` key.
   */
  lemma UnconvertibleTextReturnsInput(input: string, json: Json, k: nat, m: nat)
    requires !json.JNull? && HasBlockList(json)
    requires k < |Blocks(json)| && !Blocks(json)[k].JNull? && IsArray(Prop(Blocks(json)[k], "children"))
    requires m < |Blocks(json)[k].fields["children"].items|
    requires var c := Blocks(json)[k].fields["children"].items[m];
      c.JObj? && "text" in c.fields && StringThrows(c.fields["text"])
    ensures LexicalJsonToPlainText(input, Parsed(json)) == input
  {
    var c := Blocks(json)[k].fields["children"].items[m];
    assert Truthy(Prop(c, "text"));
    assert InlineThrows(c);
    assert BlockText(Blocks(json)[k]).None?;
  }

  /** `{"root":{"children":[{"children":[{"text":{"toString":0}}]}]}}` gives back its input. */
  lemma OwnToStringExample(input: string)
    ensures LexicalJsonToPlainText(input,
      Parsed(JObj(map["root" := JObj(map["children" := JArr([
        JObj(map["children" := JArr([JObj(map["text" := JObj(map["toString" := JNum(0)])])])])])])])))
      == input
  {
    var inline := JObj(map["text" := JObj(map["toString" := JNum(0)])]);
    var block := JObj(map["children" := JArr([inline])]);
    assert InlineText(inline).None?;
    assert BlockText(block).None?;
  }

  // A structured view of the editor state the extractor is meant for.

  /**
   * An inline node: a run of text with its format bits, a line break, or a
   * link around runs of plain text (`autolink` for a link the editor
   * recognised in typed text, `link` otherwise).
   */
  datatype Inline = TextRun(text: string, format: nat) | LineBreak | Link(auto: bool, url: string, texts: seq<string>)

  /** A top-level block: a text block (paragraph, heading, quote) or a list of items. */
  datatype Block =
    | TextBlock(kind: string, inlines: seq<Inline>)
    | ListBlock(listType: string, items: seq<seq<Inline>>)

  datatype Document = Document(blocks: seq<Block>)

  function EncodeTextRun(t: string, format: nat): Json
  {
    JObj(map["type" := JStr("text"), "text" := JStr(t), "format" := JNum(format), "version" := JNum(1)])
  }

  /** A link keeps its words in text runs under `children`, not in a `text` of its own. */
  function EncodeInline(x: Inline): Json
  {
    match x
    case TextRun(t, f) => EncodeTextRun(t, f)
    case LineBreak =>
      JObj(map["type" := JStr("linebreak"), "version" := JNum(1)])
    case Link(auto, url, texts) =>
      JObj(map["type" := JStr(if auto then "autolink" else "link"), "url" := JStr(url),
               "children" := JArr(Seqs.Map(texts, (t: string) => EncodeTextRun(t, 0))), "version" := JNum(1)])
  }

  function EncodeListItem(item: seq<Inline>): Json
  {
    JObj(map["type" := JStr("listitem"), "children" := JArr(Seqs.Map(item, EncodeInline))])
  }

  function EncodeBlock(b: Block): Json
  {
    match b
    case TextBlock(kind, inlines) =>
      JObj(map["type" := JStr(kind), "children" := JArr(Seqs.Map(inlines, EncodeInline))])
    case ListBlock(listType, items) =>
      JObj(map["type" := JStr("list"), "listType" := JStr(listType),
               "children" := JArr(Seqs.Map(items, EncodeListItem))])
  }

  /** The object the editor serializes: `{"root": {"type": "root", "children": [...]}}`. */
  function EncodeDocument(d: Document): Json
  {
    JObj(map["root" := JObj(map["type" := JStr("root"), "children" := JArr(Seqs.Map(d.blocks, EncodeBlock))])])
  }

  /**
   * Reference reading of a document: what a reader sees of each inline
   * node. A link's words sit in its `children`, one level below where the
   * extractor looks, so a link reads as "", like a list item.
   */
  function InlinePlain(x: Inline): string
  {
    if x.TextRun? then x.text else ""
  }

  /** Reference reading of a block: list items have no `text` of their own, so each reads as "". */
  function BlockPlain(b: Block): string
  {
    match b
    case TextBlock(_, inlines) => Text.Join(Seqs.Map(inlines, InlinePlain), " ")
    case ListBlock(_, items) => Text.Join(Seqs.Map(items, (_: seq<Inline>) => ""), " ")
  }

  function DocumentPlain(d: Document): string
  {
    Text.Join(Seqs.Map(d.blocks, BlockPlain), "\n")
  }

  lemma InlineTextOfEncoded(x: Inline)
    ensures InlineText(EncodeInline(x)) == Some(InlinePlain(x))
  {
    var m := EncodeInline(x).fields;
    if x.TextRun? {
      assert m["text"] == JStr(x.text);
    } else {
      assert "text" !in m;
    }
  }

  /** The words of a link, plain or automatic, are not part of the extracted text. */
  lemma InlineTextOfLink(auto: bool, url: string, texts: seq<string>)
    ensures InlineText(EncodeInline(Link(auto, url, texts))) == Some("")
  {
    assert "text" !in EncodeInline(Link(auto, url, texts)).fields;
  }

  lemma InlineTextOfListItem(item: seq<Inline>)
    ensures InlineText(EncodeListItem(item)) == Some("")
  {
    assert "text" !in EncodeListItem(item).fields;
  }

  lemma BlockTextOfEncoded(b: Block)
    ensures BlockText(EncodeBlock(b)) == Some(BlockPlain(b))
  {
    var p := EncodeBlock(b);
    match b
    case TextBlock(_, inlines) =>
      var cs := Seqs.Map(inlines, EncodeInline);
      assert Prop(p, "children") == Some(JArr(cs));
      forall i | 0 <= i < |cs|
        ensures InlineText(cs[i]) == Some(InlinePlain(inlines[i]))
      {
        InlineTextOfEncoded(inlines[i]);
      }
      Seqs.MapAllTotal(cs, InlineText, Seqs.Map(inlines, InlinePlain));
    case ListBlock(_, items) =>
      var cs := Seqs.Map(items, EncodeListItem);
      assert Prop(p, "children") == Some(JArr(cs));
      forall i | 0 <= i < |cs|
        ensures InlineText(cs[i]) == Some("")
      {
        InlineTextOfListItem(items[i]);
      }
      Seqs.MapAllTotal(cs, InlineText, Seqs.Map(items, (_: seq<Inline>) => ""));
  }

  /**
   * On a serialized document the extractor reads each block as its inline
   * texts joined by spaces and joins the blocks by "\n", in document order.
   */
  lemma ExtractDocument(input: string, d: Document)
    ensures LexicalJsonToPlainText(input, Parsed(EncodeDocument(d))) == DocumentPlain(d)
  {
    var json := EncodeDocument(d);
    var root := json.fields["root"];
    assert Prop(json, "root") == Some(root);
    assert Prop(root, "children") == Some(JArr(Seqs.Map(d.blocks, EncodeBlock)));
    assert HasBlockList(json);
    var bs := Blocks(json);
    forall i | 0 <= i < |bs|
      ensures BlockText(bs[i]) == Some(BlockPlain(d.blocks[i]))
    {
      BlockTextOfEncoded(d.blocks[i]);
    }
    Seqs.MapAllTotal(bs, BlockText, Seqs.Map(d.blocks, BlockPlain));
  }

  /** No text run of the document contains a line feed. */
  predicate NoLineFeeds(d: Document)
  {
    forall i, j :: 0 <= i < |d.blocks| && d.blocks[i].TextBlock? && 0 <= j < |d.blocks[i].inlines| ==>
      '\n' !in InlinePlain(d.blocks[i].inlines[j])
  }

  /**
   * When no run contains a line feed, splitting the extracted text on "\n"
   * gives back exactly one line per block, each the reading of that block.
   */
  lemma {:induction false} ExtractedLines(input: string, d: Document)
    requires |d.blocks| >= 1
    requires NoLineFeeds(d)
    ensures Text.Split(LexicalJsonToPlainText(input, Parsed(EncodeDocument(d))), '\n')
         == Seqs.Map(d.blocks, BlockPlain)
  {
    ExtractDocument(input, d);
    var lines := Seqs.Map(d.blocks, BlockPlain);
    forall i | 0 <= i < |lines|
      ensures '\n' !in lines[i]
    {
      match d.blocks[i]
      case TextBlock(_, inlines) =>
        Text.JoinAvoids(Seqs.Map(inlines, InlinePlain), " ", '\n');
      case ListBlock(_, items) =>
        Text.JoinAvoids(Seqs.Map(items, (_: seq<Inline>) => ""), " ", '\n');
    }
    Text.SplitJoin(lines, '\n');
  }

  /**
   * The content of list items is not part of the extracted text: a list of
   * `n` items reads as the `n - 1` spaces between its empty item texts.
   */
  lemma ListItemsReadAsSpaces(listType: string, items: seq<seq<Inline>>)
    ensures BlockPlain(ListBlock(listType, items)) == seq(if |items| == 0 then 0 else |items| - 1, _ => ' ')
  {
    assert Seqs.Map(items, (_: seq<Inline>) => "") == seq(|items|, _ => "");
    Text.JoinEmpties(|items|, ' ');
  }

  /** `{"root":{"children":[{"children":[{"text":"Hello world"}]}]}}` reads "Hello world". */
  lemma HelloWorldExample(input: string)
    ensures LexicalJsonToPlainText(input,
      Parsed(JObj(map["root" := JObj(map["children" := JArr([
        JObj(map["children" := JArr([JObj(map["text" := JStr("Hello world")])])])])])])))
      == "Hello world"
  {
    var inline := JObj(map["text" := JStr("Hello world")]);
    var block := JObj(map["children" := JArr([inline])]);
    assert InlineText(inline) == Some("Hello world");
    Seqs.MapAllTotal([inline], InlineText, ["Hello world"]);
    assert BlockText(block) == Some("Hello world");
    Seqs.MapAllTotal([block], BlockText, ["Hello world"]);
  }

  // ---------------------------------------------------------------------
  // The validation schema
  // ---------------------------------------------------------------------

  datatype File = File(name: string)

  /** What the `thumbnail` field holds: nothing, a picked file, or some other value. */
  datatype ThumbnailValue = NoThumbnail | Picked(file: File) | NotAFile(truthy: bool)

  datatype ArticleFormData = ArticleFormData(
    title: string, categoryId: string, content: string, thumbnail: ThumbnailValue)

  const TitleMinLength := 5
  const ContentMinLength := 20
  const TitleMessage := "Please enter a title with at least 5 characters"
  const CategoryMessage := "Please select a category"
  const ContentMessage := "Content must be at least 20 characters"
  const ThumbnailMessage := "Please select a valid picture"

  /** `!file || file instanceof File`. */
  predicate ThumbnailAccepted(t: ThumbnailValue)
  {
    !(t.NotAFile? && t.truthy)
  }

  /** The messages `articleSchema` reports for the form values, in field order. */
  function ArticleIssues(d: ArticleFormData): (issues: seq<string>)
    ensures issues == [] <==>
      |d.title| >= TitleMinLength && |d.categoryId| >= 1 &&
      |d.content| >= ContentMinLength && ThumbnailAccepted(d.thumbnail)
    ensures TitleMessage in issues <==> |d.title| < TitleMinLength
    ensures CategoryMessage in issues <==> d.categoryId == ""
    ensures ContentMessage in issues <==> |d.content| < ContentMinLength
    ensures ThumbnailMessage in issues <==> !ThumbnailAccepted(d.thumbnail)
    ensures |issues| <= 4
  {
    (if |d.title| < TitleMinLength then [TitleMessage] else []) +
    (if |d.categoryId| < 1 then [CategoryMessage] else []) +
    (if |d.content| < ContentMinLength then [ContentMessage] else []) +
    (if !ThumbnailAccepted(d.thumbnail) then [ThumbnailMessage] else [])
  }

  // ---------------------------------------------------------------------
  // Categories
  // ---------------------------------------------------------------------

  predicate HasId(c: Api.Category) { c.id != "" }

  lemma HasIdCounts(cats: seq<Api.Category>)
    ensures forall c :: multiset(Seqs.Filter(cats, HasId))[c] == if c.id != "" then multiset(cats)[c] else 0
  {
    forall c: Api.Category
      ensures multiset(Seqs.Filter(cats, HasId))[c] == if c.id != "" then multiset(cats)[c] else 0
    {
      Seqs.FilterCount(cats, HasId, c);
    }
  }

  /**
   * The categories offered in the select: those with a non-empty id, each as
   * often as in the fetched list, and none other.
   */
  function CategoryOptions(cats: seq<Api.Category>): (r: seq<Api.Category>)
    ensures forall i :: 0 <= i < |r| ==> r[i].id != "" && r[i] in cats
    ensures forall i :: 0 <= i < |cats| && cats[i].id != "" ==> cats[i] in r
    ensures forall c :: multiset(r)[c] == if c.id != "" then multiset(cats)[c] else 0
    ensures |r| <= |cats|
  {
    HasIdCounts(cats);
    Seqs.Filter(cats, HasId)
  }

  /** The options keep the fetched order: the options of a concatenation are the concatenated options. */
  lemma CategoryOptionsConcat(a: seq<Api.Category>, b: seq<Api.Category>)
    ensures CategoryOptions(a + b) == CategoryOptions(a) + CategoryOptions(b)
  {
    Seqs.FilterConcat(a, b, HasId);
  }

  /**
   * The category name the preview shows: the name of the first category
   * whose id equals the selected one, or "" when none does.
   */
  function PreviewCategoryName(cats: seq<Api.Category>, categoryId: string): (name: string)
    ensures (forall i :: 0 <= i < |cats| ==> cats[i].id != categoryId) ==> name == ""
    ensures name != "" ==> exists i :: 0 <= i < |cats| && cats[i].id == categoryId && cats[i].name == name
    ensures forall i :: (0 <= i < |cats| && cats[i].id == categoryId &&
      (forall j :: 0 <= j < i ==> cats[j].id != categoryId)) ==> name == cats[i].name
  {
    match Seqs.FindIndex(cats, (c: Api.Category) => c.id == categoryId)
    case None => ""
    case Some(k) => cats[k].name
  }

  // ---------------------------------------------------------------------
  // The form component's state
  // ---------------------------------------------------------------------

  datatype Mode = Create | Edit

  /** The `initialData` prop; absent members are `None`. */
  datatype InitialArticle = InitialArticle(
    title: Option<string>, categoryId: Option<string>,
    content: Option<string>, thumbnailUrl: Option<string>)

  /** `finalData`: the validated values with `imageUrl` added and `thumbnail` deleted. */
  datatype SubmitPayload = SubmitPayload(
    title: string, categoryId: string, content: string, imageUrl: string)

  datatype PreviewData = PreviewData(
    title: string, content: string, categoryName: string, thumbnailUrl: Option<string>)

  /** `x || ""` for an optional string. */
  function OrEmpty(x: Option<string>): (r: string)
    ensures x.Some? ==> r == x.value
    ensures x.None? ==> r == ""
  {
    if x.Some? then x.value else ""
  }

  /** `initialData?.thumbnailUrl || ''`. */
  function InitialImageUrl(initialData: Option<InitialArticle>): (url: string)
    ensures initialData.None? ==> url == ""
    ensures initialData.Some? ==> url == OrEmpty(initialData.value.thumbnailUrl)
  {
    if initialData.Some? then OrEmpty(initialData.value.thumbnailUrl) else ""
  }

  /** The texts that depend on the mode: the form's heading and the announcement after a save. */
  datatype ModeWording = ModeWording(heading: string, successMessage: string)

  /**
   * The `mode` prop is optional in practice: a caller that leaves it out
   * passes `undefined`, which is neither `'create'` nor `'edit'`. Only
   * `mode === 'create'` selects the creation texts.
   */
  function Wording(mode: Option<Mode>): (w: ModeWording)
    ensures mode == Some(Create) ==> w == ModeWording("Create Article", "Article created successfully!")
    ensures mode != Some(Create) ==> w == ModeWording("Edit Article", "Article updated successfully!")
  {
    if mode == Some(Create) then ModeWording("Create Article", "Article created successfully!")
    else ModeWording("Edit Article", "Article updated successfully!")
  }

  /** The `mode` the article creation page passes: it renders the form without one. */
  const CreatePageMode: Option<Mode> := None

  /** As written, the creation page's form reads "Edit Article" and announces an update. */
  lemma CreatePageAnnouncesUpdate()
    ensures Wording(CreatePageMode).heading == "Edit Article"
    ensures Wording(CreatePageMode).successMessage == "Article updated successfully!"
  {
  }

  /** The mode the creation page evidently means to pass. */
  const IntendedCreatePageMode: Option<Mode> := Some(Create)

  /** With `mode="create"` the page reads "Create Article" and announces a creation. */
  lemma IntendedCreatePageAnnouncesCreate()
    ensures Wording(IntendedCreatePageMode).heading == "Create Article"
    ensures Wording(IntendedCreatePageMode).successMessage == "Article created successfully!"
  {
  }

  class ArticleFormState {
    const mode: Option<Mode>
    const initialData: Option<InitialArticle>

    // the form values
    var title: string
    var categoryId: string
    var content: string
    var thumbnail: ThumbnailValue

    // component state
    var categories: seq<Api.Category>
    var isLoadingCategories: bool
    var previewImage: Option<string>
    var lexicalJson: string
    var showPreview: bool
    var previewData: Option<PreviewData>
    var showSuccess: bool
    var successMessage: string

    constructor (mode: Option<Mode>, initialData: Option<InitialArticle>)
      ensures this.mode == mode && this.initialData == initialData
      ensures title == "" && categoryId == "" && content == "" && thumbnail == NoThumbnail
      ensures categories == [] && isLoadingCategories
      ensures previewImage == None && lexicalJson == ""
      ensures !showPreview && previewData == None && !showSuccess && successMessage == ""
    {
      this.mode := mode;
      this.initialData := initialData;
      title, categoryId, content, thumbnail := "", "", "", NoThumbnail;
      categories, isLoadingCategories := [], true;
      previewImage, lexicalJson := None, "";
      showPreview, previewData, showSuccess, successMessage := false, None, false, "";
    }

    /**
     * The edit-mode effect: reset the form to the initial article, show its
     * thumbnail and give its content to the editor state.
     */
    method LoadInitialData()
      modifies this`title, this`categoryId, this`content, this`thumbnail, this`previewImage, this`lexicalJson
      ensures (initialData.None? || mode != Some(Edit)) ==>
        title == old(title) && categoryId == old(categoryId) && content == old(content) &&
        thumbnail == old(thumbnail) && previewImage == old(previewImage) && lexicalJson == old(lexicalJson)
      ensures initialData.Some? && mode == Some(Edit) ==>
        var init := initialData.value;
        title == OrEmpty(init.title) && categoryId == OrEmpty(init.categoryId) &&
        content == OrEmpty(init.content) && thumbnail == NoThumbnail &&
        previewImage == (if OrEmpty(init.thumbnailUrl) != "" then init.thumbnailUrl else old(previewImage)) &&
        lexicalJson == (if OrEmpty(init.content) != "" then init.content.value else old(lexicalJson))
    {
      if initialData.Some? && mode == Some(Edit) {
        var init := initialData.value;
        title, categoryId, content, thumbnail := OrEmpty(init.title), OrEmpty(init.categoryId), OrEmpty(init.content), NoThumbnail;
        if OrEmpty(init.thumbnailUrl) != "" {
          previewImage := init.thumbnailUrl;
        }
        if OrEmpty(init.content) != "" {
          lexicalJson := init.content.value;
        }
      }
    }

    /** The category fetch: on success the list is replaced; loading ends either way. */
    method FetchCategories(response: Api.Response<seq<Api.Category>>)
      modifies this`categories, this`isLoadingCategories
      ensures !isLoadingCategories
      ensures categories == if response.Ok? then response.value else old(categories)
    {
      isLoadingCategories := true;
      if response.Ok? {
        categories := response.value;
      }
      isLoadingCategories := false;
    }

    /** The editor's change callback: it records the JSON and passes it to the field. */
    method EditorChanged(json: string)
      modifies this`lexicalJson, this`content
      ensures lexicalJson == json && content == json
    {
      lexicalJson := json;
      content := json;
    }

    /**
     * The effect that copies the editor state into `content`: only output of
     * at least 20 characters is written; shorter output leaves the field alone.
     */
    method SyncContentFromEditor()
      modifies this`content
      ensures |lexicalJson| >= ContentMinLength ==> content == lexicalJson
      ensures |lexicalJson| < ContentMinLength ==> content == old(content)
    {
      if |lexicalJson| >= ContentMinLength {
        content := lexicalJson;
      }
    }

    /** Picking a file shows it and stores it; clearing the picker clears both. */
    method HandleFileChange(file: Option<File>, objectUrl: string)
      modifies this`previewImage, this`thumbnail
      ensures file.Some? ==> previewImage == Some(objectUrl) && thumbnail == Picked(file.value)
      ensures file.None? ==> previewImage == None && thumbnail == NoThumbnail
    {
      if file.Some? {
        previewImage := Some(objectUrl);
        thumbnail := Picked(file.value);
      } else {
        previewImage := None;
        thumbnail := NoThumbnail;
      }
    }

    method HandleDeleteThumbnail()
      modifies this`previewImage, this`thumbnail
      ensures previewImage == None && thumbnail == NoThumbnail
    {
      previewImage := None;
      thumbnail := NoThumbnail;
    }

    /** Open the preview of the current values, with the selected category's name. */
    method HandlePreview()
      modifies this`previewData, this`showPreview
      ensures showPreview
      ensures previewData == Some(PreviewData(title, content,
        PreviewCategoryName(categories, categoryId), previewImage))
    {
      var name := PreviewCategoryName(categories, categoryId);
      previewData := Some(PreviewData(title, content, name, previewImage));
      showPreview := true;
    }

    /**
     * `handleFormSubmit(data)`: upload a newly picked file first and give up
     * if that fails; otherwise pass the values with `imageUrl` and without
     * `thumbnail` to `onSubmit` (`sent`), and announce success when it resolves.
     */
    method HandleFormSubmit(data: ArticleFormData, upload: Api.Response<string>, submit: Api.Response<()>)
      returns (sent: Option<SubmitPayload>)
      modifies this`successMessage, this`showSuccess
      ensures data.thumbnail.Picked? && upload.Failed? ==> sent == None
      ensures !data.thumbnail.Picked? ==>
        sent == Some(SubmitPayload(data.title, data.categoryId, data.content, InitialImageUrl(initialData)))
      ensures data.thumbnail.Picked? && upload.Ok? ==>
        sent == Some(SubmitPayload(data.title, data.categoryId, data.content, upload.value))
      ensures sent.Some? && submit.Ok? ==> showSuccess && successMessage == Wording(mode).successMessage
      ensures sent.None? || submit.Failed? ==>
        showSuccess == old(showSuccess) && successMessage == old(successMessage)
    {
      var imageUrl := InitialImageUrl(initialData);
      if data.thumbnail.Picked? {
        if upload.Failed? {
          return None;
        }
        imageUrl := upload.value;
      }
      var finalData := SubmitPayload(data.title, data.categoryId, data.content, imageUrl);
      sent := Some(finalData);
      if submit.Ok? {
        successMessage := Wording(mode).successMessage;
        showSuccess := true;
      }
    }
  }
}
