/** The workspace client (notion_handler.py). The workspace SDK is replaced by
    an in-memory fake, `NotionClient`: pages by id (each with its archived
    flag and its properties), blocks by id, and each page's ordered child
    block ids. A ghost log records every SDK call in order, so that the
    handler's contracts can say which calls happen and which never do. */
module NotionHandler {
  import opened Wrappers
  import opened JsonValues

  /** A page record as `pages.retrieve` returns it. */
  datatype Page = Page(archived: bool, properties: map<string, Json>)

  /** Block id to the block's fields (everything but its id). */
  type BlockStore = map<string, map<string, Json>>

  /** The dict `get_page_content` returns and `update_page_content` takes. */
  datatype PageContent = PageContent(properties: map<string, Json>, blocks: seq<Json>)

  /** One call into the workspace SDK. */
  datatype ApiCall =
    | RetrievePage(pageId: string)
    | ListChildren(pageId: string)
    | UpdatePage(pageId: string, properties: map<string, Json>)
    | UpdateBlock(blockId: Json, fields: map<string, Json>)

  // ---------------------------------------------------------------------
  // Messages

  /** The SDK's error for an unknown id (its exact text is the SDK's own;
      this is a stand-in). */
  function NotFound(id: string): string {
    "Could not find object with ID: " + id
  }

  /** The SDK's error for a block id that is not a string (stand-in text). */
  function UnknownBlock(id: Json): string {
    match id
    case JString(s) => NotFound(s)
    case _ => "Invalid block ID of type " + TypeName(id)
  }

  function ArchivedMessage(pageId: string): string {
    "Page " + pageId + " is archived. Please unarchive it before updating."
  }

  /** Every failure of the retrieval stage of `update_translations` is
      re-raised with this prefix. */
  const RetrievalPrefix := "Page retrieval failed: "

  /** `f(**x)` where `x` is not a dict (stand-in for CPython's text). */
  function NotMapping(x: Json): string {
    "argument after ** must be a mapping, not " + TypeName(x)
  }

  /** `blocks.update(block_id=..., **content)` where `content` has its own
      `block_id` key. */
  const DuplicateBlockId := "got multiple values for keyword argument 'block_id'"

  // ---------------------------------------------------------------------
  // The fake SDK's operations, as functions of the store

  /** `pages.update(page_id, properties=props)`: the given properties replace
      those of the same name; the others stay. */
  function PagesUpdate(pages: map<string, Page>, pageId: string, props: map<string, Json>)
    : (r: Result<map<string, Page>, string>)
    ensures r.Success? <==> pageId in pages
    ensures r.Failure? ==> r.error == NotFound(pageId)
    ensures r.Success? ==> r.value.Keys == pages.Keys && pageId in r.value
    ensures r.Success? ==> forall p :: p in pages && p != pageId ==> r.value[p] == pages[p]
    ensures r.Success? ==> r.value[pageId].archived == pages[pageId].archived
    ensures r.Success? ==> r.value[pageId].properties.Keys == pages[pageId].properties.Keys + props.Keys
    ensures r.Success? ==> forall k :: k in props ==> r.value[pageId].properties[k] == props[k]
    ensures r.Success? ==> forall k :: k in pages[pageId].properties && k !in props ==>
                             r.value[pageId].properties[k] == pages[pageId].properties[k]
  {
    if pageId !in pages then Failure(NotFound(pageId))
    else
      var page := pages[pageId];
      Success(pages[pageId := page.(properties := page.properties + props)])
  }

  /** `blocks.update(block_id=id, **fields)`: the given fields replace those
      of the same name in the block. */
  function BlocksUpdate(blocks: BlockStore, id: Json, fields: map<string, Json>)
    : (r: Result<BlockStore, string>)
    ensures r.Success? <==> id.JString? && id.s in blocks
    ensures r.Failure? ==> r.error == UnknownBlock(id)
    ensures r.Success? ==> r.value.Keys == blocks.Keys
    ensures r.Success? ==> forall b :: b in blocks && b != id.s ==> r.value[b] == blocks[b]
    ensures r.Success? ==> r.value[id.s] == blocks[id.s] + fields
  {
    if id.JString? && id.s in blocks then Success(blocks[id.s := blocks[id.s] + fields])
    else Failure(UnknownBlock(id))
  }

  /** A page's child block ids; a page without a list has no children. */
  function ChildIds(children: map<string, seq<string>>, pageId: string): seq<string> {
    if pageId in children then children[pageId] else []
  }

  /** A block as `blocks.children.list` reports it: its fields and its id. */
  function BlockJson(id: string, fields: map<string, Json>): Json {
    JObject(fields["id" := JString(id)])
  }

  /** The `results` of `blocks.children.list`, in the page's order. */
  function ChildBlocks(blocks: BlockStore, ids: seq<string>): (r: seq<Json>)
    requires forall i :: 0 <= i < |ids| ==> ids[i] in blocks
    ensures |r| == |ids|
    ensures forall i :: 0 <= i < |ids| ==> r[i] == BlockJson(ids[i], blocks[ids[i]])
  {
    seq(|ids|, i requires 0 <= i < |ids| => BlockJson(ids[i], blocks[ids[i]]))
  }

  // ---------------------------------------------------------------------
  // update_translations, as a function of the pages

  /** The rich-text property value holding one text item. */
  function RichText(content: string): Json {
    JObject(map["rich_text" := JArray([JObject(map["text" := JObject(map["content" := JString(content)])])])])
  }

  /** Reads back the text of a rich-text property with a single item. */
  function RichTextContent(j: Json): Option<string> {
    if j.JObject? && "rich_text" in j.fields then
      var items := j.fields["rich_text"];
      if items.JArray? && |items.items| == 1 then
        var item := items.items[0];
        if item.JObject? && "text" in item.fields then
          var text := item.fields["text"];
          if text.JObject? && "content" in text.fields && text.fields["content"].JString? then
            Some(text.fields["content"].s)
          else None
        else None
      else None
    else None
  }

  const TranslationKeys: set<string> := {"Translation", "Translation En"}

  /** The properties `update_translations` writes: exactly two, each one
      rich-text item, the Chinese text under "Translation" and the English
      under "Translation En". */
  function TranslationProperties(chinese: string, english: string): (props: map<string, Json>)
    ensures props.Keys == TranslationKeys
    ensures RichTextContent(props["Translation"]) == Some(chinese)
    ensures RichTextContent(props["Translation En"]) == Some(english)
  {
    map["Translation" := RichText(chinese), "Translation En" := RichText(english)]
  }

  /** `update_translations` on the pages: retrieve the page and refuse an
      archived one (both failures re-raised with the retrieval prefix), then
      look up the two translations (a missing one raises `KeyError`), then
      write the two properties. */
  function WriteTranslations(pages: map<string, Page>, pageId: string, translations: map<string, string>)
    : (r: Result<map<string, Page>, string>)
    ensures r.Success? <==>
              pageId in pages && !pages[pageId].archived && "chinese" in translations && "english" in translations
    ensures pageId !in pages ==> r == Failure(RetrievalPrefix + NotFound(pageId))
    ensures pageId in pages && pages[pageId].archived ==> r == Failure(RetrievalPrefix + ArchivedMessage(pageId))
    ensures pageId in pages && !pages[pageId].archived && "chinese" !in translations ==>
              r == Failure(ErrorText(KeyError("chinese")))
    ensures pageId in pages && !pages[pageId].archived && "chinese" in translations && "english" !in translations ==>
              r == Failure(ErrorText(KeyError("english")))
    ensures r.Success? ==> r.value.Keys == pages.Keys
    ensures r.Success? ==> forall p :: p in pages && p != pageId ==> r.value[p] == pages[p]
    ensures r.Success? ==> r.value[pageId].archived == pages[pageId].archived
    ensures r.Success? ==> r.value[pageId].properties.Keys == pages[pageId].properties.Keys + TranslationKeys
    ensures r.Success? ==> RichTextContent(r.value[pageId].properties["Translation"]) == Some(translations["chinese"])
    ensures r.Success? ==> RichTextContent(r.value[pageId].properties["Translation En"]) == Some(translations["english"])
    ensures r.Success? ==> forall k :: k in pages[pageId].properties && k !in TranslationKeys ==>
                             r.value[pageId].properties[k] == pages[pageId].properties[k]
  {
    if pageId !in pages then Failure(RetrievalPrefix + NotFound(pageId))
    else if pages[pageId].archived then Failure(RetrievalPrefix + ArchivedMessage(pageId))
    else if "chinese" !in translations then Failure(ErrorText(KeyError("chinese")))
    else if "english" !in translations then Failure(ErrorText(KeyError("english")))
    else PagesUpdate(pages, pageId, TranslationProperties(translations["chinese"], translations["english"]))
  }

  /** Writing the same translations twice leaves the same pages as writing
      them once. */
  lemma WriteTranslationsIdempotent(pages: map<string, Page>, pageId: string, translations: map<string, string>)
    requires WriteTranslations(pages, pageId, translations).Success?
    ensures var once := WriteTranslations(pages, pageId, translations).value;
            WriteTranslations(once, pageId, translations) == Success(once)
  {
    var props := TranslationProperties(translations["chinese"], translations["english"]);
    var once := WriteTranslations(pages, pageId, translations).value;
    var page := once[pageId];
    assert page.properties + props == page.properties;
    assert once[pageId := page.(properties := page.properties + props)] == once;
  }

  /** Only the Chinese and English entries are read: the phonetic entry and
      any other key make no difference to what is written. */
  lemma WriteTranslationsIgnoresOtherKeys(pages: map<string, Page>, pageId: string,
                                          translations: map<string, string>, extra: map<string, string>)
    requires "chinese" !in extra && "english" !in extra
    ensures WriteTranslations(pages, pageId, translations + extra) == WriteTranslations(pages, pageId, translations)
  {
  }

  // ---------------------------------------------------------------------
  // update_page_content, as a function of the store

  /** What a stretch of `update_page_content` leaves: the blocks, the SDK
      calls made, and the error raised, if any. */
  datatype Edited = Edited(blocks: BlockStore, calls: seq<ApiCall>, error: Option<string>)

  /** One iteration of the block loop: a block without a truthy `id` is
      skipped; otherwise its `content` dict is sent to `blocks.update`. */
  function EditBlock(blocks: BlockStore, block: Json): (r: Edited)
    ensures r.blocks.Keys == blocks.Keys
  {
    match DictGet(block, "id", JNull)
    case Failure(e) => Edited(blocks, [], Some(ErrorText(e)))
    case Success(id) =>
      if !Truthy(id) then Edited(blocks, [], None)
      else
        match Subscript(block, "content")
        case Failure(e) => Edited(blocks, [], Some(ErrorText(e)))
        case Success(content) =>
          if !content.JObject? then Edited(blocks, [], Some(NotMapping(content)))
          else if "block_id" in content.fields then Edited(blocks, [], Some(DuplicateBlockId))
          else
            var call := [UpdateBlock(id, content.fields)];
            match BlocksUpdate(blocks, id, content.fields)
            case Failure(e) => Edited(blocks, call, Some(e))
            case Success(blocks') => Edited(blocks', call, None)
  }

  /** One block costs at most one SDK call, an update of the block its own
      `id` names, and a failed block changes nothing. Conversely, a dict
      block without a truthy `id` is skipped, and one with a truthy `id` and
      a dict `content` (without its own `block_id`) makes exactly that
      update, whose outcome decides the blocks and the error. */
  lemma EditBlockCalls(blocks: BlockStore, block: Json)
    ensures var r := EditBlock(blocks, block);
            && (r.error.Some? ==> r.blocks == blocks)
            && |r.calls| <= 1
            && (r.calls != [] ==> block.JObject? && "id" in block.fields && Truthy(block.fields["id"])
                                  && r.calls[0] == UpdateBlock(block.fields["id"], block.fields["content"].fields))
    ensures block.JObject? && ("id" !in block.fields || !Truthy(block.fields["id"])) ==>
              EditBlock(blocks, block) == Edited(blocks, [], None)
    ensures block.JObject? && "id" in block.fields && Truthy(block.fields["id"]) &&
            "content" in block.fields && block.fields["content"].JObject? &&
            "block_id" !in block.fields["content"].fields ==>
              var id, fields := block.fields["id"], block.fields["content"].fields;
              var r := EditBlock(blocks, block);
              var u := BlocksUpdate(blocks, id, fields);
              && r.calls == [UpdateBlock(id, fields)]
              && r.blocks == (if u.Success? then u.value else blocks)
              && r.error == (if u.Success? then None else Some(u.error))
  {
  }

  /** The block loop: blocks are edited in list order and the first error
      stops it, keeping the edits already made. */
  function EditBlocks(blocks: BlockStore, edits: seq<Json>): (r: Edited)
    ensures r.blocks.Keys == blocks.Keys
    decreases |edits|
  {
    if edits == [] then Edited(blocks, [], None)
    else
      var first := EditBlock(blocks, edits[0]);
      if first.error.Some? then first
      else
        var rest := EditBlocks(first.blocks, edits[1..]);
        Edited(rest.blocks, first.calls + rest.calls, rest.error)
  }

  /** The ids a list of block edits can change: the truthy string `id`s. */
  predicate Names(edits: seq<Json>, b: string) {
    exists i :: 0 <= i < |edits| && edits[i].JObject? && "id" in edits[i].fields &&
      edits[i].fields["id"] == JString(b)
  }

  /** A block no edit names keeps its fields. */
  lemma {:induction false} EditBlocksFrame(blocks: BlockStore, edits: seq<Json>, b: string)
    requires b in blocks && !Names(edits, b)
    ensures EditBlocks(blocks, edits).blocks[b] == blocks[b]
    decreases |edits|
  {
    if edits != [] {
      var first := EditBlock(blocks, edits[0]);
      if first.error.None? {
        forall i | 0 <= i < |edits[1..]|
          ensures !(edits[1..][i].JObject? && "id" in edits[1..][i].fields && edits[1..][i].fields["id"] == JString(b))
        {
          assert edits[1..][i] == edits[i + 1];
        }
        assert first.blocks[b] == blocks[b] by {
          assert !(edits[0].JObject? && "id" in edits[0].fields && edits[0].fields["id"] == JString(b));
        }
        EditBlocksFrame(first.blocks, edits[1..], b);
      }
    }
  }

  /** In order: editing with one list and then another is editing with the
      two lists one after the other. */
  lemma {:induction false} EditBlocksAppend(blocks: BlockStore, xs: seq<Json>, ys: seq<Json>)
    ensures var front := EditBlocks(blocks, xs);
            EditBlocks(blocks, xs + ys) ==
              if front.error.Some? then front
              else var back := EditBlocks(front.blocks, ys);
                   Edited(back.blocks, front.calls + back.calls, back.error)
    decreases |xs|
  {
    if xs == [] {
      assert xs + ys == ys;
    } else {
      assert (xs + ys)[0] == xs[0];
      assert (xs + ys)[1..] == xs[1..] + ys;
      var first := EditBlock(blocks, xs[0]);
      if first.error.None? {
        EditBlocksAppend(first.blocks, xs[1..], ys);
        var front := EditBlocks(first.blocks, xs[1..]);
        if front.error.None? {
          var back := EditBlocks(front.blocks, ys);
          assert first.calls + (front.calls + back.calls) == (first.calls + front.calls) + back.calls;
        }
      }
    }
  }

  lemma AppendAssoc(a: seq<ApiCall>, b: seq<ApiCall>, c: seq<ApiCall>)
    ensures (a + b) + c == a + (b + c)
  {
  }

  /** `e` with `calls` made before it. */
  function Prefixed(calls: seq<ApiCall>, e: Edited): Edited {
    Edited(e.blocks, calls + e.calls, e.error)
  }

  lemma PrefixedTwice(a: seq<ApiCall>, b: seq<ApiCall>, e: Edited)
    ensures Prefixed(a, Prefixed(b, e)) == Prefixed(a + b, e)
  {
    assert a + (b + e.calls) == (a + b) + e.calls;
  }

  /** The block loop unrolled once at position `i`. */
  lemma EditBlocksStep(blocks: BlockStore, edits: seq<Json>, i: nat)
    requires i < |edits|
    ensures var step := EditBlock(blocks, edits[i]);
            EditBlocks(blocks, edits[i..]) ==
              if step.error.Some? then step
              else Prefixed(step.calls, EditBlocks(step.blocks, edits[i + 1..]))
  {
    assert edits[i..][0] == edits[i];
    assert edits[i..][1..] == edits[i + 1..];
  }

  /** What `update_page_content` does to the store. */
  datatype ContentUpdate = ContentUpdate(pages: map<string, Page>, blocks: BlockStore,
                                         calls: seq<ApiCall>, result: Result<(), string>)

  /** The properties stage of `update_page_content`: skipped for an empty
      dict, otherwise one `pages.update`. */
  function WriteProperties(pages: map<string, Page>, pageId: string, props: map<string, Json>)
    : (r: Result<map<string, Page>, string>)
    ensures r.Failure? <==> props != map[] && pageId !in pages
    ensures r.Failure? ==> r.error == NotFound(pageId)
    ensures r.Success? ==> r.value.Keys == pages.Keys
    ensures r.Success? ==> forall p :: p in pages && p != pageId ==> r.value[p] == pages[p]
    ensures r.Success? && props != map[] ==>
              pageId in r.value && forall k :: k in props ==>
                k in r.value[pageId].properties && r.value[pageId].properties[k] == props[k]
  {
    if props == map[] then Success(pages) else PagesUpdate(pages, pageId, props)
  }

  /** The SDK calls of the properties stage. */
  function PropertyCalls(pageId: string, props: map<string, Json>): seq<ApiCall> {
    if props == map[] then [] else [UpdatePage(pageId, props)]
  }

  /** `update_page_content` on the store: properties are written only when
      there are some (a failure there stops everything), then the blocks. */
  function UpdateContent(pages: map<string, Page>, blocks: BlockStore, pageId: string, content: PageContent)
    : (r: ContentUpdate)
    ensures r.blocks.Keys == blocks.Keys
  {
    var propCalls := PropertyCalls(pageId, content.properties);
    match WriteProperties(pages, pageId, content.properties)
    case Failure(e) => ContentUpdate(pages, blocks, propCalls, Failure(e))
    case Success(pages') =>
      var edited := EditBlocks(blocks, content.blocks);
      ContentUpdate(pages', edited.blocks, propCalls + edited.calls,
                    if edited.error.Some? then Failure(edited.error.value) else Success(()))
  }

  /** Properties are written only when there are some; blocks only when
      there are some; a failed properties write stops before any block. */
  lemma UpdateContentCases(pages: map<string, Page>, blocks: BlockStore, pageId: string, content: PageContent)
    ensures var r := UpdateContent(pages, blocks, pageId, content);
            && (content.properties == map[] ==> r.pages == pages)
            && (content.blocks == [] ==> r.blocks == blocks)
            && (content.blocks == [] && (content.properties == map[] || pageId in pages) ==> r.result.Success?)
            && (content.properties != map[] && pageId !in pages ==>
                  r == ContentUpdate(pages, blocks, [UpdatePage(pageId, content.properties)], Failure(NotFound(pageId))))
  {
  }

  // ---------------------------------------------------------------------
  // The fake SDK and the handler

  class NotionClient {
    var pages: map<string, Page>
    var blocks: BlockStore
    var children: map<string, seq<string>>
    /** Every SDK call made so far, in order. */
    ghost var log: seq<ApiCall>

    /** Child lists only name existing blocks. */
    ghost predicate Valid()
      reads this`blocks, this`children
    {
      forall p, b :: p in children && b in children[p] ==> b in blocks
    }

    constructor (pages: map<string, Page>, blocks: BlockStore, children: map<string, seq<string>>)
      requires forall p, b :: p in children && b in children[p] ==> b in blocks
      ensures Valid()
      ensures this.pages == pages && this.blocks == blocks && this.children == children && log == []
    {
      this.pages := pages;
      this.blocks := blocks;
      this.children := children;
      log := [];
    }

    /** `pages.retrieve(page_id)` */
    method Retrieve(pageId: string) returns (r: Result<Page, string>)
      modifies this`log
      ensures r == (if pageId in pages then Success(pages[pageId]) else Failure(NotFound(pageId)))
      ensures log == old(log) + [RetrievePage(pageId)]
    {
      log := log + [RetrievePage(pageId)];
      if pageId in pages {
        r := Success(pages[pageId]);
      } else {
        r := Failure(NotFound(pageId));
      }
    }

    /** `blocks.children.list(page_id)['results']` */
    method List(pageId: string) returns (results: seq<Json>)
      requires Valid()
      modifies this`log
      ensures forall i :: 0 <= i < |ChildIds(children, pageId)| ==> ChildIds(children, pageId)[i] in blocks
      ensures results == ChildBlocks(blocks, ChildIds(children, pageId))
      ensures log == old(log) + [ListChildren(pageId)]
    {
      log := log + [ListChildren(pageId)];
      var ids := ChildIds(children, pageId);
      assert forall i :: 0 <= i < |ids| ==> ids[i] in blocks by {
        forall i | 0 <= i < |ids| ensures ids[i] in blocks {
          assert pageId in children && ids[i] in children[pageId];
        }
      }
      results := ChildBlocks(blocks, ids);
    }

    /** `pages.update(page_id, properties=props)` */
    method Update(pageId: string, props: map<string, Json>) returns (r: Result<Page, string>)
      modifies this`pages, this`log
      ensures PagesUpdate(old(pages), pageId, props) == (if r.Success? then Success(pages) else Failure(r.error))
      ensures r.Success? ==> pageId in pages && r.value == pages[pageId]
      ensures r.Failure? ==> pages == old(pages)
      ensures log == old(log) + [UpdatePage(pageId, props)]
    {
      log := log + [UpdatePage(pageId, props)];
      if pageId in pages {
        var page := pages[pageId];
        pages := pages[pageId := page.(properties := page.properties + props)];
        r := Success(pages[pageId]);
      } else {
        r := Failure(NotFound(pageId));
      }
    }

    /** `blocks.update(block_id=id, **fields)` */
    method UpdateBlockFields(id: Json, fields: map<string, Json>) returns (r: Result<(), string>)
      requires Valid()
      modifies this`blocks, this`log
      ensures Valid()
      ensures BlocksUpdate(old(blocks), id, fields) == (if r.Success? then Success(blocks) else Failure(r.error))
      ensures r.Failure? ==> blocks == old(blocks)
      ensures log == old(log) + [UpdateBlock(id, fields)]
    {
      log := log + [UpdateBlock(id, fields)];
      if id.JString? && id.s in blocks {
        blocks := blocks[id.s := blocks[id.s] + fields];
        r := Success(());
      } else {
        r := Failure(UnknownBlock(id));
      }
    }
  }

  class Handler {
    const client: NotionClient

    constructor (client: NotionClient)
      ensures this.client == client
    {
      this.client := client;
    }

    /** `get_page_content`: the page's properties and its child blocks. */
    method GetPageContent(pageId: string) returns (r: Result<PageContent, string>)
      requires client.Valid()
      modifies client`log
      ensures r.Success? <==> pageId in client.pages
      ensures r.Failure? ==> r.error == NotFound(pageId)
      ensures r.Success? ==> r.value.properties == client.pages[pageId].properties
      ensures r.Success? ==> |r.value.blocks| == |ChildIds(client.children, pageId)|
      ensures r.Success? ==> forall i :: 0 <= i < |r.value.blocks| ==>
                               var id := ChildIds(client.children, pageId)[i];
                               id in client.blocks && r.value.blocks[i] == BlockJson(id, client.blocks[id])
      ensures pageId !in client.children ==> r.Success? ==> r.value.blocks == []
      ensures client.log == old(client.log) + [RetrievePage(pageId)] +
                            (if r.Success? then [ListChildren(pageId)] else [])
    {
      var page := client.Retrieve(pageId);
      if page.Failure? {
        return Failure(page.error);
      }
      var results := client.List(pageId);
      r := Success(PageContent(page.value.properties, results));
    }

    /** One pass of the block loop of `update_page_content`. */
    method EditOneBlock(block: Json) returns (error: Option<string>)
      requires client.Valid()
      modifies client`blocks, client`log
      ensures client.Valid()
      ensures client.blocks == EditBlock(old(client.blocks), block).blocks
      ensures client.log == old(client.log) + EditBlock(old(client.blocks), block).calls
      ensures error == EditBlock(old(client.blocks), block).error
    {
      if !block.JObject? {
        return Some(ErrorText(AttributeError(TypeName(block))));
      }
      var id := if "id" in block.fields then block.fields["id"] else JNull;
      if Truthy(id) {
        if "content" !in block.fields {
          return Some(ErrorText(KeyError("content")));
        }
        var fields := block.fields["content"];
        if !fields.JObject? {
          return Some(NotMapping(fields));
        }
        if "block_id" in fields.fields {
          return Some(DuplicateBlockId);
        }
        var u := client.UpdateBlockFields(id, fields.fields);
        if u.Failure? {
          return Some(u.error);
        }
      }
      return None;
    }

    /** The block loop of `update_page_content`: each block with a truthy id,
        in list order, stopping at the first error without undoing earlier
        writes. */
    method EditAllBlocks(edits: seq<Json>) returns (error: Option<string>)
      requires client.Valid()
      modifies client`blocks, client`log
      ensures client.Valid()
      ensures client.blocks == EditBlocks(old(client.blocks), edits).blocks
      ensures client.log == old(client.log) + EditBlocks(old(client.blocks), edits).calls
      ensures error == EditBlocks(old(client.blocks), edits).error
    {
      ghost var blocks0, log0 := client.blocks, client.log;
      for i := 0 to |edits|
        invariant Prefixed(log0, EditBlocks(blocks0, edits)) == Prefixed(client.log, EditBlocks(client.blocks, edits[i..]))
        invariant client.Valid()
      {
        ghost var step := EditBlock(client.blocks, edits[i]);
        ghost var logBefore := client.log;
        EditBlocksStep(client.blocks, edits, i);
        error := EditOneBlock(edits[i]);
        if error.Some? {
          return;
        }
        PrefixedTwice(logBefore, step.calls, EditBlocks(client.blocks, edits[i + 1..]));
      }
      assert edits[|edits|..] == [];
      assert client.log + [] == client.log;
      return None;
    }

    /** The properties stage of `update_page_content`. */
    method UpdateProperties(pageId: string, props: map<string, Json>) returns (r: Result<(), string>)
      modifies client`pages, client`log
      ensures WriteProperties(old(client.pages), pageId, props) ==
                (if r.Success? then Success(client.pages) else Failure(r.error))
      ensures r.Failure? ==> client.pages == old(client.pages)
      ensures client.log == old(client.log) + PropertyCalls(pageId, props)
    {
      if props == map[] {
        assert client.log == old(client.log) + [];
        return Success(());
      }
      var u := client.Update(pageId, props);
      r := if u.Success? then Success(()) else Failure(u.error);
    }

    /** `update_page_content`: properties first, and only when there are some;
        then the blocks. */
    method UpdatePageContent(pageId: string, content: PageContent) returns (r: Result<(), string>)
      requires client.Valid()
      modifies client`pages, client`blocks, client`log
      ensures client.Valid()
      ensures var spec := UpdateContent(old(client.pages), old(client.blocks), pageId, content);
              client.pages == spec.pages && client.blocks == spec.blocks && r == spec.result &&
              client.log == old(client.log) + spec.calls
    {
      ghost var blocks0 := client.blocks;
      ghost var edited := EditBlocks(blocks0, content.blocks);
      var written := UpdateProperties(pageId, content.properties);
      if written.Failure? {
        return written;
      }
      ghost var log0, logMid := old(client.log), client.log;
      ghost var propCalls := PropertyCalls(pageId, content.properties);
      var error: Option<string> := None;
      if content.blocks != [] {
        error := EditAllBlocks(content.blocks);
      } else {
        assert edited == Edited(blocks0, [], None);
        assert client.log == logMid + [];
      }
      assert client.blocks == edited.blocks && error == edited.error;
      assert client.log == logMid + edited.calls;
      AppendAssoc(log0, propCalls, edited.calls);
      r := if error.Some? then Failure(error.value) else Success(());
    }

    /** `update_translations`: the page is retrieved and checked before the
      single properties update, which writes exactly the two translation
      properties; blocks are never touched. */
    method UpdateTranslations(pageId: string, translations: map<string, string>) returns (r: Result<Page, string>)
      modifies client`pages, client`log
      ensures WriteTranslations(old(client.pages), pageId, translations) ==
                (if r.Success? then Success(client.pages) else Failure(r.error))
      ensures r.Success? ==> pageId in client.pages && r.value == client.pages[pageId]
      ensures r.Failure? ==> client.pages == old(client.pages)
      ensures client.blocks == old(client.blocks) && client.children == old(client.children)
      ensures client.log == old(client.log) + [RetrievePage(pageId)] +
                            (if r.Success? then [UpdatePage(pageId, TranslationProperties(translations["chinese"], translations["english"]))]
                             else [])
    {
      var page := client.Retrieve(pageId);
      if page.Failure? {
        return Failure(RetrievalPrefix + page.error);
      }
      if page.value.archived {
        return Failure(RetrievalPrefix + ArchivedMessage(pageId));
      }
      if "chinese" !in translations {
        return Failure(ErrorText(KeyError("chinese")));
      }
      if "english" !in translations {
        return Failure(ErrorText(KeyError("english")));
      }
      var properties := TranslationProperties(translations["chinese"], translations["english"]);
      r := client.Update(pageId, properties);
    }
  }
}
