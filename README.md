# NotionTranslator, modelled in Dafny

NotionTranslator is a small webhook service. A workspace sends a webhook
when a word is added to a vocabulary database. The service:

- pulls the word out of the payload;
- asks a chat-completion service for a Chinese translation, a short
  English explanation and a phonetic transcription;
- parses the reply line by line;
- writes the Chinese and English texts back into two properties of the
  page.

A start-up step checks that the two required secrets are present in the
environment.

This project models that core and proves properties of it.

| file | module | models |
|---|---|---|
| `wrappers.dfy` | `Wrappers` | `Option`, and `Result` for "returns a value or raises" |
| `strings.dfy` | `Strings` | the Python `str` operations the parser relies on: `isspace`, `strip`, `startswith`, `replace(p, '')`, `split('\n')`, `str(int)` |
| `json.dfy` | `JsonValues` | decoded JSON values; Python truthiness; `dict.get` with a default; subscripting by a string key, with `KeyError`, `TypeError` and `AttributeError` as values; a plain path lookup |
| `translator.py` → `translator.dfy` | `Translator` | `translate_word` once the HTTP reply is in: the status check and the parse loop |
| `config.py` → `config.dfy` | `Config` | `load_config` over an environment map |
| `notion_handler.py` → `notion_handler.dfy` | `NotionHandler` | `get_page_content`, `update_page_content` and `update_translations` as methods of a `Handler` class over an in-memory client `NotionClient`. The client has pages (archived flag and properties), blocks, the child-block ids of each page, and a ghost log of every SDK call. Each operation is also a function of the store that specifies the method. |
| `app.py` → `app.dfy` | `App` | `health_check`, and `handle_webhook` as a function of the request and of the two client calls. It returns the reply and the calls made, in order. |
| `pipeline.dfy` | `Pipeline` | `handle_webhook` wired to the model's own translator and page store, as app.py:13-15 wires it to the real ones |

Things the model treats as inputs:

- The translation service's reply is given as its HTTP status and the text
  of its first choice.
- The translator and the page update are parameters of `HandleWebhook`.
  Each one answers with a value or with the text of the exception it
  raised.
- The environment is a map from name to value.

## Model

| member | source | states |
|---|---|---|
| Strings.Strip | translator.py:40-48 | the result has no white space at either end and is no longer than the input |
| Strings.StripTrimmed | translator.py:44-48 | `strip` leaves a string with no surrounding white space unchanged |
| Strings.StripIdempotent | translator.py:40 | `strip` is idempotent |
| Strings.StripLeadingSpace | translator.py:44-48 | a leading white-space character makes no difference to `strip` |
| Strings.StripTrailingSpace | translator.py:40 | a trailing white-space character makes no difference to `strip` |
| Strings.LStrip | translator.py:40 | the result is a suffix of the input that does not start with white space, and only white space was removed |
| Strings.RStrip | translator.py:40 | the result is a prefix of the input that does not end with white space, and only white space was removed |
| Strings.Split | translator.py:40 | at least one part, and no part contains the separator |
| Strings.JoinSplit | translator.py:40 | joining the parts of a split with the separator gives back the string |
| Strings.SplitJoin | translator.py:40 | splitting a join of separator-free parts gives back the parts |
| Strings.SplitAfterPart | translator.py:40 | a separator-free part followed by the separator splits off as the first part |
| Strings.SplitNoSeparator | translator.py:40 | a string without the separator splits into itself |
| Strings.RemoveAll | translator.py:44-48 | `replace(p, '')` never lengthens the string. With `RemoveAllMatch` and `RemoveAllKeepsHead` (and an empty pattern or a string shorter than it left unchanged) the result is fixed on every input. |
| Strings.RemoveAllAbsent | translator.py:44 | without an occurrence of the pattern, `replace` changes nothing |
| Strings.RemoveAllMatch | translator.py:44-48 | an occurrence at the scan position is dropped, and the scan resumes right after it |
| Strings.RemoveAllKeepsHead | translator.py:44-48 | where no occurrence of the pattern starts, the first character is kept and the scan moves on by one |
| Strings.RemoveAllSinglePass | translator.py:44 | an illustration of the single left-to-right pass: removing "ab" from "aabb" leaves "ab" |
| Strings.NatToString | translator.py:56 | `str(n)` is a non-empty string of decimal digits |
| Strings.DecimalRoundTrip | translator.py:56 | the digits of `str(n)` read back as `n` |
| JsonValues.DictGet | app.py:45 | `get` fails exactly on a non-dict, with `AttributeError` naming its type; otherwise it gives the value at the key, or the default when the key is absent |
| JsonValues.Subscript | app.py:58-59 | `x[k]` succeeds exactly on a dict holding `k`; otherwise `KeyError(k)` on a dict and `TypeError` on anything else |
| Translator.MatchLabel | translator.py:43-48 | the label found is one of the three, and the line starts with it |
| Translator.LabelValue | translator.py:44-48 | the value a labelled line yields has no surrounding white space and is no longer than the line; `LabelledLine` and `FormattedValue` say what it is |
| Translator.ParseLine | translator.py:43-48 | one pass of the loop adds no key outside chinese/english/phonetic |
| Translator.ParseLines | translator.py:42-48 | the whole loop adds no key outside chinese/english/phonetic |
| Translator.Lines | translator.py:40 | the reply, stripped and split on newlines: at least one line, none holding a newline, and joined back with newlines they give the stripped reply |
| Translator.Parse | translator.py:40-48 | the dict built from a reply has keys among chinese/english/phonetic; `ParseKeys`, `ParseLastWins` and `FormatRoundTrip` give its contents |
| Translator.Translate | translator.py:35-56 | fails exactly when the status is not 200; on 200 gives the parsed dict, whose keys are among the three label keys; on failure the message starts with "Translation API returned status code: " and its remaining digits read back as the status |
| Translator.ParseResponse | translator.py:40-48 | the in-place loop over the stripped, split reply builds exactly `Parse(text)`, with keys among the three |
| Translator.TranslateWord | translator.py:35-56 | agrees with `Translate`: a 200 gives a dict, any other status raises the status error |
| Translator.PrefixesExclusive | translator.py:43-47 | a line starts with at most one of the three labels |
| Translator.MatchLabelUnique | translator.py:43-47 | a line starting with a label is recognised by that label |
| Translator.LabelledLine | translator.py:43-48 | a line starting with a label sets that label's key to the line with the label removed, then stripped, and changes nothing else |
| Translator.LabelledStep | translator.py:42-48 | the loop's step over such a line |
| Translator.ParseLineEffect | translator.py:43-48 | what one line does to one label's entry: sets it when the line starts with the label, otherwise keeps it as it was |
| Translator.OtherLine | translator.py:43-48 | a line without the label keeps that label's entry |
| Translator.KeysDistinct | translator.py:44-48 | the three labels store under three different keys |
| Translator.KeyPresent | translator.py:42-48 | a label's key is in the result exactly when it was there before or some line starts with the label |
| Translator.Unmatched | translator.py:42-48 | lines without a label leave its entry as it was |
| Translator.LastWins | translator.py:42-48 | the last line that carries a label decides its value |
| Translator.ParseKeys | translator.py:41-53 | the keys are among chinese/english/phonetic, and a label's key is present exactly when some line starts with that label; a missing label is no error |
| Translator.ParseLastWins | translator.py:40-48 | in the reply, the last line with a label gives the value: that line with every copy of the label removed, then stripped |
| Translator.IndentedLabelIgnored | translator.py:40-47 | lines are matched unstripped, so a line starting with white space sets nothing |
| Translator.FormattedValue | translator.py:20-22 | "Label: v" yields `v` back for a one-line, trimmed value without its own label |
| Translator.FormattedLineMatches | translator.py:20-22 | "Label: v" starts with its label |
| Translator.ParseThree | translator.py:42-48 | three lines labelled Chinese, English, Phonetic parse to the three values |
| Translator.ThirdLineValue | translator.py:22 | the stripped last line still yields the phonetic value, even an empty one |
| Translator.StripFormat | translator.py:18-22 | stripping the requested format only drops the trailing space of an empty phonetic value |
| Translator.FormatRoundTrip | translator.py:18-22 | a reply in exactly the requested format parses back to the three values it was built from |
| Config.LoadConfig | config.py:4-20 | succeeds exactly when neither required variable is missing or empty; then the result holds exactly the two variables, each with its environment value; otherwise the error names the first missing one in list order |
| Config.FirstMissingReported | config.py:8-17 | with NOTION_TOKEN missing, the error names NOTION_TOKEN whatever else is missing |
| NotionHandler.PagesUpdate | notion_handler.py:96-99 | the page update fails exactly for an unknown page; otherwise it changes only that page, keeps its archived flag, overwrites the given properties and keeps the others |
| NotionHandler.BlocksUpdate | notion_handler.py:45-48 | the block update fails exactly for an id that is not a known block. Otherwise the named block becomes its old fields overwritten by the given ones, and the set of blocks and every other block are kept. |
| NotionHandler.ChildBlocks | notion_handler.py:18-22 | the listed blocks are the page's children in order, each with its id |
| NotionHandler.TranslationProperties | notion_handler.py:78-93 | exactly the keys "Translation" and "Translation En", each one rich-text item reading back the Chinese and the English text |
| NotionHandler.WriteTranslations | notion_handler.py:56-108 | succeeds exactly for an existing, unarchived page and translations holding both chinese and english. A missing or archived page fails with "Page retrieval failed: " and the reason. A missing chinese, then english, entry fails with that key's `KeyError` text. On success only that page changes: the two properties are written and every other property is kept. |
| NotionHandler.WriteTranslationsIdempotent | notion_handler.py:78-99 | writing the same translations twice leaves the pages as writing them once |
| NotionHandler.WriteTranslationsIgnoresOtherKeys | notion_handler.py:78-93 | entries other than chinese and english (phonetic included) make no difference |
| NotionHandler.EditBlock | notion_handler.py:44-48 | one pass of the block loop keeps the set of blocks |
| NotionHandler.EditBlockCalls | notion_handler.py:43-48 | a block costs at most one SDK call: an update of the block its own truthy `id` names, with its `content`. A failing block changes nothing. A dict block without a truthy `id` is skipped without error. A dict block with a truthy `id` and a dict `content` without `block_id` makes exactly that update, whose outcome decides the blocks and the error. |
| NotionHandler.EditBlocks | notion_handler.py:43-48 | the block loop keeps the set of blocks |
| NotionHandler.EditBlocksFrame | notion_handler.py:43-48 | a block that no edit names keeps its fields |
| NotionHandler.EditBlocksAppend | notion_handler.py:43-48 | the blocks are edited in list order: two lists edit as one after the other, and an error in the first stops the second |
| NotionHandler.UpdateContent | notion_handler.py:31-54 | `update_page_content` keeps the set of blocks |
| NotionHandler.UpdateContentCases | notion_handler.py:35-48 | empty properties leave the pages alone and an empty block list leaves the blocks alone. With an empty block list the update succeeds unless the properties write fails. Properties for an unknown page fail with "not found" after the one page update, before any block. |
| NotionHandler.WriteProperties | notion_handler.py:35-39 | the properties stage fails exactly when there are properties and the page is unknown, with the not-found error. On success the set of pages and every other page are kept, and each given property is written. |
| NotionHandler.Handler.GetPageContent | notion_handler.py:11-29 | fails exactly for an unknown page, after one retrieve call. Otherwise it returns the page's properties and its child blocks in order, after a retrieve and a list call. A page without children gives no blocks. |
| NotionHandler.Handler.EditOneBlock | notion_handler.py:44-48 | the store, the calls made and the error raised are those of `EditBlock`; child lists keep naming existing blocks |
| NotionHandler.Handler.EditAllBlocks | notion_handler.py:42-48 | the loop's store, calls and error are those of `EditBlocks`; child lists keep naming existing blocks |
| NotionHandler.Handler.UpdateProperties | notion_handler.py:35-39 | the properties stage: no call for empty properties, otherwise one page update |
| NotionHandler.Handler.UpdatePageContent | notion_handler.py:31-54 | the new pages, the new blocks, the outcome and the calls are those of `UpdateContent`; the client's child lists stay valid |
| NotionHandler.Handler.UpdateTranslations | notion_handler.py:56-108 | the new pages and the outcome are those of `WriteTranslations`. A failure leaves the pages unchanged. Blocks and child lists are never touched. The page is always retrieved first, and updated once, with exactly the two translation properties, only on success. |
| App.HealthCheck | app.py:17-28 | a 200 whose body has exactly status "healthy", service "notion-translator" and two endpoints: "/" for GET and "/webhook" for GET and POST |
| App.ExtractionFollowsPaths | app.py:50-59 | the lookups succeed exactly when `data.properties.Word.title[0].text.content` and `data.id` both exist, and then yield those two values |
| App.ExtractionAttributeError | app.py:51-53 | the extraction raises `AttributeError` exactly when `data`, its `properties` or their `Word` is present but is not a dict |
| App.ExtractionErrors | app.py:51-59 | once `data`, `properties` and `Word` are dicts or defaulted: a title that is not a non-empty list raises the hand-made `KeyError`; then a non-dict `title[0]` raises `TypeError` naming its type, a missing `text` `KeyError('text')`, a non-dict `text` `TypeError`, a missing `content` `KeyError('content')`, and a missing `id` `KeyError('id')` |
| App.GetReply | app.py:34-39 | a GET echoes a non-empty challenge, or else answers "ok"; it is a 200 and makes no call |
| App.HandleWebhook | app.py:30-106 | every reply is 200, 400 or 500; a 400 comes before any client call; a GET is a 200 with no call; a POST that gets 200 made exactly two calls. The lemmas below give each reply exactly. |
| App.ExtractWordAndId | app.py:50-59 | a non-dict `data` raises `AttributeError` naming its type; a success returns `data['id']` as the page id; a `TypeError` only arises inside a dict `data`. `ExtractionFollowsPaths` characterises its success and its values, `ExtractionAttributeError` its `AttributeError`, and `ExtractionErrors` the `KeyError` or `TypeError` of each failing lookup. |
| App.CallOrder | app.py:50-96 | at most two calls, in order. The translator is called only once the word and the page id are found, and with that word. The update is called only after a translator answer that has both chinese and english, and with that page id and those translations. |
| App.BadRequest | app.py:45-69 | a 400 comes exactly for a dict payload whose `data` is falsy or missing ("Missing data field"), or whose word or id cannot be found while no value on the way to the title is a non-dict ("Invalid payload structure" with "Could not extract word or page ID: " details) |
| App.InternalServerError | app.py:41-106 | "Internal server error" before any call comes exactly from a body that is not JSON, a payload that is not a dict, or a truthy `data` with a non-dict on the way to the title |
| App.AfterExtraction | app.py:71-102 | once extraction succeeds: a failing translator, or an answer lacking a non-empty chinese or english, gives 500 "Translation failed" with no update. Otherwise a failing update gives 500 "Failed to update Notion page", and a successful one gives 200 with the word and the translations. |
| App.PostSucceeds | app.py:71-102 | a POST gets 200 exactly when extraction, translation with both texts, and the update all succeed |
| App.SuccessBodyTranslations | app.py:98-102 | the success body carries the word and the translations unchanged, key for key |
| Pipeline.EndToEnd | app.py:71-102 | with the real parser and page store: a formatted reply for an existing, unarchived page gives 200 with the three parsed values, after one translation call and one update call |
| Pipeline.FormattedReply | translator.py:35-53 | a 200 reply in the requested format passes the webhook's check on the translations |
| Pipeline.UpdateWritable | notion_handler.py:63-99 | the update succeeds on an existing, unarchived page |
| Pipeline.StatusFailure | app.py:72-84 | a non-200 reply from the translation service gives 500 "Translation failed" with the status message, and the page store is never written |
| Pipeline.ArchivedPage | notion_handler.py:63-75 | an archived page turns a good translation into 500 "Failed to update Notion page" with the retrieval prefix |

## Left out

- Flask routing, `request`, `jsonify` and `app.run`. A request is its
  method plus the challenge argument or the decoded body. A reply is a
  status code and a JSON value.
- The module-level loading of the configuration and the construction of
  the two clients (app.py:12-15). `Pipeline` shows one such wiring.
- The chat-completion HTTP request and the decoding of
  `result['choices'][0]['message']['content']` (translator.py:17-37). The
  reply's status and text are inputs. A request that raises is the
  translator parameter of `App.HandleWebhook` answering with a failure.
- NotionHandler.Handler.GetPageContent: the in-memory `List` returns every
  child of the page, while the real `blocks.children.list` returns only its
  first page of results (at most 100 by default), and the source reads
  `results` without following `next_cursor`. On a page with more children
  the source gets only the first ones; the model does not capture that.
- The workspace SDK. It is replaced by the in-memory `NotionClient`, which
  has no schema validation and no server-side rules beyond "unknown id".
  The exact texts of its errors are stand-ins (`NotFound`, `UnknownBlock`,
  `BadPageId`).
- The texts of built-in exceptions. `KeyError` is exact. `TypeError` and
  `AttributeError` follow CPython 3.11's wording for the cases that arise
  here. The `f(**x)` `TypeError`s (`NotMapping`, `DuplicateBlockId`) are
  stand-ins.
- `update_page_content`'s `translated_content` is a record of properties
  and blocks. An absent key is an empty value, which the source treats the
  same way.
- Logging, the warning for an incomplete translation dict (it changes no
  outcome), and the `e.response` introspection (notion_handler.py:106-107).
- `load_dotenv` and `os.getenv`. The environment is a map.
- Status codes are non-negative integers. Floats in JSON are reals.
- `IndexError` in the title lookup is never raised: the title is checked to
  be a non-empty list first.
