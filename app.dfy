/** The web endpoints (app.py). The HTTP plumbing is outside the model: a
    request arrives as its method and the values the handler reads from it,
    and a reply is a status code and a JSON body. The two downstream
    clients are parameters (`translate` for `translate_word`, `update` for
    `update_translations`), each answering with a value or the text of the
    exception it raised; the handler reports the calls it made, in order. */
module App {
  import opened Wrappers
  import opened JsonValues
  import Translator

  type Translations = Translator.Translations

  /** `GET /webhook` with its `challenge` query argument, if any, or
      `POST /webhook` with its body as `request.json` decodes it (a body that
      cannot be decoded makes `request.json` raise; the text is that
      exception's). */
  datatype Request =
    | Get(challenge: Option<string>)
    | Post(body: Result<Json, string>)

  datatype Response = Response(status: nat, body: Json)

  /** A call into one of the two clients. */
  datatype Call =
    | TranslateCall(word: Json)
    | UpdateCall(pageId: Json, translations: Translations)

  /** The reply, and the client calls made on the way to it. */
  datatype Handled = Handled(response: Response, calls: seq<Call>)

  function ErrorBody(error: string, details: string): Json {
    JObject(map["error" := JString(error), "details" := JString(details)])
  }

  const MissingData := "Invalid payload structure: Missing data field"
  const InvalidPayload := "Invalid payload structure"
  const ExtractionPrefix := "Could not extract word or page ID: "
  const TranslationFailed := "Translation failed"
  const MissingFields := "Translation response missing required fields"
  const UpdateFailed := "Failed to update Notion page"
  const InternalError := "Internal server error"

  /** The `KeyError` raised by hand when the title is not a non-empty list. */
  const TitleError := KeyError("Invalid or missing title array")

  /** `GET /`: the fixed service description. */
  function HealthCheck(): (r: Response)
    ensures r.status == 200 && r.body.JObject?
    ensures r.body.fields.Keys == {"status", "service", "endpoints"}
    ensures r.body.fields["status"] == JString("healthy")
    ensures r.body.fields["service"] == JString("notion-translator")
    ensures r.body.fields["endpoints"].JArray? && |r.body.fields["endpoints"].items| == 2
    ensures var root, hook := r.body.fields["endpoints"].items[0], r.body.fields["endpoints"].items[1];
            && root.JObject? && "path" in root.fields && root.fields["path"] == JString("/")
            && "methods" in root.fields && root.fields["methods"] == JArray([JString("GET")])
            && hook.JObject? && "path" in hook.fields && hook.fields["path"] == JString("/webhook")
            && "methods" in hook.fields && hook.fields["methods"] == JArray([JString("GET"), JString("POST")])
  {
    Response(200, JObject(map[
      "status" := JString("healthy"),
      "service" := JString("notion-translator"),
      "endpoints" := JArray([
        JObject(map["path" := JString("/"), "methods" := JArray([JString("GET")]),
                    "description" := JString("Health check")]),
        JObject(map["path" := JString("/webhook"), "methods" := JArray([JString("GET"), JString("POST")]),
                    "description" := JString("Notion webhook endpoint")])])]))
  }

  /** The lookups of the extraction block, applied to `payload['data']`:
      `properties`, `Word` and `title` are read with `get` and a default,
      the title must be a non-empty list, and the rest are subscripts. */
  function ExtractWordAndId(data: Json): (r: Result<(Json, Json), PyError>)
    ensures !data.JObject? ==> r == Failure(AttributeError(TypeName(data)))
    ensures r.Success? ==> data.JObject? && "id" in data.fields && r.value.1 == data.fields["id"]
    ensures r.Failure? && r.error.TypeError? ==> data.JObject?
  {
    var properties :- DictGet(data, "properties", JObject(map[]));
    var wordProperty :- DictGet(properties, "Word", JObject(map[]));
    var title :- DictGet(wordProperty, "title", JArray([]));
    if !Truthy(title) || !title.JArray? then Failure(TitleError)
    else
      var text :- Subscript(title.items[0], "text");
      var word :- Subscript(text, "content");
      var pageId :- Subscript(data, "id");
      Success((word, pageId))
  }

  /** Where the word and the page id sit in `data`. */
  const WordPath: seq<Step> := [Key("properties"), Key("Word"), Key("title"), Index(0), Key("text"), Key("content")]
  const IdPath: seq<Step> := [Key("id")]

  /** The translations the handler accepts: non-empty Chinese and English. */
  predicate Validated(t: Translations) {
    "chinese" in t && t["chinese"] != "" && "english" in t && t["english"] != ""
  }

  /** The body of a successful reply: the word and the translations as
      returned by the translator. */
  function SuccessBody(word: Json, t: Translations): Json {
    JObject(map["status" := JString("success"), "word" := word,
                "translations" := JObject(map k | k in t :: JString(t[k]))])
  }

  /** `handle_webhook`. */
  function HandleWebhook(req: Request, translate: Json -> Result<Translations, string>,
                         update: (Json, Translations) -> Result<(), string>): (r: Handled)
    ensures r.response.status == 200 || r.response.status == 400 || r.response.status == 500
    ensures r.response.status == 400 ==> r.calls == []
    ensures r.response.status == 200 && req.Post? ==> |r.calls| == 2
    ensures req.Get? ==> r.response.status == 200 && r.calls == []
  {
    match req
    case Get(challenge) =>
      if challenge.Some? && challenge.value != "" then
        Handled(Response(200, JObject(map["challenge" := JString(challenge.value)])), [])
      else
        Handled(Response(200, JObject(map["status" := JString("ok")])), [])
    case Post(Failure(e)) => Handled(Response(500, ErrorBody(InternalError, e)), [])
    case Post(Success(payload)) =>
      match DictGet(payload, "data", JNull)
      case Failure(e) => Handled(Response(500, ErrorBody(InternalError, ErrorText(e))), [])
      case Success(data) =>
        if !Truthy(data) then
          Handled(Response(400, JObject(map["error" := JString(MissingData)])), [])
        else
          match ExtractWordAndId(data)
          case Failure(e) =>
            if e.AttributeError? then Handled(Response(500, ErrorBody(InternalError, ErrorText(e))), [])
            else Handled(Response(400, ErrorBody(InvalidPayload, ExtractionPrefix + ErrorText(e))), [])
          case Success((word, pageId)) =>
            var translateCalls := [TranslateCall(word)];
            match translate(word)
            case Failure(e) => Handled(Response(500, ErrorBody(TranslationFailed, e)), translateCalls)
            case Success(t) =>
              if !Validated(t) then Handled(Response(500, ErrorBody(TranslationFailed, MissingFields)), translateCalls)
              else
                var calls := translateCalls + [UpdateCall(pageId, t)];
                match update(pageId, t)
                case Failure(e) => Handled(Response(500, ErrorBody(UpdateFailed, e)), calls)
                case Success(_) => Handled(Response(200, SuccessBody(word, t)), calls)
  }

  // ---------------------------------------------------------------------
  // The extraction against the plain paths

  /** Every lookup succeeds exactly when both paths lead somewhere, and then
      the word and the page id are what the paths lead to. */
  lemma ExtractionFollowsPaths(data: Json)
    ensures ExtractWordAndId(data).Success? <==>
              Lookup(data, WordPath).Some? && Lookup(data, IdPath).Some?
    ensures ExtractWordAndId(data).Success? ==>
              ExtractWordAndId(data).value == (Lookup(data, WordPath).value, Lookup(data, IdPath).value)
  {
    if Lookup(data, WordPath).Some? && Lookup(data, IdPath).Some? {
      ExtractionFromPaths(data);
    }
    if ExtractWordAndId(data).Success? {
      PathsFromExtraction(data);
    }
  }

  /** The word path step by step: each tail after dropping its first step. */
  lemma WordPathTails()
    ensures WordPath[1..] == [Key("Word"), Key("title"), Index(0), Key("text"), Key("content")]
    ensures WordPath[1..][1..] == [Key("title"), Index(0), Key("text"), Key("content")]
    ensures WordPath[1..][1..][1..] == [Index(0), Key("text"), Key("content")]
    ensures WordPath[1..][1..][1..][1..] == [Key("text"), Key("content")]
    ensures WordPath[1..][1..][1..][1..][1..] == [Key("content")]
    ensures WordPath[1..][1..][1..][1..][1..][1..] == [] && IdPath[1..] == []
  {
  }

  /** The "if" half of `ExtractionFollowsPaths`. */
  lemma ExtractionFromPaths(data: Json)
    requires Lookup(data, WordPath).Some? && Lookup(data, IdPath).Some?
    ensures ExtractWordAndId(data) == Success((Lookup(data, WordPath).value, Lookup(data, IdPath).value))
  {
    WordPathTails();
  }

  /** The "only if" half of `ExtractionFollowsPaths`. */
  lemma PathsFromExtraction(data: Json)
    requires ExtractWordAndId(data).Success?
    ensures Lookup(data, WordPath).Some? && Lookup(data, IdPath).Some?
    ensures ExtractWordAndId(data).value == (Lookup(data, WordPath).value, Lookup(data, IdPath).value)
  {
    WordPathTails();
  }

  /** Some value on the way to the title (`data`, its `properties` or their
      `Word`) is present but is not a dict. */
  predicate NotDictOnWay(data: Json) {
    exists n :: 0 <= n < 3 && Lookup(data, WordPath[..n]).Some? && !Lookup(data, WordPath[..n]).value.JObject?
  }

  /** The extraction raises `AttributeError`, which the handler does not
      catch as a bad payload, exactly when a value on the way to the title is
      present but is not a dict; a missing one is replaced by a default. */
  lemma ExtractionAttributeError(data: Json)
    ensures (ExtractWordAndId(data).Failure? && ExtractWordAndId(data).error.AttributeError?) <==>
              NotDictOnWay(data)
  {
    var w0, w1, w2 := WordPath[..0], WordPath[..1], WordPath[..2];
    assert w0 == [] && w1 == [Key("properties")] && w2 == [Key("properties"), Key("Word")];
    assert w1[1..] == [] && w2[1..] == [Key("Word")] && w2[1..][1..] == [];
    if !data.JObject? {
      assert Lookup(data, w0) == Some(data);
    } else if "properties" in data.fields && !data.fields["properties"].JObject? {
      assert Lookup(data, w1) == Some(data.fields["properties"]);
    } else if "properties" in data.fields && "Word" in data.fields["properties"].fields
              && !data.fields["properties"].fields["Word"].JObject? {
      var properties := data.fields["properties"];
      assert Lookup(properties, w2[1..]) == Some(properties.fields["Word"]);
      assert Lookup(data, w2) == Some(properties.fields["Word"]);
    } else {
      forall n | 0 <= n < 3 && Lookup(data, WordPath[..n]).Some?
        ensures Lookup(data, WordPath[..n]).value.JObject?
      {
        if n == 2 {
          var properties := data.fields["properties"];
          assert Lookup(data, w2) == Lookup(properties, w2[1..]);
        }
      }
    }
  }

  /** Which exception a failed lookup raises once `data`, its `properties`
      and their `Word` are dicts (or missing, and so defaulted): the
      hand-raised `KeyError` for a title that is not a non-empty list, then
      the first subscript that fails, in the order of app.py's lookups. */
  lemma ExtractionErrors(data: Json, properties: Json, wordProperty: Json, title: Json)
    requires DictGet(data, "properties", JObject(map[])) == Success(properties) && properties.JObject?
    requires DictGet(properties, "Word", JObject(map[])) == Success(wordProperty) && wordProperty.JObject?
    requires DictGet(wordProperty, "title", JArray([])) == Success(title)
    ensures !(title.JArray? && title.items != []) ==> ExtractWordAndId(data) == Failure(TitleError)
    ensures title.JArray? && title.items != [] ==>
              var first := title.items[0];
              && (!first.JObject? ==> ExtractWordAndId(data) == Failure(TypeError(TypeName(first))))
              && (first.JObject? && "text" !in first.fields ==> ExtractWordAndId(data) == Failure(KeyError("text")))
              && (first.JObject? && "text" in first.fields ==>
                    var text := first.fields["text"];
                    && (!text.JObject? ==> ExtractWordAndId(data) == Failure(TypeError(TypeName(text))))
                    && (text.JObject? && "content" !in text.fields ==> ExtractWordAndId(data) == Failure(KeyError("content")))
                    && (text.JObject? && "content" in text.fields && "id" !in data.fields ==>
                          ExtractWordAndId(data) == Failure(KeyError("id"))))
  {
  }

  // ---------------------------------------------------------------------
  // The webhook's replies

  /** A POST whose body decoded to a dict, so that `payload.get` works. */
  predicate DictPayload(req: Request) {
    req.Post? && req.body.Success? && req.body.value.JObject?
  }

  /** `payload.get('data')` */
  function DataOf(req: Request): Json
    requires DictPayload(req)
  {
    var fields := req.body.value.fields;
    if "data" in fields then fields["data"] else JNull
  }

  /** Both the word and the page id are where the paths say. */
  predicate Extractable(req: Request) {
    DictPayload(req) && Lookup(DataOf(req), WordPath).Some? && Lookup(DataOf(req), IdPath).Some?
  }

  function WordOf(req: Request): Json
    requires Extractable(req)
  {
    Lookup(DataOf(req), WordPath).value
  }

  function PageIdOf(req: Request): Json
    requires Extractable(req)
  {
    Lookup(DataOf(req), IdPath).value
  }

  /** URL verification: a non-empty challenge is echoed, otherwise the reply
      is a plain "ok"; no client is called. */
  lemma GetReply(challenge: Option<string>, translate: Json -> Result<Translations, string>,
                 update: (Json, Translations) -> Result<(), string>)
    ensures var r := HandleWebhook(Get(challenge), translate, update);
            r.calls == [] && r.response.status == 200 &&
            r.response.body == if challenge.Some? && challenge.value != "" then JObject(map["challenge" := JString(challenge.value)])
                               else JObject(map["status" := JString("ok")])
  {
  }

  /** The clients are called in order, each at most once: the translator
      only once the word and the page id have been found, with that word;
      the update only after the translator's answer passed the check, with
      that page id and exactly those translations. */
  lemma CallOrder(req: Request, translate: Json -> Result<Translations, string>,
                  update: (Json, Translations) -> Result<(), string>)
    ensures var r := HandleWebhook(req, translate, update);
            && |r.calls| <= 2
            && (r.calls != [] ==> Extractable(req) && r.calls[0] == TranslateCall(WordOf(req)))
            && (|r.calls| == 2 ==>
                  var t := translate(WordOf(req));
                  t.Success? && Validated(t.value) && r.calls[1] == UpdateCall(PageIdOf(req), t.value))
  {
    if DictPayload(req) {
      ExtractionFollowsPaths(DataOf(req));
    }
  }

  /** 400: the payload is a dict, and either its `data` is missing or falsy,
      or the word or the page id cannot be found although every value on the
      way to the title is a dict (or missing). */
  lemma BadRequest(req: Request, translate: Json -> Result<Translations, string>,
                   update: (Json, Translations) -> Result<(), string>)
    ensures var r := HandleWebhook(req, translate, update);
            r.response.status == 400 <==>
              DictPayload(req) &&
              (!Truthy(DataOf(req)) || (!NotDictOnWay(DataOf(req)) && !Extractable(req)))
    ensures var r := HandleWebhook(req, translate, update);
            DictPayload(req) && !Truthy(DataOf(req)) ==>
              r.response == Response(400, JObject(map["error" := JString(MissingData)]))
    ensures var r := HandleWebhook(req, translate, update);
            r.response.status == 400 && Truthy(DataOf(req)) ==>
              r.response.body.fields["error"] == JString(InvalidPayload) &&
              r.response.body.fields["details"].s[..|ExtractionPrefix|] == ExtractionPrefix
  {
    if DictPayload(req) {
      ExtractionFollowsPaths(DataOf(req));
      ExtractionAttributeError(DataOf(req));
    }
  }

  /** "Internal server error" comes, before any client call, exactly from a
      body that is not JSON, a payload that is not a dict, or a truthy `data`
      with a value on the way to the title that is not a dict. */
  lemma InternalServerError(req: Request, translate: Json -> Result<Translations, string>,
                            update: (Json, Translations) -> Result<(), string>)
    ensures var r := HandleWebhook(req, translate, update);
            (r.response.status == 500 && r.calls == []) <==>
              req.Post? &&
              (req.body.Failure? || !req.body.value.JObject? ||
               (Truthy(DataOf(req)) && NotDictOnWay(DataOf(req))))
    ensures var r := HandleWebhook(req, translate, update);
            r.response.status == 500 && r.calls == [] ==> r.response.body.fields["error"] == JString(InternalError)
  {
    if DictPayload(req) {
      ExtractionFollowsPaths(DataOf(req));
      ExtractionAttributeError(DataOf(req));
    }
  }

  /** Once the word and page id are found: the translator's failure or an
      answer without both Chinese and English ends in "Translation failed"
      with no update; otherwise the update decides between "Failed to update
      Notion page" and success, which echoes the word and the translations. */
  lemma AfterExtraction(req: Request, translate: Json -> Result<Translations, string>,
                        update: (Json, Translations) -> Result<(), string>)
    requires Extractable(req)
    ensures var r := HandleWebhook(req, translate, update);
            var t := translate(WordOf(req));
            && (t.Failure? ==>
                  r == Handled(Response(500, ErrorBody(TranslationFailed, t.error)), [TranslateCall(WordOf(req))]))
            && (t.Success? && !Validated(t.value) ==>
                  r == Handled(Response(500, ErrorBody(TranslationFailed, MissingFields)), [TranslateCall(WordOf(req))]))
            && (t.Success? && Validated(t.value) ==>
                  var u := update(PageIdOf(req), t.value);
                  && r.calls == [TranslateCall(WordOf(req)), UpdateCall(PageIdOf(req), t.value)]
                  && r.response == if u.Failure? then Response(500, ErrorBody(UpdateFailed, u.error))
                                   else Response(200, SuccessBody(WordOf(req), t.value)))
  {
    ExtractionFollowsPaths(DataOf(req));
  }

  /** A POST succeeds exactly when the word and the page id are found, the
      translator answers with both Chinese and English, and the update goes
      through. */
  lemma PostSucceeds(req: Request, translate: Json -> Result<Translations, string>,
                     update: (Json, Translations) -> Result<(), string>)
    requires req.Post?
    ensures HandleWebhook(req, translate, update).response.status == 200 <==>
              Extractable(req) &&
              translate(WordOf(req)).Success? && Validated(translate(WordOf(req)).value) &&
              update(PageIdOf(req), translate(WordOf(req)).value).Success?
  {
    if DictPayload(req) {
      ExtractionFollowsPaths(DataOf(req));
    }
  }

  /** The success body hands back the translations unchanged, one string
      per key. */
  lemma SuccessBodyTranslations(word: Json, t: Translations)
    ensures var body := SuccessBody(word, t).fields;
            body["word"] == word && body["translations"].JObject? &&
            body["translations"].fields.Keys == t.Keys &&
            forall k :: k in t ==> body["translations"].fields[k] == JString(t[k])
  {
  }
}
