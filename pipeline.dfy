/** The webhook wired to the model's own translator and page store, as the
    module-level clients of app.py wire it to the real ones: `translate`
    answers with the translator's outcome for a given reply status and text,
    and `update` writes the translations into a page store. */
module Pipeline {
  import opened Wrappers
  import opened JsonValues
  import opened Translator
  import opened NotionHandler
  import opened App

  /** The translator, once its chat-completion request has been answered
      with `status` and `text` (the word only shapes the request). */
  function TranslateWith(status: nat, text: string): Json -> Result<Translations, string> {
    _ => Translate(status, text)
  }

  /** Stand-in for the SDK's complaint about a page id that is not a
      string. */
  function BadPageId(id: Json): string {
    RetrievalPrefix + "Invalid page ID of type " + TypeName(id)
  }

  /** `update_translations` against the page store `pages`. */
  function UpdateOn(pages: map<string, Page>): (Json, Translations) -> Result<(), string> {
    (id: Json, t: Translations) =>
      if !id.JString? then Failure(BadPageId(id))
      else
        var written := WriteTranslations(pages, id.s, t);
        if written.Success? then Success(()) else Failure(written.error)
  }

  /** End to end: a reply in the requested format, for a page that exists and
      is not archived, gives a 200 that echoes the word and the three values,
      after exactly one translation and one update, the latter with the three
      values (of which `WriteTranslations` stores the first two). */
  lemma EndToEnd(req: Request, pageId: string, pages: map<string, Page>,
                 chinese: string, english: string, phonetic: string)
    requires Extractable(req) && PageIdOf(req) == JString(pageId)
    requires pageId in pages && !pages[pageId].archived
    requires Plain(chinese, Chinese) && Plain(english, English) && Plain(phonetic, Phonetic)
    requires chinese != "" && english != ""
    ensures var t := map["chinese" := chinese, "english" := english, "phonetic" := phonetic];
            HandleWebhook(req, TranslateWith(200, Format(chinese, english, phonetic)), UpdateOn(pages)) ==
              Handled(Response(200, SuccessBody(WordOf(req), t)),
                      [TranslateCall(WordOf(req)), UpdateCall(JString(pageId), t)])
  {
    var t := map["chinese" := chinese, "english" := english, "phonetic" := phonetic];
    var translate := TranslateWith(200, Format(chinese, english, phonetic));
    FormattedReply(WordOf(req), chinese, english, phonetic);
    UpdateWritable(pages, pageId, t);
    AfterExtraction(req, translate, UpdateOn(pages));
  }

  lemma FormattedReply(word: Json, chinese: string, english: string, phonetic: string)
    requires Plain(chinese, Chinese) && Plain(english, English) && Plain(phonetic, Phonetic)
    requires chinese != "" && english != ""
    ensures var t := map["chinese" := chinese, "english" := english, "phonetic" := phonetic];
            TranslateWith(200, Format(chinese, english, phonetic))(word) == Success(t) && Validated(t)
  {
    FormatRoundTrip(chinese, english, phonetic);
  }

  lemma UpdateWritable(pages: map<string, Page>, pageId: string, t: Translations)
    requires pageId in pages && !pages[pageId].archived && Validated(t)
    ensures UpdateOn(pages)(JString(pageId), t) == Success(())
  {
    assert WriteTranslations(pages, pageId, t).Success?;
  }

  /** A non-200 reply from the translation service ends in "Translation
      failed" carrying the status, and the page store is never written. */
  lemma StatusFailure(req: Request, pages: map<string, Page>, status: nat, text: string)
    requires Extractable(req) && status != 200
    ensures HandleWebhook(req, TranslateWith(status, text), UpdateOn(pages)) ==
              Handled(Response(500, ErrorBody(TranslationFailed, StatusError(status))), [TranslateCall(WordOf(req))])
  {
    AfterExtraction(req, TranslateWith(status, text), UpdateOn(pages));
  }

  /** An archived page turns a good translation into "Failed to update Notion
      page" with the retrieval prefix, after both calls. */
  lemma ArchivedPage(req: Request, pageId: string, pages: map<string, Page>, status: nat, text: string)
    requires Extractable(req) && PageIdOf(req) == JString(pageId)
    requires pageId in pages && pages[pageId].archived
    requires Translate(status, text).Success? && Validated(Translate(status, text).value)
    ensures var r := HandleWebhook(req, TranslateWith(status, text), UpdateOn(pages));
            r.response == Response(500, ErrorBody(UpdateFailed, RetrievalPrefix + ArchivedMessage(pageId))) &&
            |r.calls| == 2
  {
    AfterExtraction(req, TranslateWith(status, text), UpdateOn(pages));
  }
}
