/** The translation client (translator.py). The chat-completion request itself
    is outside the model: its HTTP status and the text of the first choice's
    message are the inputs. What is modelled is the status check and the
    line-by-line parse of the "Label: value" reply. */
module Translator {
  import opened Wrappers
  import opened Strings

  /** The parsed reply: a dict from field name to text. */
  type Translations = map<string, string>

  /** A reply line label and the dict key its value is stored under. */
  datatype Label = Label(prefix: string, key: string)

  const Chinese := Label("Chinese:", "chinese")
  const English := Label("English:", "english")
  const Phonetic := Label("Phonetic:", "phonetic")

  /** The labels in the order the parser tries them. */
  const Labels := [Chinese, English, Phonetic]

  const LabelKeys: set<string> := {"chinese", "english", "phonetic"}

  const StatusErrorPrefix := "Translation API returned status code: "

  /** The message of the exception raised for a non-200 reply. */
  function StatusError(status: nat): string {
    StatusErrorPrefix + NatToString(status)
  }

  /** The value a labelled line yields: the line with every occurrence of the
      label removed, then stripped. */
  function LabelValue(line: string, lab: Label): (r: string)
    ensures Trimmed(r) && |r| <= |line|
  {
    Strip(RemoveAll(line, lab.prefix))
  }

  /** The label a line is recognised by: the first, in the order the parser
      tries them, that the line starts with. */
  function MatchLabel(line: string): (r: Option<Label>)
    ensures r.Some? ==> r.value in Labels && r.value.key in LabelKeys && StartsWith(line, r.value.prefix)
    ensures r.None? ==> forall lab :: lab in Labels ==> !StartsWith(line, lab.prefix)
  {
    if StartsWith(line, Chinese.prefix) then Some(Chinese)
    else if StartsWith(line, English.prefix) then Some(English)
    else if StartsWith(line, Phonetic.prefix) then Some(Phonetic)
    else None
  }

  /** One pass of the loop body: the label the line starts with sets its
      key, overwriting any earlier value; other lines change nothing. */
  function ParseLine(acc: Translations, line: string): (r: Translations)
    ensures r.Keys <= acc.Keys + LabelKeys
  {
    var m := MatchLabel(line);
    if m.None? then acc else acc[m.value.key := LabelValue(line, m.value)]
  }

  /** The loop over all lines, starting from `acc`. */
  function ParseLines(lines: seq<string>, acc: Translations): (r: Translations)
    ensures r.Keys <= acc.Keys + LabelKeys
    decreases |lines|
  {
    if lines == [] then acc else ParseLines(lines[1..], ParseLine(acc, lines[0]))
  }

  /** The reply is stripped as a whole, then split on newlines; the lines
      themselves are not stripped before the labels are matched. */
  function Lines(text: string): (r: seq<string>)
    ensures |r| >= 1 && forall i :: 0 <= i < |r| ==> '\n' !in r[i]
    ensures Join(r, '\n') == Strip(text)
  {
    JoinSplit(Strip(text), '\n');
    Split(Strip(text), '\n')
  }

  /** The dict `translate_word` builds from a reply text. */
  function Parse(text: string): (r: Translations)
    ensures r.Keys <= LabelKeys
  {
    ParseLines(Lines(text), map[])
  }

  /** The outcome of `translate_word` given the reply's status and text:
      a non-200 status raises, a 200 always returns the (possibly partial)
      dict; an incomplete dict is only logged. */
  function Translate(status: nat, text: string): (r: Result<Translations, string>)
    ensures r.Failure? <==> status != 200
    ensures r.Success? ==> r.value == Parse(text) && r.value.Keys <= LabelKeys
    ensures r.Failure? ==> StartsWith(r.error, StatusErrorPrefix)
    ensures r.Failure? ==> var digits := r.error[|StatusErrorPrefix|..];
                           (forall i :: 0 <= i < |digits| ==> IsDigit(digits[i])) && DecimalValue(digits) == status
  {
    if status == 200 then Success(Parse(text))
    else
      DecimalRoundTrip(status);
      assert StatusError(status)[|StatusErrorPrefix|..] == NatToString(status);
      Failure(StatusError(status))
  }

  /** The loop of translate_word: walks the lines, updating the dict in place. */
  method ParseResponse(text: string) returns (translations: Translations)
    ensures translations == Parse(text)
    ensures translations.Keys <= LabelKeys
  {
    var lines := Split(Strip(text), '\n');
    translations := map[];
    for i := 0 to |lines|
      invariant ParseLines(lines[i..], translations) == Parse(text)
    {
      var line := lines[i];
      if StartsWith(line, "Chinese:") {
        translations := translations["chinese" := Strip(RemoveAll(line, "Chinese:"))];
      } else if StartsWith(line, "English:") {
        translations := translations["english" := Strip(RemoveAll(line, "English:"))];
      } else if StartsWith(line, "Phonetic:") {
        translations := translations["phonetic" := Strip(RemoveAll(line, "Phonetic:"))];
      }
      assert lines[i..][1..] == lines[i + 1..];
    }
    assert lines[|lines|..] == [];
  }

  /** `translate_word` once the reply has arrived. */
  method TranslateWord(status: nat, text: string) returns (r: Result<Translations, string>)
    ensures r == Translate(status, text)
    ensures status == 200 ==> r.Success? && r.value.Keys <= LabelKeys
    ensures status != 200 ==> r == Failure(StatusError(status))
  {
    if status == 200 {
      var translations := ParseResponse(text);
      r := Success(translations);
    } else {
      r := Failure(StatusError(status));
    }
  }

  // ---------------------------------------------------------------------
  // Properties of the parse

  /** The three prefixes start with different letters, so a line starts with
      at most one of them. */
  lemma PrefixesExclusive(line: string, a: Label, b: Label)
    requires a in Labels && b in Labels && a != b
    requires StartsWith(line, a.prefix)
    ensures !StartsWith(line, b.prefix)
  {
    assert line[0] == line[..|a.prefix|][0] == a.prefix[0];
  }

  /** A line starting with a label is recognised by that label, and by no
      other. */
  lemma MatchLabelUnique(line: string, lab: Label)
    requires lab in Labels && StartsWith(line, lab.prefix)
    ensures MatchLabel(line) == Some(lab)
  {
    var m := MatchLabel(line).value;
    if m != lab {
      PrefixesExclusive(line, lab, m);
    }
  }

  /** A labelled line sets exactly its label's key. */
  lemma LabelledLine(acc: Translations, line: string, lab: Label)
    requires lab in Labels && StartsWith(line, lab.prefix)
    ensures ParseLine(acc, line) == acc[lab.key := LabelValue(line, lab)]
  {
    MatchLabelUnique(line, lab);
    assert MatchLabel(line) == Some(lab);
  }

  /** What one line does to the entry of one label's key. */
  lemma ParseLineEffect(acc: Translations, line: string, lab: Label)
    requires lab in Labels
    ensures StartsWith(line, lab.prefix) ==>
              lab.key in ParseLine(acc, line) && ParseLine(acc, line)[lab.key] == LabelValue(line, lab)
    ensures !StartsWith(line, lab.prefix) ==>
              (lab.key in ParseLine(acc, line) <==> lab.key in acc) &&
              (lab.key in acc ==> ParseLine(acc, line)[lab.key] == acc[lab.key])
  {
    if StartsWith(line, lab.prefix) {
      LabelledLine(acc, line, lab);
    } else {
      OtherLine(acc, line, lab);
    }
  }

  /** A line without the label leaves that label's entry alone. */
  lemma OtherLine(acc: Translations, line: string, lab: Label)
    requires lab in Labels && !StartsWith(line, lab.prefix)
    ensures lab.key in ParseLine(acc, line) <==> lab.key in acc
    ensures lab.key in acc ==> ParseLine(acc, line)[lab.key] == acc[lab.key]
  {
    var m := MatchLabel(line);
    if m.Some? {
      LabelledLine(acc, line, m.value);
      KeysDistinct(m.value, lab);
    }
  }

  /** The three labels store under three different keys. */
  lemma KeysDistinct(a: Label, b: Label)
    requires a in Labels && b in Labels && a != b
    ensures a.key != b.key
  {
  }

  /** A label's key is in the result exactly when it was there to begin with
      or some line starts with the label. */
  lemma {:induction false} KeyPresent(lines: seq<string>, acc: Translations, lab: Label)
    requires lab in Labels
    ensures lab.key in ParseLines(lines, acc) <==>
              lab.key in acc || exists i :: 0 <= i < |lines| && StartsWith(lines[i], lab.prefix)
    decreases |lines|
  {
    if lines != [] {
      ParseLineEffect(acc, lines[0], lab);
      KeyPresent(lines[1..], ParseLine(acc, lines[0]), lab);
      if exists i :: 0 <= i < |lines| && StartsWith(lines[i], lab.prefix) {
        var i :| 0 <= i < |lines| && StartsWith(lines[i], lab.prefix);
        if i > 0 {
          assert StartsWith(lines[1..][i - 1], lab.prefix);
        }
      }
      forall i | 0 <= i < |lines[1..]| && StartsWith(lines[1..][i], lab.prefix)
        ensures StartsWith(lines[i + 1], lab.prefix)
      {
      }
    }
  }

  /** Lines without the label leave its entry as it was. */
  lemma {:induction false} Unmatched(lines: seq<string>, acc: Translations, lab: Label)
    requires lab in Labels
    requires forall j :: 0 <= j < |lines| ==> !StartsWith(lines[j], lab.prefix)
    ensures lab.key in ParseLines(lines, acc) <==> lab.key in acc
    ensures lab.key in acc ==> ParseLines(lines, acc)[lab.key] == acc[lab.key]
    decreases |lines|
  {
    if lines != [] {
      ParseLineEffect(acc, lines[0], lab);
      Unmatched(lines[1..], ParseLine(acc, lines[0]), lab);
    }
  }

  /** The last line that starts with a label decides its value. */
  lemma {:induction false} LastWins(lines: seq<string>, acc: Translations, lab: Label, i: nat)
    requires lab in Labels
    requires i < |lines| && StartsWith(lines[i], lab.prefix)
    requires forall j :: i < j < |lines| ==> !StartsWith(lines[j], lab.prefix)
    ensures lab.key in ParseLines(lines, acc)
    ensures ParseLines(lines, acc)[lab.key] == LabelValue(lines[i], lab)
    decreases |lines|
  {
    var rest, next := lines[1..], ParseLine(acc, lines[0]);
    assert ParseLines(lines, acc) == ParseLines(rest, next);
    if i == 0 {
      ParseLineEffect(acc, lines[0], lab);
      forall j | 0 <= j < |rest| ensures !StartsWith(rest[j], lab.prefix) {
        assert rest[j] == lines[j + 1];
      }
      Unmatched(rest, next, lab);
    } else {
      forall j | i - 1 < j < |rest| ensures !StartsWith(rest[j], lab.prefix) {
        assert rest[j] == lines[j + 1];
      }
      LastWins(rest, next, lab, i - 1);
    }
  }

  /** Only the three label keys ever appear; a reply without a label line
      simply lacks that key. */
  lemma ParseKeys(text: string, lab: Label)
    requires lab in Labels
    ensures Parse(text).Keys <= LabelKeys
    ensures lab.key in Parse(text) <==>
              exists i :: 0 <= i < |Lines(text)| && StartsWith(Lines(text)[i], lab.prefix)
  {
    KeyPresent(Lines(text), map[], lab);
  }

  /** When several lines carry a label, the last one's value is kept. */
  lemma ParseLastWins(text: string, lab: Label, i: nat)
    requires lab in Labels
    requires i < |Lines(text)| && StartsWith(Lines(text)[i], lab.prefix)
    requires forall j :: i < j < |Lines(text)| ==> !StartsWith(Lines(text)[j], lab.prefix)
    ensures lab.key in Parse(text)
    ensures Parse(text)[lab.key] == Strip(RemoveAll(Lines(text)[i], lab.prefix))
  {
    LastWins(Lines(text), map[], lab, i);
  }

  /** Lines are matched as they are: a label indented by white space is not
      recognised (only the reply as a whole was stripped). */
  lemma IndentedLabelIgnored(acc: Translations, line: string)
    requires line != [] && IsSpace(line[0])
    ensures ParseLine(acc, line) == acc
  {
    forall lab | lab in Labels
      ensures !StartsWith(line, lab.prefix)
    {
      if |lab.prefix| <= |line| {
        assert line[..|lab.prefix|][0] == line[0];
      }
    }
  }

  // ---------------------------------------------------------------------
  // The reply format the prompt asks for, and the round trip

  /** One line of the requested format, "Label: value". */
  function FormatLine(lab: Label, value: string): string {
    lab.prefix + " " + value
  }

  /** The reply the prompt asks for (translator.py, lines 20-22). */
  function Format(chinese: string, english: string, phonetic: string): string {
    FormatLine(Chinese, chinese) + "\n" + FormatLine(English, english) + "\n" + FormatLine(Phonetic, phonetic)
  }

  /** A value that survives the round trip: one line, no surrounding white
      space, and no copy of its own label inside. */
  predicate Plain(value: string, lab: Label)
  {
    '\n' !in value && Trimmed(value) && !IsInfix(lab.prefix, value)
  }

  lemma FormattedValue(lab: Label, value: string)
    requires lab in Labels && Plain(value, lab)
    ensures LabelValue(FormatLine(lab, value), lab) == value
  {
    var line := FormatLine(lab, value);
    assert line[..|lab.prefix|] == lab.prefix;
    assert line[|lab.prefix|..] == [' '] + value;
    var rest := line[|lab.prefix|..];
    assert rest[1..] == value;
    assert !StartsWith(rest, lab.prefix) by {
      assert rest[0] == ' ' && lab.prefix[0] != ' ';
    }
    RemoveAllKeepsHead(rest, lab.prefix);
    RemoveAllAbsent(value, lab.prefix);
    StripLeadingSpace(' ', value);
    StripTrimmed(value);
  }

  lemma FormattedLineMatches(lab: Label, value: string)
    requires lab in Labels
    ensures StartsWith(FormatLine(lab, value), lab.prefix)
  {
    assert FormatLine(lab, value)[..|lab.prefix|] == lab.prefix;
  }

  /** The loop's step over a first line that carries a label. */
  lemma LabelledStep(lines: seq<string>, acc: Translations, lab: Label)
    requires lines != [] && lab in Labels && StartsWith(lines[0], lab.prefix)
    ensures ParseLines(lines, acc) == ParseLines(lines[1..], acc[lab.key := LabelValue(lines[0], lab)])
  {
    LabelledLine(acc, lines[0], lab);
  }

  /** Parsing three lines labelled in the format's order. */
  lemma ParseThree(l1: string, l2: string, l3: string)
    requires StartsWith(l1, Chinese.prefix) && StartsWith(l2, English.prefix) && StartsWith(l3, Phonetic.prefix)
    ensures ParseLines([l1, l2, l3], map[]) ==
              map["chinese" := LabelValue(l1, Chinese), "english" := LabelValue(l2, English),
                  "phonetic" := LabelValue(l3, Phonetic)]
  {
    var m1 := map["chinese" := LabelValue(l1, Chinese)];
    var m2 := m1["english" := LabelValue(l2, English)];
    var m3 := m2["phonetic" := LabelValue(l3, Phonetic)];
    var s1, s2, s3 := [l1, l2, l3], [l2, l3], [l3];
    assert s1[1..] == s2 && s2[1..] == s3 && s3[1..] == [];
    LabelledStep(s1, map[], Chinese);
    LabelledStep(s2, m1, English);
    LabelledStep(s3, m2, Phonetic);
  }

  /** The third line once the reply is stripped: an empty phonetic value
      loses the space after its label. */
  function ThirdLine(phonetic: string): string {
    if phonetic == "" then Phonetic.prefix else FormatLine(Phonetic, phonetic)
  }

  lemma ThirdLineValue(phonetic: string)
    requires Plain(phonetic, Phonetic)
    ensures StartsWith(ThirdLine(phonetic), Phonetic.prefix)
    ensures LabelValue(ThirdLine(phonetic), Phonetic) == phonetic
  {
    if phonetic == "" {
      var line := Phonetic.prefix;
      assert line[..|Phonetic.prefix|] == Phonetic.prefix;
      assert line[|Phonetic.prefix|..] == [];
      assert RemoveAll(line, Phonetic.prefix) == "";
      StripTrimmed("");
    } else {
      FormattedLineMatches(Phonetic, phonetic);
      FormattedValue(Phonetic, phonetic);
    }
  }

  /** Stripping the formatted reply only drops the trailing space of an empty
      phonetic line. */
  lemma StripFormat(chinese: string, english: string, phonetic: string)
    requires Plain(chinese, Chinese) && Plain(english, English) && Plain(phonetic, Phonetic)
    ensures Strip(Format(chinese, english, phonetic)) ==
              Join([FormatLine(Chinese, chinese), FormatLine(English, english), ThirdLine(phonetic)], '\n')
  {
    var l1 := FormatLine(Chinese, chinese);
    var l2 := FormatLine(English, english);
    var l3 := ThirdLine(phonetic);
    var stripped := l1 + "\n" + l2 + "\n" + l3;
    assert [l1, l2, l3][1..] == [l2, l3];
    assert [l2, l3][1..] == [l3];
    assert Join([l3], '\n') == l3;
    assert Join([l2, l3], '\n') == l2 + ['\n'] + l3;
    assert Join([l1, l2, l3], '\n') == l1 + ['\n'] + (l2 + ['\n'] + l3);
    assert stripped == Join([l1, l2, l3], '\n');
    assert stripped[0] == 'C';
    assert stripped[|stripped| - 1] == l3[|l3| - 1];
    assert Trimmed(stripped);
    StripTrimmed(stripped);
    if phonetic == "" {
      assert Format(chinese, english, phonetic) == stripped + [' '];
      StripTrailingSpace(stripped, ' ');
    }
  }

  /** Round trip: a reply in exactly the requested format parses back to the
      three values. */
  lemma FormatRoundTrip(chinese: string, english: string, phonetic: string)
    requires Plain(chinese, Chinese) && Plain(english, English) && Plain(phonetic, Phonetic)
    ensures Parse(Format(chinese, english, phonetic)) ==
              map["chinese" := chinese, "english" := english, "phonetic" := phonetic]
  {
    var l1 := FormatLine(Chinese, chinese);
    var l2 := FormatLine(English, english);
    var l3 := ThirdLine(phonetic);
    StripFormat(chinese, english, phonetic);
    assert '\n' !in l1 && '\n' !in l2 && '\n' !in l3;
    SplitJoin([l1, l2, l3], '\n');
    assert Lines(Format(chinese, english, phonetic)) == [l1, l2, l3];
    FormattedLineMatches(Chinese, chinese);
    FormattedLineMatches(English, english);
    FormattedValue(Chinese, chinese);
    FormattedValue(English, english);
    ThirdLineValue(phonetic);
    ParseThree(l1, l2, l3);
  }
}
