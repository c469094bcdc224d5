/**
 * The chapter summary panel (src/components/Metadata.js): when it asks the
 * summary service to generate metadata, how it reads the question-answer
 * sections of that metadata, and what it renders.
 */
module Metadata {
  import opened JsValues
  import opened Strings

  // ---------------------------------------------------------------- question-answer pairs

  /** One entry of a rendered question-answer section. */
  datatype QaPair = QaPair(question: Json, answer: Json, index: string)

  const QuestionPrefix := "Question_"
  const AnswerPrefix := "Answer_"

  lemma QuestionKeyFields(key: string)
    requires StartsWith(key, QuestionPrefix)
    ensures Split(key, '_') == ["Question"] + Split(key[9..], '_')
  {
    assert key == "Question" + ['_'] + key[9..];
    SplitAfterField("Question", '_', key[9..]);
  }

  /** `key.split('_')[1]` for a `Question_` key: the text after the prefix up to the next underscore. */
  function QuestionNumber(key: string): (num: string)
    requires StartsWith(key, QuestionPrefix)
    ensures num == TakeUntil(key[9..], '_')
    ensures '_' !in num
  {
    QuestionKeyFields(key);
    Split(key, '_')[1]
  }

  /** The pair one key contributes: a `Question_<n>` key whose `Answer_<n>` is truthy. */
  function PairFor(key: string, entries: seq<(string, Json)>): (p: Option<QaPair>)
    ensures p.Some? <==>
      StartsWith(key, QuestionPrefix) && Truthy(Value(entries, AnswerPrefix + QuestionNumber(key)))
    ensures p.Some? ==>
      p.value.index == QuestionNumber(key) && p.value.question == Value(entries, key)
      && p.value.answer == Value(entries, AnswerPrefix + p.value.index)
  {
    if !StartsWith(key, QuestionPrefix) then None
    else
      var num := QuestionNumber(key);
      var answer := Value(entries, AnswerPrefix + num);
      if Truthy(answer) then Some(QaPair(Value(entries, key), answer, num)) else None
  }

  /** The number of `Question_` keys among `keys`. */
  function QuestionKeyCount(keys: seq<string>): (n: nat)
    ensures n <= |keys|
    decreases |keys|
  {
    if keys == [] then 0
    else QuestionKeyCount(keys[..|keys| - 1]) + (if StartsWith(keys[|keys| - 1], QuestionPrefix) then 1 else 0)
  }

  /** The `reduce` over the keys: the pairs of `keys`, in key order, at most one per `Question_` key. */
  function Pairs(keys: seq<string>, entries: seq<(string, Json)>): (r: seq<QaPair>)
    ensures |r| <= QuestionKeyCount(keys) <= |keys|
    decreases |keys|
  {
    if keys == [] then []
    else
      var init := Pairs(keys[..|keys| - 1], entries);
      match PairFor(keys[|keys| - 1], entries)
      case Some(p) => init + [p]
      case None => init
  }

  /** The reduce is a fold: the pairs of two runs of keys are the pairs of each, in order. */
  lemma {:induction false} PairsAppend(a: seq<string>, b: seq<string>, entries: seq<(string, Json)>)
    ensures Pairs(a + b, entries) == Pairs(a, entries) + Pairs(b, entries)
    decreases |b|
  {
    if b == [] {
      assert a + b == a;
    } else {
      var b0, last := b[..|b| - 1], b[|b| - 1];
      assert (a + b)[..|a + b| - 1] == a + b0;
      assert (a + b)[|a + b| - 1] == last;
      PairsAppend(a, b0, entries);
      match PairFor(last, entries)
      case Some(p) =>
        assert Pairs(a + b, entries) == Pairs(a + b0, entries) + [p];
        assert Pairs(b, entries) == Pairs(b0, entries) + [p];
      case None =>
    }
  }

  /** Every pair comes from one of the keys, with that key's question and its truthy answer. */
  lemma {:induction false} PairsSound(keys: seq<string>, entries: seq<(string, Json)>)
    ensures forall i :: 0 <= i < |Pairs(keys, entries)| ==>
      exists k :: 0 <= k < |keys| && PairFor(keys[k], entries) == Some(Pairs(keys, entries)[i])
    decreases |keys|
  {
    if keys != [] {
      var init := keys[..|keys| - 1];
      PairsSound(init, entries);
      var r := Pairs(keys, entries);
      var p := Pairs(init, entries);
      var last := keys[|keys| - 1];
      assert forall k :: 0 <= k < |init| ==> keys[k] == init[k];
      forall i | 0 <= i < |r|
        ensures exists k :: 0 <= k < |keys| && PairFor(keys[k], entries) == Some(r[i])
      {
        if i < |p| {
          match PairFor(last, entries) {
            case Some(q) => assert r == p + [q];
            case None => assert r == p;
          }
          assert r[i] == p[i];
          var k :| 0 <= k < |init| && PairFor(init[k], entries) == Some(p[i]);
          assert keys[k] == init[k];
        } else {
          match PairFor(last, entries)
          case Some(q) =>
            assert r == p + [q] && r[i] == q;
            assert PairFor(keys[|keys| - 1], entries) == Some(r[i]);
          case None =>
            assert false;
        }
      }
    } else {
      assert Pairs(keys, entries) == [];
    }
  }

  /** No pair is lost: every `Question_` key with a truthy answer contributes its pair. */
  lemma {:induction false} PairsComplete(keys: seq<string>, entries: seq<(string, Json)>, k: nat)
    requires k < |keys| && PairFor(keys[k], entries).Some?
    ensures PairFor(keys[k], entries).value in Pairs(keys, entries)
    decreases |keys|
  {
    if k < |keys| - 1 {
      var init := keys[..|keys| - 1];
      assert init[k] == keys[k];
      PairsComplete(init, entries, k);
    }
  }

  /** The pairs of an object's entries, built key by key as the source's `reduce` does. */
  method CollectPairs(entries: seq<(string, Json)>) returns (pairs: seq<QaPair>)
    ensures pairs == Pairs(Keys(entries), entries)
  {
    var keys := Keys(entries);
    pairs := [];
    var i := 0;
    while i < |keys|
      invariant 0 <= i <= |keys|
      invariant pairs == Pairs(keys[..i], entries)
    {
      assert keys[..i + 1][..i] == keys[..i];
      var p := PairFor(keys[i], entries);
      if p.Some? {
        pairs := pairs + [p.value];
      }
      i := i + 1;
    }
    assert keys[..i] == keys;
  }

  /** What `renderQUADs` shows for one section. */
  datatype QuadSection =
    | InvalidSection(title: string)
    | NoQuestions(title: string)
    | QaList(pairs: seq<QaPair>)

  /**
   * `renderQUADs`: a value that is falsy or not an object is refused; an object
   * shows its pairs, or a notice when it has none. An array's keys are its
   * indices, which never start with `Question_`, so an array has no pairs.
   */
  function RenderQuads(quads: Json, title: string): (s: QuadSection)
    ensures s.InvalidSection? <==> !Truthy(quads) || !(quads.JObj? || quads.JArr?)
    ensures s.InvalidSection? || s.NoQuestions? ==> s.title == title
    ensures s.QaList? ==> quads.JObj? && s.pairs == Pairs(Keys(quads.entries), quads.entries) && s.pairs != []
    ensures quads.JObj? && Pairs(Keys(quads.entries), quads.entries) == [] ==> s == NoQuestions(title)
  {
    match quads
    case JObj(entries) =>
      var pairs := Pairs(Keys(entries), entries);
      if pairs == [] then NoQuestions(title) else QaList(pairs)
    case JArr(_) => NoQuestions(title)
    case _ => InvalidSection(title)
  }

  /** A section with no pairs is one where no `Question_` key has a truthy answer. */
  lemma NoQuestionsExactly(entries: seq<(string, Json)>, title: string)
    ensures RenderQuads(JObj(entries), title) == NoQuestions(title) <==>
      forall k :: 0 <= k < |entries| ==> PairFor(entries[k].0, entries).None?
  {
    var keys := Keys(entries);
    var r := Pairs(keys, entries);
    if r == [] {
      forall k | 0 <= k < |entries|
        ensures PairFor(entries[k].0, entries).None?
      {
        if PairFor(keys[k], entries).Some? {
          PairsComplete(keys, entries, k);
        }
      }
    } else {
      PairsSound(keys, entries);
      assert exists k :: 0 <= k < |keys| && PairFor(keys[k], entries) == Some(r[0]);
    }
  }

  // ---------------------------------------------------------------- rendering

  /** `obj.name` on a parsed value: only an object has the metadata's fields. */
  function Field(j: Json, name: string): Json {
    if j.JObj? then Value(j.entries, name) else JNull
  }

  /** `value || fallback` */
  function OrElse(j: Json, fallback: string): (r: Json)
    ensures Truthy(j) ==> r == j
    ensures !Truthy(j) ==> r == JStr(fallback)
  {
    if Truthy(j) then j else JStr(fallback)
  }

  datatype RequestStatus = Idle | Requested | Success | Error

  /** What the panel shows. `Broken` is a render that throws: a `null` parse result, or unparsable text. */
  datatype Panel =
    | Processing(showRetry: bool)
    | Broken
    | Summary(keyThemes: Json, caseStudies: Json, questions: Option<QuadSection>, deeper: Option<QuadSection>)

  /**
   * The parsed metadata: a string is parsed (`parsedText` is `JSON.parse`'s result,
   * `None` when it throws); any other value is used as it is.
   */
  function Parsed(metadata: Json, parsedText: Option<Json>): Option<Json> {
    if metadata.JStr? then parsedText else Some(metadata)
  }

  /** An optional section, shown only when its value is truthy. */
  function Section(parsed: Json, name: string, title: string): (s: Option<QuadSection>)
    ensures s.Some? <==> Truthy(Field(parsed, name))
    ensures s.Some? ==> s.value == RenderQuads(Field(parsed, name), title)
  {
    var quads := Field(parsed, name);
    if Truthy(quads) then Some(RenderQuads(quads, title)) else None
  }

  /**
   * The panel: the processing animation while there is no metadata or a
   * generation runs (with the retry button after an error); otherwise the key
   * themes and case studies with their fallbacks and the two optional sections.
   */
  function Render(metadata: Json, parsedText: Option<Json>, isGenerating: bool, status: RequestStatus): (p: Panel)
    ensures p.Processing? <==> !Truthy(metadata) || isGenerating
    ensures p.Processing? ==> (p.showRetry <==> status == Error)
    ensures p.Broken? <==> (Truthy(metadata) && !isGenerating
      && (Parsed(metadata, parsedText) == None || Parsed(metadata, parsedText) == Some(JNull)))
    ensures p.Summary? ==>
      var parsed := Parsed(metadata, parsedText).value;
      p.keyThemes == OrElse(Field(parsed, "Key_Themes"), "No key themes available")
      && p.caseStudies == OrElse(Field(parsed, "Case_Studies"), "No case studies available")
      && p.questions == Section(parsed, "QUADs", "Key Questions")
      && p.deeper == Section(parsed, "Deeper_QUADs", "Deeper Analysis")
  {
    if !Truthy(metadata) || isGenerating then Processing(status == Error)
    else
      match Parsed(metadata, parsedText)
      case None => Broken
      case Some(JNull) => Broken
      case Some(parsed) =>
        Summary(OrElse(Field(parsed, "Key_Themes"), "No key themes available"),
                OrElse(Field(parsed, "Case_Studies"), "No case studies available"),
                Section(parsed, "QUADs", "Key Questions"),
                Section(parsed, "Deeper_QUADs", "Deeper Analysis"))
  }

  /** The mount effect's condition: no metadata yet and nothing requested. */
  predicate ShouldAutoGenerate(metadata: Json, status: RequestStatus) {
    !Truthy(metadata) && status == Idle
  }

  /** While auto-generation is due, the panel shows the processing animation without a retry button. */
  lemma AutoGenerateShowsProcessing(metadata: Json, parsedText: Option<Json>, isGenerating: bool, status: RequestStatus)
    requires ShouldAutoGenerate(metadata, status)
    ensures Render(metadata, parsedText, isGenerating, status) == Processing(false)
  {
  }

  // ---------------------------------------------------------------- generation

  /** The summary endpoint for a chapter. */
  function SummaryUrl(chapterId: string): string {
    "https://thebookapp-production-eb6d.up.railway.app/summary?key=" + chapterId
  }

  /** The metadata a lookup hands to `onMetadataUpdate`: only a truthy `metadata` column is forwarded. */
  function AfterLookup(metadata: Json, found: Answer<Json>): (m: Json)
    ensures found.Data? && Truthy(found.data) ==> m == found.data
    ensures !(found.Data? && Truthy(found.data)) ==> m == metadata
  {
    if found.Data? && Truthy(found.data) then found.data else metadata
  }

  /**
   * The statuses one `generateMetadata` run sets, in order: requested, then
   * success or error depending on the summary request, then success again from
   * the `finally` block.
   */
  function StatusTrace(summaryReached: bool): (t: seq<RequestStatus>)
    ensures |t| == 3 && t[0] == Requested && t[2] == Success
    ensures t[1] == (if summaryReached then Success else Error)
  {
    [Requested, if summaryReached then Success else Error, Success]
  }

  /** A run never sets `idle` again, so the mount effect cannot fire a second time. */
  lemma GenerationRunsOnce(summaryReached: bool, metadata: Json)
    ensures forall i :: 0 <= i < |StatusTrace(summaryReached)| ==>
      !ShouldAutoGenerate(metadata, StatusTrace(summaryReached)[i])
  {
  }

  /**
   * The panel's own state. `metadata` is the prop it receives; `onMetadataUpdate`
   * writes it back through the parent, which is modelled as an update of the field.
   */
  class MetadataDisplay {
    const chapterId: string
    var metadata: Json
    var isGenerating: bool
    var requestStatus: RequestStatus
    /** Every status set so far, oldest first. */
    var statusLog: seq<RequestStatus>

    constructor (chapterId: string, metadata: Json)
      ensures this.chapterId == chapterId && this.metadata == metadata
      ensures !isGenerating && requestStatus == Idle && statusLog == []
    {
      this.chapterId := chapterId;
      this.metadata := metadata;
      isGenerating := false;
      requestStatus := Idle;
      statusLog := [];
    }

    function Screen(parsedText: Option<Json>): Panel
      reads this
    {
      Render(metadata, parsedText, isGenerating, requestStatus)
    }

    /**
     * `fetchUpdatedMetadata`, given the `metadata` column of the chapter's row
     * (`Failed` for a query error or a missing row). It never throws.
     */
    method FetchUpdatedMetadata(found: Answer<Json>) returns (updated: bool, key: string)
      modifies this`metadata
      ensures key == chapterId
      ensures updated <==> found.Data? && Truthy(found.data)
      ensures metadata == AfterLookup(old(metadata), found)
    {
      key := chapterId;
      updated := false;
      if found.Data? && Truthy(found.data) {
        metadata := found.data;
        updated := true;
      }
    }

    method SetStatus(s: RequestStatus)
      modifies this`requestStatus, this`statusLog
      ensures requestStatus == s && statusLog == old(statusLog) + [s]
    {
      requestStatus := s;
      statusLog := statusLog + [s];
    }

    /**
     * `generateMetadata`, given whether the summary request completed and the
     * two lookups that follow it (the first only runs when it completed). The
     * run ends with status success, generation off, and auto-generation no
     * longer due.
     */
    method GenerateMetadata(summaryReached: bool, first: Answer<Json>, last: Answer<Json>) returns (url: string)
      modifies this`metadata, this`isGenerating, this`requestStatus, this`statusLog
      ensures url == SummaryUrl(chapterId)
      ensures statusLog == old(statusLog) + StatusTrace(summaryReached)
      ensures metadata == AfterLookup(if summaryReached then AfterLookup(old(metadata), first) else old(metadata), last)
      ensures requestStatus == Success && !isGenerating
      ensures !ShouldAutoGenerate(metadata, requestStatus)
    {
      isGenerating := true;
      SetStatus(Requested);
      url := SummaryUrl(chapterId);
      if summaryReached {
        var _, _ := FetchUpdatedMetadata(first);
        SetStatus(Success);
      } else {
        SetStatus(Error);
      }
      var _, _ := FetchUpdatedMetadata(last);
      SetStatus(Success);
      isGenerating := false;
    }

    /** The mount effect: generate only when there is no metadata and nothing was requested yet. */
    method OnMount(summaryReached: bool, first: Answer<Json>, last: Answer<Json>) returns (url: Option<string>)
      modifies this`metadata, this`isGenerating, this`requestStatus, this`statusLog
      ensures old(ShouldAutoGenerate(metadata, requestStatus)) ==>
        url == Some(SummaryUrl(chapterId)) && statusLog == old(statusLog) + StatusTrace(summaryReached)
        && metadata == AfterLookup(if summaryReached then AfterLookup(old(metadata), first) else old(metadata), last)
        && requestStatus == Success && !isGenerating
      ensures !old(ShouldAutoGenerate(metadata, requestStatus)) ==>
        url == None && metadata == old(metadata) && requestStatus == old(requestStatus)
        && statusLog == old(statusLog) && isGenerating == old(isGenerating)
      ensures !ShouldAutoGenerate(metadata, requestStatus) || requestStatus == old(requestStatus)
    {
      url := None;
      if ShouldAutoGenerate(metadata, requestStatus) {
        var u := GenerateMetadata(summaryReached, first, last);
        url := Some(u);
      }
    }
  }
}
