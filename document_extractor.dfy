/**
  The text-level extractors of docs/js/app-base.js: the ```json fence rule, the
  cleaning fallback, `extractDocumentContentFromString`, the priority chain of
  `extractFinalDocument`, `extractDocumentContent` / `extractReadableContent` used by
  the step views, the content choices of `displayStepResult` and
  `downloadFinalDocument`, and the badge chosen by `checkAPIStatus`.

  `JSON.parse` and `JSON.stringify` are parameters: `parse(s)` is `None` exactly when
  `JSON.parse(s)` throws.
 */
module DocumentExtractor {
  import opened Wrappers
  import opened Text
  import opened JsonValue
  import opened DocumentConverter
  import opened DocumentSearch

  /** `JSON.parse`, `None` when it throws a SyntaxError. */
  type Parser = string -> Option<Json>

  /** Length of the run of JavaScript whitespace at the start of `s`: what `\s*` takes. */
  function SpaceRun(s: string): (n: nat)
    ensures n <= |s|
  {
    if s != [] && IsJsSpace(s[0]) then 1 + SpaceRun(s[1..]) else 0
  }

  /** `SpaceRun` measures the leading whitespace run: spaces up to it, a non-space or
      the end at it. */
  lemma {:induction false} SpaceRunSpec(s: string)
    ensures forall i :: 0 <= i < SpaceRun(s) ==> IsJsSpace(s[i])
    ensures SpaceRun(s) == |s| || !IsJsSpace(s[SpaceRun(s)])
  {
    if s != [] && IsJsSpace(s[0]) {
      SpaceRunSpec(s[1..]);
      assert forall i :: 1 <= i < |s| ==> s[i] == s[1..][i - 1];
    }
  }

  /** The capture of `/```json\s*([\s\S]*?)```/`: after the first "```json" and the
      whitespace following it, up to the next "```"; `None` when there is no match. */
  function FenceInterior(s: string): (r: Option<string>)
    ensures r.Some? ==> !Contains(r.value, Fence)
  {
    match IndexOf(s, JsonFence)
    case None => None
    case Some(p) =>
      var q := p + 7 + SpaceRun(s[p + 7..]);
      match IndexOf(s[q..], Fence)
      case None => None
      case Some(k) =>
        NoEarlierOccurrence(s[q..], Fence, k);
        Some(s[q..][..k])
  }

  /** How `FenceInterior` reads off a match from the positions of the two markers. */
  lemma FenceInteriorAt(s: string, p: nat, q: nat, k: nat, inner: string)
    requires IndexOf(s, JsonFence) == Some(p)
    requires q == p + 7 + SpaceRun(s[p + 7..])
    requires IndexOf(s[q..], Fence) == Some(k)
    requires s[q..][..k] == inner
    ensures FenceInterior(s) == Some(inner)
  {
  }

  /** `\s*` takes exactly a whitespace run followed by a non-space or the end. */
  lemma SpaceRunExact(ws: string, rest: string)
    requires forall i :: 0 <= i < |ws| ==> IsJsSpace(ws[i])
    requires rest == [] || !IsJsSpace(rest[0])
    ensures SpaceRun(ws + rest) == |ws|
  {
    SpaceRunSpec(ws + rest);
    assert forall i :: 0 <= i < |ws| ==> (ws + rest)[i] == ws[i];
    if rest != [] {
      assert (ws + rest)[|ws|] == rest[0];
    }
  }

  /** The fence rule recovers the interior of a well-formed block: text without
      backticks, opened by "```json" and optional whitespace, closed by "```". */
  lemma FenceRoundTrip(s: string, pre: string, ws: string, inner: string, post: string)
    requires s == pre + JsonFence + ws + inner + Fence + post
    requires NoBacktick(pre) && NoBacktick(inner)
    requires forall i :: 0 <= i < |ws| ==> IsJsSpace(ws[i])
    requires inner == [] || !IsJsSpace(inner[0])
    ensures FenceInterior(s) == Some(inner)
  {
    var x := inner + Fence + post;
    assert s == pre + JsonFence + (ws + x);
    FoundAfterPlainText(pre, JsonFence, ws + x);
    assert IndexOf(s, JsonFence) == Some(|pre|);
    assert s[|pre| + 7..] == ws + x;
    SpaceRunExact(ws, x);
    var q := |pre| + 7 + SpaceRun(s[|pre| + 7..]);
    assert s[q..] == x;
    FoundAfterPlainText(inner, Fence, post);
    assert IndexOf(s[q..], Fence) == Some(|inner|);
    assert s[q..][..|inner|] == inner;
    FenceInteriorAt(s, |pre|, q, |inner|, inner);
  }

  // ----- extractReadableContentFromJsonString (docs/js/app-base.js:658-666) -----

  /** The characters `/[{}[\]]/g` and `/"/g` delete. */
  predicate IsJsonPunctuation(c: char) {
    c == '{' || c == '}' || c == '[' || c == ']' || c == '"'
  }

  /** `jsonStr.replace(/[{}[\]]/g, '').replace(/"/g, '')`: every other character, in order. */
  function StripJsonPunctuation(s: string): (r: string)
    ensures forall i :: 0 <= i < |r| ==> !IsJsonPunctuation(r[i])
    ensures forall c :: !IsJsonPunctuation(c) ==> multiset(r)[c] == multiset(s)[c]
  {
    if s == [] then []
    else
      assert s == [s[0]] + s[1..];
      (if IsJsonPunctuation(s[0]) then [] else [s[0]]) + StripJsonPunctuation(s[1..])
  }

  /** `extractReadableContentFromJsonString(jsonStr)`.  Whether or not `jsonStr` parses,
      the result is the cleaned text: on success the body calls
      `extractFinalDocumentFromJson`, which is defined nowhere, so the ReferenceError
      lands in the same `catch` as a parse failure. */
  function ReadableFromJsonString(parse: Parser, jsonStr: string): (r: string)
    ensures forall i :: 0 <= i < |r| ==> !IsJsonPunctuation(r[i])
    ensures Trimmed(Js, r)
  {
    var cleaned := StripJsonPunctuation(jsonStr);
    TrimShape(Js, cleaned);
    TrimKeepsOnly(cleaned);
    JsTrim(cleaned)
  }

  /** Trimming keeps only characters of the text it trims. */
  lemma TrimKeepsOnly(s: string)
    ensures forall i :: 0 <= i < |JsTrim(s)| ==> JsTrim(s)[i] in s
  {
    var t := TrimStart(Js, s);
    forall i | 0 <= i < |JsTrim(s)| ensures JsTrim(s)[i] in s {
      assert JsTrim(s)[i] == t[i] == s[|s| - |t| + i];
    }
  }

  // ----- extractDocumentContentFromString (docs/js/app-base.js:211-235) -----

  /** `extractDocumentContentFromString(text)`.  Every throw inside it (a parse failure
      or a `null` read by the converter) is caught, so it always returns text. */
  function DocumentFromString(parse: Parser, text: Json): (r: string)
    ensures !text.JStr? || text.s == [] ==> r == ""
    ensures text.JStr? && FenceInterior(text.s).None? && parse(text.s).None? ==> r == text.s
  {
    if !JsTruthy(text) || !text.JStr? then ""
    else
      var s := text.s;
      match FenceInterior(s)
      case Some(inner) =>
        (match parse(inner)
         case Some(data) =>
           (match ReadableDocument(data)
            case Normal(d) => d
            case Throw => ReadableFromJsonString(parse, inner))
         case None => ReadableFromJsonString(parse, inner))
      case None =>
        match parse(s)
        case Some(data) =>
          (match ReadableDocument(data)
           case Normal(d) => d
           case Throw => s)
        case None => s
  }

  /** A fenced block whose interior does not parse yields that interior with the JSON
      punctuation removed and the ends trimmed. */
  lemma FencedUnparsable(parse: Parser, s: string)
    requires s != [] && FenceInterior(s).Some? && parse(FenceInterior(s).value).None?
    ensures DocumentFromString(parse, JStr(s)) == JsTrim(StripJsonPunctuation(FenceInterior(s).value))
    ensures forall i :: 0 <= i < |DocumentFromString(parse, JStr(s))| ==> !IsJsonPunctuation(DocumentFromString(parse, JStr(s))[i])
  {
  }

  /** A fenced block whose interior parses yields the readable document of the parsed
      value, or, if the converter throws, the cleaned interior. */
  lemma FencedParsable(parse: Parser, s: string)
    requires s != [] && FenceInterior(s).Some? && parse(FenceInterior(s).value).Some?
    ensures var data := parse(FenceInterior(s).value).value;
            DocumentFromString(parse, JStr(s))
            == if ReadableDocument(data).Normal? then ReadableDocument(data).value
               else JsTrim(StripJsonPunctuation(FenceInterior(s).value))
  {
  }

  // ----- extractFinalDocument (docs/js/app-base.js:157-208) -----

  /** Priority 1: `workflow_context.refined_deliverables`, unwrapped when it is an object. */
  function Source1(results: Json): Option<Json> {
    var context := Get(results, "workflow_context");
    var refined := Get(context, "refined_deliverables");
    if !JsTruthy(context) || !JsTruthy(refined) then None
    else if IsObject(refined) && JsTruthy(Get(refined, "refined_deliverables")) then Some(Get(refined, "refined_deliverables"))
    else if refined.JStr? then Some(refined)
    else None
  }

  /** Priority 2: `steps.step5_refinement.result.refined_deliverables`. */
  function Source2(results: Json): Option<Json> {
    var steps := Get(results, "steps");
    var step5 := Get(steps, "step5_refinement");
    var result := Get(step5, "result");
    if JsTruthy(steps) && JsTruthy(step5) && JsTruthy(result) && IsObject(result)
       && JsTruthy(Get(result, "refined_deliverables"))
    then Some(Get(result, "refined_deliverables"))
    else None
  }

  /** Priority 3: `workflow_context.deliverables.result.deliverables`, or the string itself. */
  function Source3(results: Json): Option<Json> {
    var context := Get(results, "workflow_context");
    var deliverables := Get(context, "deliverables");
    if !JsTruthy(context) || !JsTruthy(deliverables) then None
    else if IsObject(deliverables) && JsTruthy(Get(deliverables, "result")) then
      var inner := Get(Get(deliverables, "result"), "deliverables");
      if JsTruthy(inner) then Some(inner) else None
    else if deliverables.JStr? then Some(deliverables)
    else None
  }

  /** Priority 4: `steps.step3_execution.result.deliverables`. */
  function Source4(results: Json): Option<Json> {
    var steps := Get(results, "steps");
    var step3 := Get(steps, "step3_execution");
    var result := Get(step3, "result");
    if JsTruthy(steps) && JsTruthy(step3) && JsTruthy(result) && IsObject(result)
       && JsTruthy(Get(result, "deliverables"))
    then Some(Get(result, "deliverables"))
    else None
  }

  /** `if (!finalDoc && <guard>) finalDoc = extractDocumentContentFromString(<source>)`. */
  function TryNext(parse: Parser, doc: string, source: Option<Json>): string {
    if doc != "" then doc
    else
      match source
      case None => doc
      case Some(v) => DocumentFromString(parse, v)
  }

  /** `finalDoc` after the four priority blocks. */
  function FinalDocumentText(parse: Parser, results: Json): string {
    var d1 := TryNext(parse, "", Source1(results));
    var d2 := TryNext(parse, d1, Source2(results));
    var d3 := TryNext(parse, d2, Source3(results));
    TryNext(parse, d3, Source4(results))
  }

  /** `extractFinalDocument(results)`: the document handed to the final-document tab, if
      any.  Reading `.workflow_context` of `null` throws. */
  function ExtractFinalDocument(parse: Parser, results: Json): (r: Completion<Option<string>>)
    ensures r.Throw? <==> results == JNull
    ensures r.Normal? && r.value.Some? ==> Units(r.value.value) > 50 && Trimmed(Js, r.value.value)
    // The document is the trimmed text of the first source that extracts to something,
    // produced exactly when that trimmed text is longer than 50 units.
    ensures r.Normal? ==>
              var t := JsTrim(FirstNonEmpty(parse, Sources(results)));
              (r.value.Some? <==> Units(t) > 50) && (r.value.Some? ==> r.value.value == t)
  {
    if results == JNull then Throw
    else
      FinalDocumentPriority(parse, results);
      Normal(Substantial(FinalDocumentText(parse, results)))
  }

  /** `if (finalDoc && finalDoc.trim().length > 50)`: the trimmed text, when it is
      long enough. */
  function Substantial(doc: string): (r: Option<string>)
    ensures r.Some? <==> Units(JsTrim(doc)) > 50
    ensures r.Some? ==> r.value == JsTrim(doc) && Trimmed(Js, r.value)
  {
    TrimShape(Js, doc);
    if doc != "" && Units(JsTrim(doc)) > 50 then Some(JsTrim(doc)) else None
  }

  function OptionList(o: Option<Json>): seq<Json> {
    match o
    case Some(v) => [v]
    case None => []
  }

  /** The sources whose guards hold, in priority order. */
  function Sources(results: Json): seq<Json> {
    OptionList(Source1(results))
    + (OptionList(Source2(results)) + (OptionList(Source3(results)) + OptionList(Source4(results))))
  }

  /** The reference choice: the first source whose extracted text is non-empty. */
  function FirstNonEmpty(parse: Parser, sources: seq<Json>): string
    decreases |sources|
  {
    if sources == [] then ""
    else if DocumentFromString(parse, sources[0]) != "" then DocumentFromString(parse, sources[0])
    else FirstNonEmpty(parse, sources[1..])
  }

  lemma TryNextStep(parse: Parser, doc: string, source: Option<Json>, rest: seq<Json>)
    ensures (if doc != "" then doc else FirstNonEmpty(parse, OptionList(source) + rest))
            == (var d := TryNext(parse, doc, source); if d != "" then d else FirstNonEmpty(parse, rest))
  {
    match source
    case None => assert OptionList(source) + rest == rest;
    case Some(v) => assert (OptionList(source) + rest)[0] == v && (OptionList(source) + rest)[1..] == rest;
  }

  /** The sources are tried in their fixed order, and a later one is consulted only
      while the text found so far is empty. */
  lemma FinalDocumentPriority(parse: Parser, results: Json)
    ensures FinalDocumentText(parse, results) == FirstNonEmpty(parse, Sources(results))
  {
    var s1, s2, s3, s4 := Source1(results), Source2(results), Source3(results), Source4(results);
    var d1 := TryNext(parse, "", s1);
    var d2 := TryNext(parse, d1, s2);
    var d3 := TryNext(parse, d2, s3);
    TryNextStep(parse, "", s1, OptionList(s2) + (OptionList(s3) + OptionList(s4)));
    TryNextStep(parse, d1, s2, OptionList(s3) + OptionList(s4));
    TryNextStep(parse, d2, s3, OptionList(s4));
    TryNextStep(parse, d3, s4, []);
    assert OptionList(s4) + [] == OptionList(s4);
  }

  /** Results offering none of the four sources yield no final document. */
  lemma NoSourceNoDocument(parse: Parser, results: Json)
    requires results != JNull && Sources(results) == []
    ensures ExtractFinalDocument(parse, results) == Normal(None)
  {
    FinalDocumentPriority(parse, results);
  }

  // ----- extractReadableContent (docs/js/app-base.js:882-896) -----

  /** The global replace of `marker` followed by any whitespace: every occurrence of `marker` and the
      whitespace after it removed, scanning from the left. */
  function RemoveMarkers(s: string, marker: string): string
    requires marker != []
    decreases |s|
  {
    match IndexOf(s, marker)
    case None => s
    case Some(p) =>
      var rest := s[p + |marker|..];
      s[..p] + RemoveMarkers(rest[SpaceRun(rest)..], marker)
  }

  /** Text without "```" that does not end in a backtick, followed by text without
      "```", has no "```". */
  lemma JoinWithoutFence(x: string, y: string)
    requires !Contains(x, Fence) && !Contains(y, Fence)
    requires x == [] || x[|x| - 1] != '`'
    ensures !Contains(x + y, Fence)
  {
    var s := x + y;
    forall i | 0 <= i <= |s| ensures NotAt(s, i, Fence) {
      if i + 3 <= |x| {
        assert NotAt(x, i, Fence);
        assert x[i..][..3] == s[i..][..3];
      } else if i >= |x| {
        assert NotAt(y, i - |x|, Fence);
        assert y[i - |x|..] == s[i..];
      } else if i + 3 <= |s| {
        assert s[i..][|x| - 1 - i] == x[|x| - 1];
      }
    }
    NoOccurrence(s, Fence);
  }

  /** The first "```" is not preceded by a backtick, or it would start one earlier. */
  lemma FenceNotAfterBacktick(s: string, p: nat)
    requires IndexOf(s, Fence) == Some(p) && p > 0
    ensures s[p - 1] != '`'
  {
    assert NotAt(s, p - 1, Fence);
    assert s[p..p + 3][0] == s[p] && s[p..p + 3][1] == s[p + 1];
    assert s[p - 1..][1] == s[p] && s[p - 1..][2] == s[p + 1];
  }

  /** Once every "```" and the whitespace after it is removed, no "```" is left in the text. */
  lemma {:induction false} RemoveFencesComplete(s: string)
    ensures !Contains(RemoveMarkers(s, Fence), Fence)
    decreases |s|
  {
    match IndexOf(s, Fence)
    case None =>
    case Some(p) =>
      var rest := s[p + 3..];
      RemoveFencesComplete(rest[SpaceRun(rest)..]);
      NoEarlierOccurrence(s, Fence, p);
      if p > 0 {
        FenceNotAfterBacktick(s, p);
      }
      JoinWithoutFence(s[..p], RemoveMarkers(rest[SpaceRun(rest)..], Fence));
  }

  /** The text `extractReadableContent` works on once both marker patterns are removed. */
  function StripFences(text: string): (r: string)
    ensures !Contains(r, Fence)
  {
    RemoveFencesComplete(RemoveMarkers(text, JsonFence));
    RemoveMarkers(RemoveMarkers(text, JsonFence), Fence)
  }

  /** `extractReadableContent(text)`: a parsed object goes through
      `extractContentFromObject(parsed, true)`; otherwise, or if that throws, the text
      with its fences removed. */
  function ReadableContent(parse: Parser, text: string): (r: string)
    ensures text == [] ==> r == ""
    ensures text != [] && parse(StripFences(text)).None? ==> r == StripFences(text) && !Contains(r, Fence)
  {
    if text == [] then ""
    else
      var stripped := StripFences(text);
      match parse(stripped)
      case Some(parsed) =>
        (match ContentFromObject(parsed, true)
         case Normal(c) => c
         case Throw => stripped)
      case None => stripped
  }

  // ----- extractDocumentContent (docs/js/app-base.js:842-879) -----

  /** `extractDocumentContent(data)`.  The string branch catches everything; the
      object branch calls `extractContentFromObject` outside any `try`, so a throw there
      escapes. */
  function DocumentContent(parse: Parser, data: Json): (r: Completion<string>)
    ensures !JsTruthy(data) ==> r == Normal("")
    ensures data.JStr? ==> r.Normal?
    // A fenced block that parses and converts gives the converted object.
    ensures data.JStr? && FenceInterior(data.s).Some? && parse(FenceInterior(data.s).value).Some?
            && ContentFromObject(parse(FenceInterior(data.s).value).value, true).Normal?
            ==> r == ContentFromObject(parse(FenceInterior(data.s).value).value, true)
    // Any other non-empty string is read as text.
    ensures data.JStr? && data.s != []
            && (FenceInterior(data.s).None? || parse(FenceInterior(data.s).value).None?
                || ContentFromObject(parse(FenceInterior(data.s).value).value, true).Throw?)
            ==> r == Normal(ReadableContent(parse, data.s))
    // An object is converted through its truthy `result` when that is an object or a
    // string, and as a whole when `result` is missing or falsy.
    ensures IsObject(data) && !JsTruthy(Get(data, "result")) ==> r == ContentFromObject(data, true)
    ensures IsObject(data) && JsTruthy(Get(data, "result")) && IsObject(Get(data, "result"))
            ==> r == ContentFromObject(Get(data, "result"), true)
    ensures IsObject(data) && JsTruthy(Get(data, "result")) && Get(data, "result").JStr?
            ==> r.Normal?
    // Numbers, booleans and truthy `result`s of those kinds give nothing.
    ensures !data.JStr? && !IsObject(data) ==> r == Normal("")
    decreases data
  {
    if !JsTruthy(data) then Normal("")
    else if data.JStr? then
      match FenceInterior(data.s)
      case Some(inner) =>
        (match parse(inner)
         case Some(parsed) =>
           (match ContentFromObject(parsed, true)
            case Normal(c) => Normal(c)
            case Throw => Normal(ReadableContent(parse, data.s)))
         case None => Normal(ReadableContent(parse, data.s)))
      case None => Normal(ReadableContent(parse, data.s))
    else if IsObject(data) then
      var result := Get(data, "result");
      if JsTruthy(result) then
        if result.JStr? then DocumentContent(parse, result)
        else if IsObject(result) then ContentFromObject(result, true)
        else Normal("")
      else ContentFromObject(data, true)
    else Normal("")
  }

  // ----- displayStepResult (docs/js/app-base.js:1129-1165) -----

  /** What a step panel shows: nothing, or a value handed to `formatMarkdown`. */
  datatype StepView = NoContent | Markdown(content: Json)

  /** The first of `plan`, `research`, `deliverables`, `review`, `refined_deliverables`
      that is truthy. */
  function StepKeyValue(result: Json): Option<Json> {
    if JsTruthy(Get(result, "plan")) then Some(Get(result, "plan"))
    else if JsTruthy(Get(result, "research")) then Some(Get(result, "research"))
    else if JsTruthy(Get(result, "deliverables")) then Some(Get(result, "deliverables"))
    else if JsTruthy(Get(result, "review")) then Some(Get(result, "review"))
    else if JsTruthy(Get(result, "refined_deliverables")) then Some(Get(result, "refined_deliverables"))
    else None
  }

  /** `Object.values(result).filter(v => typeof v === 'string' && v.length > 50)`. */
  function LongStrings(values: seq<Json>): (r: seq<string>)
    ensures forall i :: 0 <= i < |r| ==> Units(r[i]) > 50
    ensures |r| <= |values|
  {
    if values == [] then []
    else (if values[0].JStr? && Units(values[0].s) > 50 then [values[0].s] else []) + LongStrings(values[1..])
  }

  /** `parts.join(sep)`. */
  function Join(parts: seq<string>, sep: string): string {
    if parts == [] then "" else if |parts| == 1 then parts[0] else parts[0] + sep + Join(parts[1..], sep)
  }

  /** The content choice of `displayStepResult(stepId, stepData)`; `stringify` is
      `JSON.stringify(value, null, 2)`. */
  function StepContent(parse: Parser, stringify: Json -> string, stepData: Json): (r: Completion<StepView>)
    ensures !JsTruthy(Get(stepData, "result")) ==> r == Normal(NoContent)
  {
    var result := Get(stepData, "result");
    if !JsTruthy(stepData) || !JsTruthy(result) then Normal(NoContent)
    else
      match DocumentContent(parse, result)
      case Throw => Throw
      case Normal(content) =>
        if Units(content) >= 50 then Normal(Markdown(JStr(content)))
        else if result.JStr? then Normal(Markdown(result))
        else if IsObject(result) then
          match StepKeyValue(result)
          case Some(v) => Normal(Markdown(v))
          case None =>
            var joined := Join(LongStrings(EntryValues(result)), "\n\n");
            Normal(Markdown(JStr(if joined != "" then joined else stringify(result))))
        else Normal(Markdown(JStr(content)))
  }

  /** A step result whose extracted text reaches 50 units is shown as that text. */
  lemma StepContentPrefersExtracted(parse: Parser, stringify: Json -> string, stepData: Json)
    requires JsTruthy(stepData) && JsTruthy(Get(stepData, "result"))
    requires DocumentContent(parse, Get(stepData, "result")).Normal?
    requires Units(DocumentContent(parse, Get(stepData, "result")).value) >= 50
    ensures StepContent(parse, stringify, stepData) == Normal(Markdown(JStr(DocumentContent(parse, Get(stepData, "result")).value)))
  {
  }

  // ----- downloadFinalDocument (docs/js/app-base.js:784-811) -----

  /** The download's test for content that looks like JSON. */
  predicate LooksLikeJson(content: string) {
    StartsWith(JsTrim(content), "{") || StartsWith(JsTrim(content), "[") || Contains(content, "\"refined_deliverables\"")
  }

  /** The text handed to `JSON.parse`: the fenced block's interior, or all of it. */
  function JsonPart(content: string): string {
    match FenceInterior(content) case Some(inner) => inner case None => content
  }

  /** `text` is the readable document of what `content` parses to. */
  predicate ConvertedFrom(parse: Parser, content: string, text: string) {
    parse(JsonPart(content)).Some? && ReadableDocument(parse(JsonPart(content)).value) == Normal(text)
  }

  /** The text put in the downloaded file: JSON-looking content is converted when it
      parses and converts, and kept as it is otherwise. */
  function DownloadText(parse: Parser, content: string): (r: string)
    ensures !LooksLikeJson(content) ==> r == content
    // The file holds the content itself or the readable document (possibly empty) of
    // what the content (or its fenced block) parses to.
    ensures r == content || ConvertedFrom(parse, content, r)
    // JSON-looking content that parses and converts is always replaced.
    ensures LooksLikeJson(content) && parse(JsonPart(content)).Some?
            && ReadableDocument(parse(JsonPart(content)).value).Normal?
            ==> ConvertedFrom(parse, content, r)
  {
    if LooksLikeJson(content) then
      match parse(JsonPart(content))
      case None => content
      case Some(data) =>
        match ReadableDocument(data)
        case Normal(d) => d
        case Throw => content
    else content
  }

  // ----- checkAPIStatus (docs/js/app-base.js:17-44) -----

  datatype Badge = ApiConfigured | InvalidApiKey | NotConfigured | StatusError | ConnectionError

  /** The badge for the reply of `GET /api/status`: `None` when the request or
      `response.json()` fails.  Reading `.success` of `null` throws inside the same
      `try`, so it also shows the connection error. */
  function StatusBadge(data: Option<Json>): (b: Badge)
    ensures b == ConnectionError <==> data.None? || data == Some(JNull)
    ensures data.Some? && data.value != JNull ==>
              var success := JsTruthy(Get(data.value, "success"));
              var usable := JsTruthy(Get(data.value, "api_key_valid")) && JsTruthy(Get(data.value, "api_key_format_valid"));
              var configured := JsTruthy(Get(data.value, "api_configured"));
              && (b == ApiConfigured <==> success && usable)
              && (b == InvalidApiKey <==> success && !usable && configured)
              && (b == NotConfigured <==> success && !usable && !configured)
              && (b == StatusError <==> !success)
  {
    match data
    case None => ConnectionError
    case Some(d) =>
      if d == JNull then ConnectionError
      else if JsTruthy(Get(d, "success")) then
        if JsTruthy(Get(d, "api_key_valid")) && JsTruthy(Get(d, "api_key_format_valid")) then ApiConfigured
        else if JsTruthy(Get(d, "api_configured")) then InvalidApiKey
        else NotConfigured
      else StatusError
  }
}
