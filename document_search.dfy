/**
  The searching helpers of docs/js/app-base.js that walk a result object looking for
  document text: `buildDocumentFromObject` (longest string anywhere in the tree),
  `extractContentFromObject` (conversion, then well-known content keys, then any
  long string, then a formatted rendering) and `formatObjectAsDocument`.  Lengths are
  JavaScript `.length`, that is UTF-16 units (`Units`).
 */
module DocumentSearch {
  import opened Text
  import opened JsonValue
  import opened DocumentConverter

  // ----- buildDocumentFromObject (docs/js/app-base.js:637-655) -----

  /** `if (candidate.length > longest.length) longest = candidate`. */
  function Pick(candidate: string, longest: string): string {
    if Units(candidate) > Units(longest) then candidate else longest
  }

  /** `buildDocumentFromObject(obj)`: `''` for a falsy or non-object argument. */
  function LongestText(obj: Json): string
    decreases obj, 1, 0
  {
    if !JsTruthy(obj) || !IsObject(obj) then "" else LongestFrom(obj, EntryValues(obj), "")
  }

  /** The loop over `Object.entries(obj)`, from the longest text found so far. */
  function LongestFrom(ghost obj: Json, values: seq<Json>, longest: string): string
    requires forall k :: 0 <= k < |values| ==> values[k] < obj
    decreases obj, 0, |values|
  {
    if values == [] then longest
    else
      var v := values[0];
      var next := if v.JStr? then Pick(v.s, longest)
                  else if IsObject(v) then Pick(LongestText(v), longest)
                  else longest;
      LongestFrom(obj, values[1..], next)
  }

  /** Every string value in the tree below `obj`, in the order the walk meets them. */
  function Leaves(obj: Json): seq<string>
    decreases obj, 1, 0
  {
    if !IsObject(obj) then [] else LeavesOf(obj, EntryValues(obj))
  }

  function LeavesOf(ghost obj: Json, values: seq<Json>): seq<string>
    requires forall k :: 0 <= k < |values| ==> values[k] < obj
    decreases obj, 0, |values|
  {
    if values == [] then []
    else
      var v := values[0];
      (if v.JStr? then [v.s] else if IsObject(v) then Leaves(v) else []) + LeavesOf(obj, values[1..])
  }

  /** The reference selection: scanning `xs` in order, a text replaces the current
      choice only when it is strictly longer. */
  function FirstLongest(xs: seq<string>, longest: string): string
    decreases |xs|
  {
    if xs == [] then longest else FirstLongest(xs[1..], Pick(xs[0], longest))
  }

  lemma PickEmpty(x: string)
    ensures Pick(x, "") == x
  {
    UnitsBounds(x);
  }

  lemma PickAssoc(a: string, c: string, b: string)
    ensures Pick(a, Pick(c, b)) == Pick(Pick(a, c), b)
  {
  }

  lemma {:induction false} FirstLongestAppend(xs: seq<string>, ys: seq<string>, longest: string)
    ensures FirstLongest(xs + ys, longest) == FirstLongest(ys, FirstLongest(xs, longest))
    decreases |xs|
  {
    if xs == [] {
      assert xs + ys == ys;
    } else {
      assert (xs + ys)[0] == xs[0] && (xs + ys)[1..] == xs[1..] + ys;
      FirstLongestAppend(xs[1..], ys, Pick(xs[0], longest));
    }
  }

  /** Scanning from a current choice is the same as scanning from nothing and then
      comparing the winner with that choice. */
  lemma {:induction false} FirstLongestRestart(xs: seq<string>, longest: string)
    ensures FirstLongest(xs, longest) == Pick(FirstLongest(xs, ""), longest)
    decreases |xs|
  {
    if xs == [] {
      UnitsBounds(longest);
    } else {
      FirstLongestRestart(xs[1..], Pick(xs[0], longest));
      FirstLongestRestart(xs[1..], Pick(xs[0], ""));
      PickEmpty(xs[0]);
      PickAssoc(FirstLongest(xs[1..], ""), xs[0], longest);
    }
  }

  lemma {:induction false} LongestFromLeaves(obj: Json, values: seq<Json>, longest: string)
    requires forall k :: 0 <= k < |values| ==> values[k] < obj
    ensures LongestFrom(obj, values, longest) == FirstLongest(LeavesOf(obj, values), longest)
    decreases obj, 0, |values|
  {
    if values != [] {
      var v := values[0];
      var here := if v.JStr? then [v.s] else if IsObject(v) then Leaves(v) else [];
      FirstLongestAppend(here, LeavesOf(obj, values[1..]), longest);
      if IsObject(v) {
        LongestTextLeaves(v);
        FirstLongestRestart(Leaves(v), longest);
      }
      var next := if v.JStr? then Pick(v.s, longest)
                  else if IsObject(v) then Pick(LongestText(v), longest)
                  else longest;
      LongestFromLeaves(obj, values[1..], next);
    }
  }

  /** `buildDocumentFromObject` picks the first longest of the string values of the
      tree, taken in the order of the walk. */
  lemma {:induction false} LongestTextLeaves(obj: Json)
    ensures LongestText(obj) == FirstLongest(Leaves(obj), "")
    decreases obj, 1, 0
  {
    if IsObject(obj) {
      LongestFromLeaves(obj, EntryValues(obj), "");
    }
  }

  /** The choice is at least as long as every text scanned and as the starting choice,
      and is either one of the texts or the starting choice. */
  lemma {:induction false} FirstLongestBound(xs: seq<string>, longest: string)
    ensures forall i :: 0 <= i < |xs| ==> Units(xs[i]) <= Units(FirstLongest(xs, longest))
    ensures Units(longest) <= Units(FirstLongest(xs, longest))
    ensures FirstLongest(xs, longest) == longest || FirstLongest(xs, longest) in xs
    decreases |xs|
  {
    if xs != [] {
      FirstLongestBound(xs[1..], Pick(xs[0], longest));
      forall i | 1 <= i < |xs| ensures Units(xs[i]) <= Units(FirstLongest(xs, longest)) {
        assert xs[i] == xs[1..][i - 1];
      }
    }
  }

  /** Ties go to the earliest text: when `xs[k]` is the first text of the winning
      length and beats the starting choice, it is the one chosen. */
  lemma {:induction false} FirstLongestEarliest(xs: seq<string>, longest: string, k: nat)
    requires k < |xs| && Units(xs[k]) > Units(longest)
    requires Units(xs[k]) == Units(FirstLongest(xs, longest))
    requires forall j :: 0 <= j < k ==> Units(xs[j]) < Units(xs[k])
    ensures FirstLongest(xs, longest) == xs[k]
    decreases |xs|
  {
    FirstLongestBound(xs[k + 1..], xs[k]);
    if k == 0 {
      FirstLongestRestart(xs[1..], xs[0]);
      FirstLongestBound(xs[1..], "");
    } else {
      assert xs[1..][k - 1] == xs[k];
      FirstLongestEarliest(xs[1..], Pick(xs[0], longest), k - 1);
    }
  }

  /** `buildDocumentFromObject` returns text at least as long as every string value
      anywhere in the tree, and that text is one of them (or `''`). */
  lemma LongestTextBound(obj: Json)
    ensures forall i :: 0 <= i < |Leaves(obj)| ==> Units(Leaves(obj)[i]) <= Units(LongestText(obj))
    ensures LongestText(obj) == "" || LongestText(obj) in Leaves(obj)
  {
    LongestTextLeaves(obj);
    FirstLongestBound(Leaves(obj), "");
  }

  /** `buildDocumentFromObject`, walking `Object.entries(obj)` with `longestText`. */
  method BuildDocumentFromObject(obj: Json) returns (longestText: string)
    ensures longestText == LongestText(obj)
    decreases obj
  {
    if !JsTruthy(obj) || !IsObject(obj) {
      return "";
    }
    var values := EntryValues(obj);
    longestText := "";
    var i := 0;
    assert values[i..] == values;
    while i < |values|
      invariant 0 <= i <= |values|
      invariant LongestFrom(obj, values[i..], longestText) == LongestText(obj)
    {
      var value := values[i];
      assert values[i..][0] == value && values[i..][1..] == values[i + 1..];
      if value.JStr? && Units(value.s) > Units(longestText) {
        longestText := value.s;
      } else if IsObject(value) {
        var nested := BuildDocumentFromObject(value);
        if Units(nested) > Units(longestText) {
          longestText := nested;
        }
      }
      i := i + 1;
    }
  }

  // ----- formatObjectAsDocument (docs/js/app-base.js:1071-1126) -----

  /** One item of `deliverable.sections` in the fallback rendering. */
  function SectionHeadingStep(out: string, section: Json): string {
    if section.JStr? then out + "### " + section.s + "\n\n"
    else if JsTruthy(section) && IsObject(section) then
      var o1 := AddIf(out, Get(section, "section"), "### ", "\n\n");
      var o2 := AddText(o1, Get(section, "content"));
      AddText(o2, Get(section, "placeholder_guidance"))
    else out
  }

  /** One item of `obj.deliverables` in the fallback rendering; `.name` of `null` throws. */
  function NamedDeliverableStep(out: string, d: Json): Completion<string> {
    if d == JNull then Throw
    else
      var o1 := AddIf(out, Get(d, "name"), "## ", "\n\n");
      var sections := Get(d, "sections");
      Normal(if JsTruthy(sections) && sections.JArr? then TextLoop(o1, sections.elems, SectionHeadingStep) else o1)
  }

  /** The fallback rendering from `obj.deliverables` and `obj.execution_summary.overview`,
      appended to `out`. */
  function FallbackInto(obj: Json, out: string): Completion<string> {
    var ds := Get(obj, "deliverables");
    match (if JsTruthy(ds) && ds.JArr? then Loop(out, ds.elems, NamedDeliverableStep) else Normal(out))
    case Throw => Throw
    case Normal(o) =>
      var summary := Get(obj, "execution_summary");
      Normal(if JsTruthy(summary) then AddIf(o, Get(summary, "overview"), "## Execution Summary\n\n", "\n\n") else o)
  }

  /** The text `formatObjectAsDocument` renders from `obj` itself, before it considers
      deferring to the wrapped deliverables. */
  function OwnRendering(obj: Json): Completion<string> {
    match ReadableDocument(obj)
    case Throw => Throw
    case Normal(output) => if Units(output) < 50 then FallbackInto(obj, output) else Normal(output)
  }

  /** `formatObjectAsDocument(obj)`. */
  function FormatObject(obj: Json): (r: Completion<string>)
    ensures obj.JStr? ==> r == Normal(obj.s)
    ensures !obj.JStr? && (!JsTruthy(obj) || !IsObject(obj)) ==> r == Normal("")
    decreases obj
  {
    if obj.JStr? then Normal(obj.s)
    else if !JsTruthy(obj) || !IsObject(obj) then Normal("")
    else
      match OwnRendering(obj)
      case Throw => Throw
      case Normal(output) =>
        if Units(output) < 50 && JsTruthy(Get(obj, "improved_deliverables")) then
          FormatObject(Get(obj, "improved_deliverables"))
        else if Units(output) < 50 && JsTruthy(Get(obj, "refined_deliverables")) then
          FormatObject(Get(obj, "refined_deliverables"))
        else Normal(JsTrim(output))
  }

  /** When its own rendering is shorter than 50 units, `formatObjectAsDocument` hands
      over to `improved_deliverables`, and to `refined_deliverables` only when there is
      no truthy `improved_deliverables`. */
  lemma FormatObjectDefers(obj: Json)
    requires IsObject(obj) && OwnRendering(obj).Normal? && Units(OwnRendering(obj).value) < 50
    ensures JsTruthy(Get(obj, "improved_deliverables")) ==> FormatObject(obj) == FormatObject(Get(obj, "improved_deliverables"))
    ensures !JsTruthy(Get(obj, "improved_deliverables")) && JsTruthy(Get(obj, "refined_deliverables")) ==>
              FormatObject(obj) == FormatObject(Get(obj, "refined_deliverables"))
  {
  }

  /** Without a hand-over, the result is the object's own rendering, trimmed. */
  lemma FormatObjectOwn(obj: Json)
    requires IsObject(obj) && OwnRendering(obj).Normal?
    requires Units(OwnRendering(obj).value) >= 50
             || (!JsTruthy(Get(obj, "improved_deliverables")) && !JsTruthy(Get(obj, "refined_deliverables")))
    ensures FormatObject(obj) == Normal(JsTrim(OwnRendering(obj).value))
    ensures Trimmed(Js, FormatObject(obj).value)
  {
    assert !obj.JStr? && JsTruthy(obj);
    TrimShape(Js, OwnRendering(obj).value);
  }

  /** The loop over `deliverable.sections` in the fallback rendering. */
  method AppendSectionHeadings(out: string, items: seq<Json>) returns (r: string)
    ensures r == TextLoop(out, items, SectionHeadingStep)
  {
    r := out;
    var j := 0;
    assert items[j..] == items;
    while j < |items|
      invariant 0 <= j <= |items|
      invariant TextLoop(r, items[j..], SectionHeadingStep) == TextLoop(out, items, SectionHeadingStep)
    {
      var section := items[j];
      assert items[j..][0] == section && items[j..][1..] == items[j + 1..];
      if section.JStr? {
        r := r + "### " + section.s + "\n\n";
      } else if JsTruthy(section) && IsObject(section) {
        if JsTruthy(Get(section, "section")) {
          r := r + "### " + JsString(Get(section, "section")) + "\n\n";
        }
        if JsTruthy(Get(section, "content")) {
          r := r + JsString(Get(section, "content")) + "\n\n";
        }
        if JsTruthy(Get(section, "placeholder_guidance")) {
          r := r + JsString(Get(section, "placeholder_guidance")) + "\n\n";
        }
      }
      j := j + 1;
    }
  }

  /** The loop over `obj.deliverables` in the fallback rendering. */
  method AppendNamedDeliverables(out: string, items: seq<Json>) returns (r: Completion<string>)
    ensures r == Loop(out, items, NamedDeliverableStep)
  {
    var output := out;
    var i := 0;
    assert items[i..] == items;
    while i < |items|
      invariant 0 <= i <= |items|
      invariant Loop(output, items[i..], NamedDeliverableStep) == Loop(out, items, NamedDeliverableStep)
    {
      var deliverable := items[i];
      assert items[i..][0] == deliverable && items[i..][1..] == items[i + 1..];
      if deliverable == JNull {
        return Throw;
      }
      if JsTruthy(Get(deliverable, "name")) {
        output := output + "## " + JsString(Get(deliverable, "name")) + "\n\n";
      }
      var sections := Get(deliverable, "sections");
      if JsTruthy(sections) && sections.JArr? {
        output := AppendSectionHeadings(output, sections.elems);
      }
      i := i + 1;
    }
    r := Normal(output);
  }

  /** `formatObjectAsDocument`, appending to `output` as the JavaScript does. */
  method FormatObjectAsDocument(obj: Json) returns (r: Completion<string>)
    ensures r == FormatObject(obj)
    decreases obj
  {
    if obj.JStr? {
      return Normal(obj.s);
    }
    if !JsTruthy(obj) || !IsObject(obj) {
      return Normal("");
    }
    var converted := ConvertJsonToReadableDocument(obj);
    if converted.Throw? {
      return Throw;
    }
    var output := converted.value;
    if Units(output) < 50 {
      var ds := Get(obj, "deliverables");
      if JsTruthy(ds) && ds.JArr? {
        var c := AppendNamedDeliverables(output, ds.elems);
        if c.Throw? {
          return Throw;
        }
        output := c.value;
      }
      var summary := Get(obj, "execution_summary");
      if JsTruthy(summary) && JsTruthy(Get(summary, "overview")) {
        output := output + "## Execution Summary\n\n" + JsString(Get(summary, "overview")) + "\n\n";
      }
    }
    assert OwnRendering(obj) == Normal(output);
    if Units(output) < 50 {
      if JsTruthy(Get(obj, "improved_deliverables")) {
        r := FormatObjectAsDocument(Get(obj, "improved_deliverables"));
        return;
      }
      if JsTruthy(Get(obj, "refined_deliverables")) {
        r := FormatObjectAsDocument(Get(obj, "refined_deliverables"));
        return;
      }
    }
    r := Normal(JsTrim(output));
  }

  // ----- extractContentFromObject (docs/js/app-base.js:899-956) -----

  /** The keys probed first, in order. */
  const ContentKeys: seq<string> :=
    ["refined_deliverables", "deliverables", "document", "content", "proposal", "text",
     "output", "result", "plan", "research", "review"]

  /** `extractContentFromObject(obj, convertToText)`. */
  function ContentFromObject(obj: Json, convertToText: bool): Completion<string>
    decreases obj, 2, 0
  {
    if !JsTruthy(obj) then Normal("")
    else
      match (if convertToText then ReadableDocument(obj) else Normal(""))
      case Throw => Throw
      case Normal(converted) =>
        if converted != "" && Units(converted) > 100 then Normal(converted)
        else ScanResult(obj, convertToText, converted)
  }

  /** The key scan, the entry scan and the final fallback, from the conversion
      `converted`. */
  function ScanResult(obj: Json, convertToText: bool, converted: string): Completion<string>
    decreases obj, 1, |ContentKeys| + 2
  {
    match KeyPass(obj, convertToText, ContentKeys, converted)
    case Throw => Throw
    case Normal(c1) => EntryStage(obj, convertToText, c1)
  }

  /** The entry scan, when the key scan found less than 50 units, then the fallback. */
  function EntryStage(obj: Json, convertToText: bool, c1: string): Completion<string>
    decreases obj, 1, |ContentKeys| + 1
  {
    match (if Units(c1) < 50 then EntryPass(obj, convertToText, EntryValues(obj), c1) else Normal(c1))
    case Throw => Throw
    case Normal(c2) => if Units(c2) < 50 then FormatObject(obj) else Normal(c2)
  }

  /** The loop over `contentKeys`, from the content found so far. */
  function KeyPass(obj: Json, convertToText: bool, keys: seq<string>, content: string): Completion<string>
    decreases obj, 1, |keys|
  {
    if keys == [] then Normal(content)
    else
      var v := Get(obj, keys[0]);
      var next :=
        if !JsTruthy(v) then Normal(content)
        else if v.JStr? then Normal(Pick(v.s, content))
        else if IsObject(v) then
          match ContentFromObject(v, convertToText)
          case Throw => Throw
          case Normal(nested) => Normal(Pick(nested, content))
        else Normal(content);
      match next
      case Throw => Throw
      case Normal(c) => KeyPass(obj, convertToText, keys[1..], c)
  }

  /** The loop over `Object.entries(obj)`, from the content found so far. */
  function EntryPass(ghost obj: Json, convertToText: bool, values: seq<Json>, content: string): Completion<string>
    requires forall k :: 0 <= k < |values| && IsObject(values[k]) ==> values[k] < obj
    decreases obj, 0, |values|
  {
    if values == [] then Normal(content)
    else
      var v := values[0];
      var next :=
        if v.JStr? && Units(v.s) > 100 then Normal(Pick(v.s, content))
        else if IsObject(v) then
          match ContentFromObject(v, convertToText)
          case Throw => Throw
          case Normal(nested) => Normal(Pick(nested, content))
        else Normal(content);
      match next
      case Throw => Throw
      case Normal(c) => EntryPass(obj, convertToText, values[1..], c)
  }

  /** The key pass never shortens the content and ends at least as long as every
      string stored under one of the keys it probes. */
  lemma {:induction false} KeyPassBound(obj: Json, convertToText: bool, keys: seq<string>, content: string)
    ensures KeyPass(obj, convertToText, keys, content).Normal? ==>
              Units(content) <= Units(KeyPass(obj, convertToText, keys, content).value)
    ensures KeyPass(obj, convertToText, keys, content).Normal? ==>
              forall i :: 0 <= i < |keys| && Get(obj, keys[i]).JStr? ==>
                Units(Get(obj, keys[i]).s) <= Units(KeyPass(obj, convertToText, keys, content).value)
    decreases |keys|
  {
    if keys != [] {
      var v := Get(obj, keys[0]);
      var next :=
        if !JsTruthy(v) then Normal(content)
        else if v.JStr? then Normal(Pick(v.s, content))
        else if IsObject(v) then
          match ContentFromObject(v, convertToText)
          case Throw => Throw
          case Normal(nested) => Normal(Pick(nested, content))
        else Normal(content);
      if next.Normal? {
        assert KeyPass(obj, convertToText, keys, content) == KeyPass(obj, convertToText, keys[1..], next.value);
        KeyPassBound(obj, convertToText, keys[1..], next.value);
        if v.JStr? && !JsTruthy(v) {
          UnitsBounds(v.s);
        }
        forall i | 1 <= i < |keys| && Get(obj, keys[i]).JStr? && KeyPass(obj, convertToText, keys, content).Normal?
          ensures Units(Get(obj, keys[i]).s) <= Units(KeyPass(obj, convertToText, keys, content).value)
        {
          assert keys[i] == keys[1..][i - 1];
        }
      }
    }
  }

  /** A string of at least 50 units under a content key bounds the result from below,
      unless a conversion longer than 100 units was returned first. */
  lemma ContentKeyBound(obj: Json, convertToText: bool, i: nat)
    requires i < |ContentKeys| && Get(obj, ContentKeys[i]).JStr? && Units(Get(obj, ContentKeys[i]).s) >= 50
    requires ContentFromObject(obj, convertToText).Normal?
    ensures var r := ContentFromObject(obj, convertToText).value;
            Units(Get(obj, ContentKeys[i]).s) <= Units(r)
            || (convertToText && r == ReadableDocument(obj).value && Units(r) > 100)
  {
    var s := Get(obj, ContentKeys[i]).s;
    assert Get(obj, ContentKeys[i]) != JNull;
    if !convertToText || ReadableDocument(obj).value == "" || Units(ReadableDocument(obj).value) <= 100 {
      var converted := if convertToText then ReadableDocument(obj).value else "";
      assert ContentFromObject(obj, convertToText) == ScanResult(obj, convertToText, converted);
      var c1 := KeyPass(obj, convertToText, ContentKeys, converted);
      assert c1.Normal?;
      KeyPassBound(obj, convertToText, ContentKeys, converted);
      assert EntryStage(obj, convertToText, c1.value) == Normal(c1.value);
    }
  }

  /** A conversion longer than 100 units is returned as it is. */
  lemma LongConversionWins(obj: Json)
    requires ReadableDocument(obj).Normal? && Units(ReadableDocument(obj).value) > 100
    ensures ContentFromObject(obj, true) == ReadableDocument(obj)
  {
    UnitsBounds(ReadableDocument(obj).value);
  }

  /** `extractContentFromObject`, accumulating into `content` as the JavaScript does. */
  method ExtractContentFromObject(obj: Json, convertToText: bool) returns (r: Completion<string>)
    ensures r == ContentFromObject(obj, convertToText)
    decreases obj, 2
  {
    if !JsTruthy(obj) {
      return Normal("");
    }
    var content := "";
    if convertToText {
      var converted := ConvertJsonToReadableDocument(obj);
      if converted.Throw? {
        return Throw;
      }
      content := converted.value;
      if content != "" && Units(content) > 100 {
        return Normal(content);
      }
    }
    r := ScanForContent(obj, convertToText, content);
  }

  /** The rest of `extractContentFromObject` once the conversion is done. */
  method ScanForContent(obj: Json, convertToText: bool, start: string) returns (r: Completion<string>)
    ensures r == ScanResult(obj, convertToText, start)
    decreases obj, 1, 2
  {
    var c := ScanContentKeys(obj, convertToText, start);
    if c.Throw? {
      return Throw;
    }
    r := FinishScan(obj, convertToText, c.value);
  }

  /** The loop over the entries when needed, then the fallback. */
  method FinishScan(obj: Json, convertToText: bool, start: string) returns (r: Completion<string>)
    ensures r == EntryStage(obj, convertToText, start)
    decreases obj, 1, 1
  {
    var content := start;
    var c: Completion<string>;
    if Units(content) < 50 {
      c := ScanEntries(obj, convertToText, content);
      if c.Throw? {
        return Throw;
      }
      content := c.value;
    }
    if Units(content) < 50 {
      r := FormatObjectAsDocument(obj);
      return;
    }
    r := Normal(content);
  }

  /** The loop over `contentKeys`. */
  method ScanContentKeys(obj: Json, convertToText: bool, start: string) returns (r: Completion<string>)
    ensures r == KeyPass(obj, convertToText, ContentKeys, start)
    decreases obj, 1, 0
  {
    var content := start;
    var keys := ContentKeys;
    var i := 0;
    assert keys[i..] == keys;
    while i < |keys|
      invariant 0 <= i <= |keys|
      invariant KeyPass(obj, convertToText, keys[i..], content) == KeyPass(obj, convertToText, ContentKeys, start)
    {
      var key := keys[i];
      assert keys[i..][0] == key && keys[i..][1..] == keys[i + 1..];
      var v := Get(obj, key);
      if JsTruthy(v) {
        if v.JStr? {
          if Units(v.s) > Units(content) {
            content := v.s;
          }
        } else if IsObject(v) {
          var nested := ExtractContentFromObject(v, convertToText);
          if nested.Throw? {
            return Throw;
          }
          if Units(nested.value) > Units(content) {
            content := nested.value;
          }
        }
      }
      i := i + 1;
    }
    r := Normal(content);
  }

  /** The loop over `Object.entries(obj)`. */
  method ScanEntries(obj: Json, convertToText: bool, start: string) returns (r: Completion<string>)
    ensures r == EntryPass(obj, convertToText, EntryValues(obj), start)
    decreases obj, 1, 0
  {
    var content := start;
    var values := EntryValues(obj);
    var j := 0;
    assert values[j..] == values;
    while j < |values|
      invariant 0 <= j <= |values|
      invariant EntryPass(obj, convertToText, values[j..], content) == EntryPass(obj, convertToText, values, start)
    {
      var value := values[j];
      assert values[j..][0] == value && values[j..][1..] == values[j + 1..];
      if value.JStr? && Units(value.s) > 100 {
        if Units(value.s) > Units(content) {
          content := value.s;
        }
      } else if IsObject(value) {
        var nested := ExtractContentFromObject(value, convertToText);
        if nested.Throw? {
          return Throw;
        }
        if Units(nested.value) > Units(content) {
          content := nested.value;
        }
      }
      j := j + 1;
    }
    r := Normal(content);
  }
}
