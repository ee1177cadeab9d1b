/**
  The structured converters of docs/js/app-base.js: the live
  `convertJsonToReadableDocument` (the second declaration, which replaces the first
  in a classic script) and `formatJsonAsDocument`, used by the markdown renderer.

  Both build their text by appending to a running `doc`, so the specification is
  written the same way: every step is a function from the text so far to the text
  after it, and `Loop` runs such a step over the items of a `for...of`.  The methods
  perform the appends with loops, as the JavaScript does, and are proved equal to the
  specification functions.
 */
module DocumentConverter {
  import opened Text
  import opened JsonValue

  /** `if (v) doc += `${before}${v}${after}``. */
  function AddIf(doc: string, v: Json, before: string, after: string): (r: string)
    ensures StartsWith(r, doc)
    ensures !JsTruthy(v) ==> r == doc
  {
    if JsTruthy(v) then
      assert (doc + before + JsString(v) + after)[..|doc|] == doc;
      doc + before + JsString(v) + after
    else doc
  }

  /** `if (v) doc += `${v}\n\n``. */
  function AddText(doc: string, v: Json): (r: string)
    ensures StartsWith(r, doc)
    ensures !JsTruthy(v) ==> r == doc
  {
    if JsTruthy(v) then
      assert (doc + JsString(v) + "\n\n")[..|doc|] == doc;
      doc + JsString(v) + "\n\n"
    else doc
  }

  /** A `for...of` whose body appends to `doc` and may throw: the first throw ends it. */
  function Loop(doc: string, items: seq<Json>, step: (string, Json) -> Completion<string>): Completion<string>
    decreases |items|
  {
    if items == [] then Normal(doc)
    else
      match step(doc, items[0])
      case Throw => Throw
      case Normal(next) => Loop(next, items[1..], step)
  }

  /** A `for...of` whose body appends to `doc` and cannot throw. */
  function TextLoop(doc: string, items: seq<Json>, step: (string, Json) -> string): string
    decreases |items|
  {
    if items == [] then doc else TextLoop(step(doc, items[0]), items[1..], step)
  }

  /** A loop whose body throws on a `null` item throws when any item is `null`. */
  lemma {:induction false} LoopThrowsOnNull(doc: string, items: seq<Json>, step: (string, Json) -> Completion<string>, k: nat)
    requires k < |items| && items[k] == JNull
    requires forall d :: step(d, JNull).Throw?
    ensures Loop(doc, items, step).Throw?
    decreases k
  {
    if k > 0 && step(doc, items[0]).Normal? {
      LoopThrowsOnNull(step(doc, items[0]).value, items[1..], step, k - 1);
    }
  }

  /** A property of the text that every loop step keeps holds of the loop's result. */
  lemma {:induction false} LoopPreserves(doc: string, items: seq<Json>, step: (string, Json) -> Completion<string>, p: string -> bool)
    requires forall d, x :: p(d) && step(d, x).Normal? ==> p(step(d, x).value)
    ensures p(doc) && Loop(doc, items, step).Normal? ==> p(Loop(doc, items, step).value)
    decreases |items|
  {
    if items != [] && step(doc, items[0]).Normal? {
      LoopPreserves(step(doc, items[0]).value, items[1..], step, p);
    }
  }

  lemma StartsWithTrans(a: string, b: string, c: string)
    requires StartsWith(a, b) && StartsWith(b, c)
    ensures StartsWith(a, c)
  {
    assert a[..|c|] == b[..|c|];
  }

  /** A loop whose every step only appends keeps the text it started from as a prefix. */
  lemma LoopExtends(doc: string, items: seq<Json>, step: (string, Json) -> Completion<string>)
    requires forall d, x :: step(d, x).Normal? ==> StartsWith(step(d, x).value, d)
    ensures Loop(doc, items, step).Normal? ==> StartsWith(Loop(doc, items, step).value, doc)
  {
    var p := (d: string) => StartsWith(d, doc);
    forall d, x | p(d) && step(d, x).Normal? ensures p(step(d, x).value) {
      StartsWithTrans(step(d, x).value, d, doc);
    }
    LoopPreserves(doc, items, step, p);
  }

  // ----- convertJsonToReadableDocument (docs/js/app-base.js:959-1068) -----

  /** One item of `deliverable.sections` in the improved summary. */
  function ImprovedSectionStep(doc: string, section: Json): (r: string)
    ensures StartsWith(r, doc)
  {
    if section.JStr? then
      assert (doc + "## " + section.s + "\n\n")[..|doc|] == doc;
      doc + "## " + section.s + "\n\n"
    else if JsTruthy(section) && IsObject(section) then
      var d1 := AddIf(doc, Get(section, "section"), "## ", "\n\n");
      var d2 := AddText(d1, Get(section, "placeholder_guidance"));
      var d3 := AddText(d2, Get(section, "completion_notes"));
      StartsWithTrans(d3, d2, doc);
      StartsWithTrans(AddText(d3, Get(section, "content")), d3, doc);
      AddText(d3, Get(section, "content"))
    else doc
  }

  lemma TextLoopExtends(doc: string, items: seq<Json>)
    ensures StartsWith(TextLoop(doc, items, ImprovedSectionStep), doc)
    decreases |items|
  {
    if items != [] {
      var next := ImprovedSectionStep(doc, items[0]);
      TextLoopExtends(next, items[1..]);
      StartsWithTrans(TextLoop(next, items[1..], ImprovedSectionStep), next, doc);
    }
  }

  /** One item of `improved.execution_summary.deliverables`; reading `.name` of `null` throws. */
  function ImprovedDeliverableStep(doc: string, d: Json): (r: Completion<string>)
    ensures r.Normal? ==> StartsWith(r.value, doc)
  {
    if d == JNull then Throw
    else
      var d1 := AddIf(doc, Get(d, "name"), "# ", "\n\n");
      var d2 := AddText(d1, Get(d, "notes"));
      var sections := Get(d, "sections");
      StartsWithTrans(d2, d1, doc);
      TextLoopExtends(d2, if sections.JArr? then sections.elems else []);
      StartsWithTrans(TextLoop(d2, if sections.JArr? then sections.elems else [], ImprovedSectionStep), d2, doc);
      Normal(if JsTruthy(sections) && sections.JArr? then TextLoop(d2, sections.elems, ImprovedSectionStep) else d2)
  }

  /** The wrapper chosen by `obj.improved_deliverables || obj.refined_deliverables`. */
  function Improved(obj: Json): Json {
    var improved := Get(obj, "improved_deliverables");
    if JsTruthy(improved) then improved else Get(obj, "refined_deliverables")
  }

  /** The text rendered from `improved.execution_summary`, the first block of the document. */
  function ImprovedBlock(obj: Json): Completion<string> {
    var improved := Improved(obj);
    if !JsTruthy(improved) || !JsTruthy(Get(improved, "execution_summary")) then Normal("")
    else
      var summary := Get(improved, "execution_summary");
      var intro := AddText("", Get(summary, "overview"));
      var ds := Get(summary, "deliverables");
      if JsTruthy(ds) && ds.JArr? then Loop(intro, ds.elems, ImprovedDeliverableStep) else Normal(intro)
  }

  /** The `# overview` heading of the execution summary: the overview ends up in the
      document exactly when it is truthy, and is never written a second time. */
  function AddOverview(doc: string, overview: Json): (r: string)
    ensures StartsWith(r, doc)
    ensures JsTruthy(overview) ==> Contains(r, JsString(overview))
    ensures Contains(doc, JsString(overview)) || !JsTruthy(overview) ==> r == doc
  {
    if JsTruthy(overview) && !Contains(doc, JsString(overview)) then
      var r := doc + "# " + JsString(overview) + "\n\n";
      assert r[..|doc|] == doc;
      assert r[|doc| + 2..|doc| + 2 + |JsString(overview)|] == JsString(overview);
      ContainsAt(r, JsString(overview), |doc| + 2);
      r
    else doc
  }

  /** One item of `obj.execution_summary.deliverables`. */
  function SummaryDeliverableStep(doc: string, d: Json): (r: Completion<string>)
    ensures r.Normal? ==> StartsWith(r.value, doc)
  {
    if d == JNull then Throw
    else
      var d1 := AddIf(doc, Get(d, "name"), "## ", "\n\n");
      StartsWithTrans(AddText(d1, Get(d, "notes")), d1, doc);
      Normal(AddText(d1, Get(d, "notes")))
  }

  /** The execution-summary block appended to `doc`. */
  function SummaryInto(obj: Json, doc: string): Completion<string> {
    var summary := Get(obj, "execution_summary");
    if !JsTruthy(summary) then Normal(doc)
    else
      var d1 := AddOverview(doc, Get(summary, "overview"));
      var ds := Get(summary, "deliverables");
      if JsTruthy(ds) && ds.JArr? then Loop(d1, ds.elems, SummaryDeliverableStep) else Normal(d1)
  }

  /** One item of `obj.key_decisions`. */
  function DecisionStep(doc: string, d: Json): (r: Completion<string>)
    ensures r.Normal? ==> StartsWith(r.value, doc)
  {
    if d == JNull then Throw
    else
      var d1 := AddIf(doc, Get(d, "decision"), "### ", "\n\n");
      var d2 := AddIf(d1, Get(d, "rationale"), "**Rationale:** ", "\n\n");
      StartsWithTrans(d2, d1, doc);
      StartsWithTrans(AddIf(d2, Get(d, "impact"), "**Impact:** ", "\n\n"), d2, doc);
      Normal(AddIf(d2, Get(d, "impact"), "**Impact:** ", "\n\n"))
  }

  const KeyDecisionsHeading := "## Key Decisions\n\n"

  /** The key-decisions block appended to `doc`. */
  function DecisionsInto(obj: Json, doc: string): Completion<string> {
    var decisions := Get(obj, "key_decisions");
    if JsTruthy(decisions) && decisions.JArr? then Loop(doc + KeyDecisionsHeading, decisions.elems, DecisionStep)
    else Normal(doc)
  }

  /** `action.priority || 'Normal'`. */
  function Priority(a: Json): string {
    if JsTruthy(Get(a, "priority")) then JsString(Get(a, "priority")) else "Normal"
  }

  /** One item of `obj.progress_notes.next_immediate_actions`. */
  function ActionStep(doc: string, a: Json): (r: Completion<string>)
    ensures r.Normal? ==> StartsWith(r.value, doc)
  {
    if a == JNull then Throw
    else if JsTruthy(Get(a, "action")) then
      var line := doc + "- **" + Priority(a) + " Priority:** " + JsString(Get(a, "action"));
      var r := AddIf(line, Get(a, "timeframe"), " (", ")") + "\n";
      assert line[..|doc|] == doc;
      assert r[..|line|] == AddIf(line, Get(a, "timeframe"), " (", ")")[..|line|];
      Normal(r)
    else Normal(doc)
  }

  const NextActionsHeading := "## Next Immediate Actions\n\n"

  /** The progress-notes block appended to `doc`. */
  function ProgressInto(obj: Json, doc: string): Completion<string> {
    var notes := Get(obj, "progress_notes");
    if !JsTruthy(notes) then Normal(doc)
    else
      var d1 := AddIf(doc, Get(notes, "completed_work"), "## Completed Work\n\n", "\n\n");
      var d2 := AddIf(d1, Get(notes, "remaining_work"), "## Remaining Work\n\n", "\n\n");
      var actions := Get(notes, "next_immediate_actions");
      if JsTruthy(actions) && actions.JArr? then
        match Loop(d2 + NextActionsHeading, actions.elems, ActionStep)
        case Throw => Throw
        case Normal(d3) => Normal(d3 + "\n")
      else Normal(d2)
  }

  /** The effective `convertJsonToReadableDocument(obj)`: the improved or refined
      execution summary, then the execution summary, then the key decisions, then the
      progress notes, trimmed; `''` for a falsy or non-object argument. */
  function ReadableDocument(obj: Json): (r: Completion<string>)
    ensures !JsTruthy(obj) || !IsObject(obj) ==> r == Normal("")
    ensures r.Normal? ==> Trimmed(Js, r.value)
  {
    if !JsTruthy(obj) || !IsObject(obj) then Normal("")
    else
      match ImprovedBlock(obj)
      case Throw => Throw
      case Normal(a) =>
        match SummaryInto(obj, a)
        case Throw => Throw
        case Normal(b) =>
          match DecisionsInto(obj, b)
          case Throw => Throw
          case Normal(c) =>
            match ProgressInto(obj, c)
            case Throw => Throw
            case Normal(d) =>
              TrimShape(Js, d);
              Normal(JsTrim(d))
  }

  /** The loop over `deliverable.sections` of one improved deliverable. */
  method AppendSections(doc: string, sections: seq<Json>) returns (out: string)
    ensures out == TextLoop(doc, sections, ImprovedSectionStep)
  {
    out := doc;
    var j := 0;
    assert sections[j..] == sections;
    while j < |sections|
      invariant 0 <= j <= |sections|
      invariant TextLoop(out, sections[j..], ImprovedSectionStep) == TextLoop(doc, sections, ImprovedSectionStep)
    {
      var section := sections[j];
      assert sections[j..][0] == section && sections[j..][1..] == sections[j + 1..];
      if section.JStr? {
        out := out + "## " + section.s + "\n\n";
      } else if JsTruthy(section) && IsObject(section) {
        if JsTruthy(Get(section, "section")) {
          out := out + "## " + JsString(Get(section, "section")) + "\n\n";
        }
        if JsTruthy(Get(section, "placeholder_guidance")) {
          out := out + JsString(Get(section, "placeholder_guidance")) + "\n\n";
        }
        if JsTruthy(Get(section, "completion_notes")) {
          out := out + JsString(Get(section, "completion_notes")) + "\n\n";
        }
        if JsTruthy(Get(section, "content")) {
          out := out + JsString(Get(section, "content")) + "\n\n";
        }
      }
      j := j + 1;
    }
  }

  /** The loop over `improved.execution_summary.deliverables`. */
  method AppendImprovedDeliverables(doc: string, items: seq<Json>) returns (r: Completion<string>)
    ensures r == Loop(doc, items, ImprovedDeliverableStep)
  {
    var out := doc;
    var i := 0;
    assert items[i..] == items;
    while i < |items|
      invariant 0 <= i <= |items|
      invariant Loop(out, items[i..], ImprovedDeliverableStep) == Loop(doc, items, ImprovedDeliverableStep)
    {
      var deliverable := items[i];
      assert items[i..][0] == deliverable && items[i..][1..] == items[i + 1..];
      if deliverable == JNull {
        return Throw;
      }
      if JsTruthy(Get(deliverable, "name")) {
        out := out + "# " + JsString(Get(deliverable, "name")) + "\n\n";
      }
      if JsTruthy(Get(deliverable, "notes")) {
        out := out + JsString(Get(deliverable, "notes")) + "\n\n";
      }
      var sections := Get(deliverable, "sections");
      if JsTruthy(sections) && sections.JArr? {
        out := AppendSections(out, sections.elems);
      }
      i := i + 1;
    }
    r := Normal(out);
  }

  /** The block for `obj.improved_deliverables || obj.refined_deliverables`. */
  method AppendImproved(obj: Json) returns (r: Completion<string>)
    ensures r == ImprovedBlock(obj)
  {
    var doc := "";
    if JsTruthy(Get(obj, "refined_deliverables")) || JsTruthy(Get(obj, "improved_deliverables")) {
      var improved := if JsTruthy(Get(obj, "improved_deliverables")) then Get(obj, "improved_deliverables")
                      else Get(obj, "refined_deliverables");
      if JsTruthy(improved) && JsTruthy(Get(improved, "execution_summary")) {
        var summary := Get(improved, "execution_summary");
        if JsTruthy(Get(summary, "overview")) {
          doc := doc + JsString(Get(summary, "overview")) + "\n\n";
        }
        var ds := Get(summary, "deliverables");
        if JsTruthy(ds) && ds.JArr? {
          r := AppendImprovedDeliverables(doc, ds.elems);
          return;
        }
      }
    }
    r := Normal(doc);
  }

  /** The block for `obj.execution_summary`. */
  method AppendSummary(obj: Json, doc: string) returns (r: Completion<string>)
    ensures r == SummaryInto(obj, doc)
  {
    var out := doc;
    if JsTruthy(Get(obj, "execution_summary")) {
      var summary := Get(obj, "execution_summary");
      if JsTruthy(Get(summary, "overview")) && !Contains(out, JsString(Get(summary, "overview"))) {
        out := out + "# " + JsString(Get(summary, "overview")) + "\n\n";
      }
      var ds := Get(summary, "deliverables");
      if JsTruthy(ds) && ds.JArr? {
        var items := ds.elems;
        var i := 0;
        assert items[i..] == items;
        while i < |items|
          invariant 0 <= i <= |items|
          invariant Loop(out, items[i..], SummaryDeliverableStep) == SummaryInto(obj, doc)
        {
          var deliverable := items[i];
          assert items[i..][0] == deliverable && items[i..][1..] == items[i + 1..];
          if deliverable == JNull {
            return Throw;
          }
          ghost var before := out;
          if JsTruthy(Get(deliverable, "name")) {
            out := out + "## " + JsString(Get(deliverable, "name")) + "\n\n";
          }
          if JsTruthy(Get(deliverable, "notes")) {
            out := out + JsString(Get(deliverable, "notes")) + "\n\n";
          }
          assert SummaryDeliverableStep(before, deliverable) == Normal(out);
          i := i + 1;
        }
      }
    }
    r := Normal(out);
  }

  /** The block for `obj.key_decisions`. */
  method AppendDecisions(obj: Json, doc: string) returns (r: Completion<string>)
    ensures r == DecisionsInto(obj, doc)
  {
    var out := doc;
    var decisions := Get(obj, "key_decisions");
    if JsTruthy(decisions) && decisions.JArr? {
      out := out + KeyDecisionsHeading;
      var items := decisions.elems;
      var i := 0;
      assert items[i..] == items;
      while i < |items|
        invariant 0 <= i <= |items|
        invariant Loop(out, items[i..], DecisionStep) == DecisionsInto(obj, doc)
      {
        var decision := items[i];
        assert items[i..][0] == decision && items[i..][1..] == items[i + 1..];
        if decision == JNull {
          return Throw;
        }
        ghost var before := out;
        if JsTruthy(Get(decision, "decision")) {
          out := out + "### " + JsString(Get(decision, "decision")) + "\n\n";
        }
        if JsTruthy(Get(decision, "rationale")) {
          out := out + "**Rationale:** " + JsString(Get(decision, "rationale")) + "\n\n";
        }
        if JsTruthy(Get(decision, "impact")) {
          out := out + "**Impact:** " + JsString(Get(decision, "impact")) + "\n\n";
        }
        assert DecisionStep(before, decision) == Normal(out);
        i := i + 1;
      }
    }
    r := Normal(out);
  }

  /** The block for `obj.progress_notes`. */
  method AppendProgress(obj: Json, doc: string) returns (r: Completion<string>)
    ensures r == ProgressInto(obj, doc)
  {
    var out := doc;
    var notes := Get(obj, "progress_notes");
    if JsTruthy(notes) {
      if JsTruthy(Get(notes, "completed_work")) {
        out := out + "## Completed Work\n\n" + JsString(Get(notes, "completed_work")) + "\n\n";
      }
      if JsTruthy(Get(notes, "remaining_work")) {
        out := out + "## Remaining Work\n\n" + JsString(Get(notes, "remaining_work")) + "\n\n";
      }
      var actions := Get(notes, "next_immediate_actions");
      if JsTruthy(actions) && actions.JArr? {
        out := out + NextActionsHeading;
        var items := actions.elems;
        var i := 0;
        ghost var start := out;
        assert items[i..] == items;
        while i < |items|
          invariant 0 <= i <= |items|
          invariant Loop(out, items[i..], ActionStep) == Loop(start, items, ActionStep)
        {
          var action := items[i];
          assert items[i..][0] == action && items[i..][1..] == items[i + 1..];
          if action == JNull {
            return Throw;
          }
          if JsTruthy(Get(action, "action")) {
            out := out + "- **" + Priority(action) + " Priority:** " + JsString(Get(action, "action"));
            if JsTruthy(Get(action, "timeframe")) {
              out := out + " (" + JsString(Get(action, "timeframe")) + ")";
            }
            out := out + "\n";
          }
          i := i + 1;
        }
        out := out + "\n";
      }
    }
    r := Normal(out);
  }

  /** `convertJsonToReadableDocument`: the four blocks in order, then `doc.trim()`. */
  method ConvertJsonToReadableDocument(obj: Json) returns (r: Completion<string>)
    ensures r == ReadableDocument(obj)
  {
    if !JsTruthy(obj) || !IsObject(obj) {
      return Normal("");
    }
    var doc := AppendImproved(obj);
    if doc.Throw? {
      return Throw;
    }
    doc := AppendSummary(obj, doc.value);
    if doc.Throw? {
      return Throw;
    }
    doc := AppendDecisions(obj, doc.value);
    if doc.Throw? {
      return Throw;
    }
    doc := AppendProgress(obj, doc.value);
    if doc.Throw? {
      return Throw;
    }
    r := Normal(JsTrim(doc.value));
  }

  // ----- properties of the live converter -----

  lemma SummaryExtends(obj: Json, doc: string)
    ensures SummaryInto(obj, doc).Normal? ==> StartsWith(SummaryInto(obj, doc).value, doc)
  {
    var summary := Get(obj, "execution_summary");
    if JsTruthy(summary) {
      var d1 := AddOverview(doc, Get(summary, "overview"));
      var ds := Get(summary, "deliverables");
      if JsTruthy(ds) && ds.JArr? {
        LoopExtends(d1, ds.elems, SummaryDeliverableStep);
        if Loop(d1, ds.elems, SummaryDeliverableStep).Normal? {
          StartsWithTrans(Loop(d1, ds.elems, SummaryDeliverableStep).value, d1, doc);
        }
      }
    }
  }

  lemma DecisionsExtend(obj: Json, doc: string)
    ensures DecisionsInto(obj, doc).Normal? ==>
              (StartsWith(DecisionsInto(obj, doc).value, doc + KeyDecisionsHeading) || DecisionsInto(obj, doc) == Normal(doc))
    ensures Get(obj, "key_decisions").JArr? && DecisionsInto(obj, doc).Normal? ==>
              StartsWith(DecisionsInto(obj, doc).value, doc + KeyDecisionsHeading)
  {
    var decisions := Get(obj, "key_decisions");
    if JsTruthy(decisions) && decisions.JArr? {
      LoopExtends(doc + KeyDecisionsHeading, decisions.elems, DecisionStep);
    }
  }

  lemma ProgressExtends(obj: Json, doc: string)
    ensures ProgressInto(obj, doc).Normal? ==> StartsWith(ProgressInto(obj, doc).value, doc)
  {
    var notes := Get(obj, "progress_notes");
    if JsTruthy(notes) {
      var d1 := AddIf(doc, Get(notes, "completed_work"), "## Completed Work\n\n", "\n\n");
      var d2 := AddIf(d1, Get(notes, "remaining_work"), "## Remaining Work\n\n", "\n\n");
      StartsWithTrans(d2, d1, doc);
      var actions := Get(notes, "next_immediate_actions");
      if JsTruthy(actions) && actions.JArr? {
        var start := d2 + NextActionsHeading;
        assert start[..|d2|] == d2;
        StartsWithTrans(start, d2, doc);
        LoopExtends(start, actions.elems, ActionStep);
        match Loop(start, actions.elems, ActionStep)
        case Throw =>
        case Normal(d3) =>
          StartsWithTrans(d3, start, doc);
          assert (d3 + "\n")[..|d3|] == d3;
          StartsWithTrans(d3 + "\n", d3, doc);
      }
    }
  }

  /** The document is the four blocks appended in their fixed order (improved summary,
      execution summary, key decisions, progress notes), each only adding to the text
      written before it, and then trimmed. */
  lemma BlocksInOrder(obj: Json)
    requires JsTruthy(obj) && IsObject(obj) && ReadableDocument(obj).Normal?
    ensures exists a, b, c, d ::
              ImprovedBlock(obj) == Normal(a) && SummaryInto(obj, a) == Normal(b)
              && DecisionsInto(obj, b) == Normal(c) && ProgressInto(obj, c) == Normal(d)
              && StartsWith(b, a) && StartsWith(c, b) && StartsWith(d, c)
              && ReadableDocument(obj) == Normal(JsTrim(d))
  {
    assert ImprovedBlock(obj).Normal?;
    var a := ImprovedBlock(obj).value;
    assert SummaryInto(obj, a).Normal?;
    var b := SummaryInto(obj, a).value;
    assert DecisionsInto(obj, b).Normal?;
    var c := DecisionsInto(obj, b).value;
    assert ProgressInto(obj, c).Normal?;
    var d := ProgressInto(obj, c).value;
    assert ReadableDocument(obj) == Normal(JsTrim(d));
    BlocksExtend(obj, a, b, c, d);
  }

  /** Each block of the document only appends to the text before it. */
  lemma BlocksExtend(obj: Json, a: string, b: string, c: string, d: string)
    requires SummaryInto(obj, a) == Normal(b) && DecisionsInto(obj, b) == Normal(c) && ProgressInto(obj, c) == Normal(d)
    ensures StartsWith(b, a) && StartsWith(c, b) && StartsWith(d, c)
  {
    SummaryExtends(obj, a);
    DecisionsExtend(obj, b);
    if c != b {
      assert (b + KeyDecisionsHeading)[..|b|] == b;
      StartsWithTrans(c, b + KeyDecisionsHeading, b);
    }
    ProgressExtends(obj, c);
  }

  /** Text that extends `b` followed by the key-decisions heading shows the heading once trimmed. */
  lemma HeadingSurvivesTrim(b: string, c: string, d: string)
    requires StartsWith(c, b + KeyDecisionsHeading) && StartsWith(d, c)
    ensures Contains(JsTrim(d), "## Key Decisions")
  {
    var heading := b + KeyDecisionsHeading;
    StartsWithTrans(d, c, heading);
    var t := "## Key Decisions";
    assert KeyDecisionsHeading == t + "\n\n";
    assert d[|b|..|b| + |t|] == t by {
      assert d[..|heading|] == heading;
      assert d[|b|..|b| + |t|] == d[..|heading|][|b|..|b| + |t|];
      assert heading == b + t + "\n\n";
      assert heading[|b|..|b| + |t|] == t;
    }
    assert t[0] == '#' && t[|t| - 1] == 's';
    TrimKeepsInner(Js, d, t, |b|);
  }

  /** An array of key decisions always yields a "## Key Decisions" heading in the document. */
  lemma KeyDecisionsHeadingShown(obj: Json)
    requires JsTruthy(obj) && IsObject(obj) && Get(obj, "key_decisions").JArr?
    requires ReadableDocument(obj).Normal?
    ensures Contains(ReadableDocument(obj).value, "## Key Decisions")
  {
    var a := ImprovedBlock(obj).value;
    var b := SummaryInto(obj, a).value;
    var c := DecisionsInto(obj, b).value;
    var d := ProgressInto(obj, c).value;
    assert ReadableDocument(obj).value == JsTrim(d);
    DecisionsExtend(obj, b);
    ProgressExtends(obj, c);
    HeadingSurvivesTrim(b, c, d);
  }

  /** A `null` entry in an array of key decisions makes the conversion throw. */
  lemma NullDecisionThrows(obj: Json, k: nat)
    requires JsTruthy(obj) && IsObject(obj)
    requires Get(obj, "key_decisions").JArr? && k < |Get(obj, "key_decisions").elems|
    requires Get(obj, "key_decisions").elems[k] == JNull
    ensures ReadableDocument(obj) == Throw
  {
    if ImprovedBlock(obj).Normal? && SummaryInto(obj, ImprovedBlock(obj).value).Normal? {
      var b := SummaryInto(obj, ImprovedBlock(obj).value).value;
      LoopThrowsOnNull(b + KeyDecisionsHeading, Get(obj, "key_decisions").elems, DecisionStep, k);
    }
  }

  // ----- formatJsonAsDocument (docs/js/app-base.js:1272-1323) -----

  /** Text that is empty or ends with a blank line, as every append of `formatJsonAsDocument` leaves it. */
  predicate Paragraphed(s: string) {
    s == [] || (|s| >= 2 && s[|s| - 2..] == "\n\n")
  }

  lemma AppendParagraphed(s: string, t: string)
    requires t != [] && Paragraphed(t)
    ensures Paragraphed(s + t)
  {
    assert (s + t)[|s + t| - 2..] == t[|t| - 2..];
  }

  lemma AddIfParagraphed(doc: string, v: Json, before: string)
    ensures Paragraphed(doc) ==> Paragraphed(AddIf(doc, v, before, "\n\n"))
  {
    if JsTruthy(v) {
      assert doc + before + JsString(v) + "\n\n" == (doc + before + JsString(v)) + "\n\n";
      AppendParagraphed(doc + before + JsString(v), "\n\n");
    }
  }

  /** One item of `deliverable.sections`; reading `.section` of `null` throws. */
  function GuidedSectionStep(out: string, section: Json): (r: Completion<string>)
    ensures Paragraphed(out) && r.Normal? ==> Paragraphed(r.value)
  {
    if section.JStr? then
      AppendParagraphed(out + "## " + section.s, "\n\n");
      Normal(out + "## " + section.s + "\n\n")
    else if section == JNull then Throw
    else if JsTruthy(Get(section, "section")) then
      var o1 := out + "## " + JsString(Get(section, "section")) + "\n\n";
      AppendParagraphed(out + "## " + JsString(Get(section, "section")), "\n\n");
      var o2 := AddIf(o1, Get(section, "placeholder_guidance"), "**Guidance:** ", "\n\n");
      AddIfParagraphed(o1, Get(section, "placeholder_guidance"), "**Guidance:** ");
      AddIfParagraphed(o2, Get(section, "completion_notes"), "**Notes:** ");
      Normal(AddIf(o2, Get(section, "completion_notes"), "**Notes:** ", "\n\n"))
    else Normal(out)
  }

  /** One item of `improved_deliverables.execution_summary.deliverables`; a truthy
      `sections` that is neither an array nor a string is not iterable and throws. */
  function OutlineDeliverableStep(out: string, d: Json): (r: Completion<string>)
    ensures Paragraphed(out) && r.Normal? ==> Paragraphed(r.value)
  {
    if d == JNull then Throw
    else
      var o1 := AddIf(out, Get(d, "name"), "# ", "\n\n");
      AddIfParagraphed(out, Get(d, "name"), "# ");
      var sections := Get(d, "sections");
      if !JsTruthy(sections) then Normal(o1)
      else
        match ForOf(sections)
        case Throw => Throw
        case Normal(items) =>
          LoopPreserves(o1, items, GuidedSectionStep, Paragraphed);
          Loop(o1, items, GuidedSectionStep)
  }

  /** One item of `obj.execution_summary.deliverables`. */
  function ListedDeliverableStep(out: string, d: Json): (r: Completion<string>)
    ensures Paragraphed(out) && r.Normal? ==> Paragraphed(r.value)
  {
    if d == JNull then Throw
    else if JsTruthy(Get(d, "name")) then
      var o1 := out + "### " + JsString(Get(d, "name")) + "\n\n";
      AppendParagraphed(out + "### " + JsString(Get(d, "name")), "\n\n");
      AddIfParagraphed(o1, Get(d, "notes"), "");
      Normal(AddText(o1, Get(d, "notes")))
    else Normal(out)
  }

  /** The outline drawn from `obj.improved_deliverables.execution_summary.deliverables`. */
  function OutlineBlock(obj: Json): Completion<string> {
    var summary := Get(Get(obj, "improved_deliverables"), "execution_summary");
    if JsTruthy(Get(obj, "improved_deliverables")) && JsTruthy(summary) && JsTruthy(Get(summary, "deliverables")) then
      match ForOf(Get(summary, "deliverables"))
      case Throw => Throw
      case Normal(items) => Loop("", items, OutlineDeliverableStep)
    else Normal("")
  }

  const DeliverablesHeading := "## Deliverables\n\n"

  /** The overview and deliverable list of `obj.execution_summary`, appended to `out`. */
  function OverviewInto(obj: Json, out: string): Completion<string> {
    var summary := Get(obj, "execution_summary");
    if !JsTruthy(summary) then Normal(out)
    else
      var o1 := AddIf(out, Get(summary, "overview"), "## Overview\n\n", "\n\n");
      var ds := Get(summary, "deliverables");
      if JsTruthy(ds) && ds.JArr? then Loop(o1 + DeliverablesHeading, ds.elems, ListedDeliverableStep)
      else Normal(o1)
  }

  /** `formatJsonAsDocument(obj)`: the outline of the improved deliverables, then the
      overview and deliverables of the execution summary; `''` for a falsy or
      non-object argument.  The text is not trimmed. */
  function JsonAsDocument(obj: Json): (r: Completion<string>)
    ensures !JsTruthy(obj) || !IsObject(obj) ==> r == Normal("")
  {
    if !JsTruthy(obj) || !IsObject(obj) then Normal("")
    else
      match OutlineBlock(obj)
      case Throw => Throw
      case Normal(out) => OverviewInto(obj, out)
  }

  /** Every append of `formatJsonAsDocument` ends with a blank line, so its text is
      empty or ends with "\n\n". */
  lemma JsonAsDocumentParagraphed(obj: Json)
    ensures JsonAsDocument(obj).Normal? ==> Paragraphed(JsonAsDocument(obj).value)
  {
    if JsTruthy(obj) && IsObject(obj) {
      var summary := Get(Get(obj, "improved_deliverables"), "execution_summary");
      if JsTruthy(Get(obj, "improved_deliverables")) && JsTruthy(summary) && JsTruthy(Get(summary, "deliverables")) {
        if ForOf(Get(summary, "deliverables")).Normal? {
          LoopPreserves("", ForOf(Get(summary, "deliverables")).value, OutlineDeliverableStep, Paragraphed);
        }
      }
      if OutlineBlock(obj).Normal? {
        var out := OutlineBlock(obj).value;
        var es := Get(obj, "execution_summary");
        if JsTruthy(es) {
          var o1 := AddIf(out, Get(es, "overview"), "## Overview\n\n", "\n\n");
          AddIfParagraphed(out, Get(es, "overview"), "## Overview\n\n");
          AppendParagraphed(o1, DeliverablesHeading);
          var ds := Get(es, "deliverables");
          if JsTruthy(ds) && ds.JArr? {
            LoopPreserves(o1 + DeliverablesHeading, ds.elems, ListedDeliverableStep, Paragraphed);
          }
        }
      }
    }
  }

  /** The loop over one deliverable's `sections`. */
  method AppendGuidedSections(out: string, items: seq<Json>) returns (r: Completion<string>)
    ensures r == Loop(out, items, GuidedSectionStep)
  {
    var doc := out;
    var j := 0;
    assert items[j..] == items;
    while j < |items|
      invariant 0 <= j <= |items|
      invariant Loop(doc, items[j..], GuidedSectionStep) == Loop(out, items, GuidedSectionStep)
    {
      var section := items[j];
      assert items[j..][0] == section && items[j..][1..] == items[j + 1..];
      if section.JStr? {
        doc := doc + "## " + section.s + "\n\n";
      } else if section == JNull {
        return Throw;
      } else if JsTruthy(Get(section, "section")) {
        doc := doc + "## " + JsString(Get(section, "section")) + "\n\n";
        if JsTruthy(Get(section, "placeholder_guidance")) {
          doc := doc + "**Guidance:** " + JsString(Get(section, "placeholder_guidance")) + "\n\n";
        }
        if JsTruthy(Get(section, "completion_notes")) {
          doc := doc + "**Notes:** " + JsString(Get(section, "completion_notes")) + "\n\n";
        }
      }
      j := j + 1;
    }
    r := Normal(doc);
  }

  /** The loop over `improved.deliverables`. */
  method AppendOutline(out: string, items: seq<Json>) returns (r: Completion<string>)
    ensures r == Loop(out, items, OutlineDeliverableStep)
  {
    var doc := out;
    var i := 0;
    assert items[i..] == items;
    while i < |items|
      invariant 0 <= i <= |items|
      invariant Loop(doc, items[i..], OutlineDeliverableStep) == Loop(out, items, OutlineDeliverableStep)
    {
      var deliverable := items[i];
      assert items[i..][0] == deliverable && items[i..][1..] == items[i + 1..];
      if deliverable == JNull {
        return Throw;
      }
      if JsTruthy(Get(deliverable, "name")) {
        doc := doc + "# " + JsString(Get(deliverable, "name")) + "\n\n";
      }
      var sections := Get(deliverable, "sections");
      if JsTruthy(sections) {
        var iterable := ForOf(sections);
        if iterable.Throw? {
          return Throw;
        }
        var c := AppendGuidedSections(doc, iterable.value);
        if c.Throw? {
          return Throw;
        }
        doc := c.value;
      }
      i := i + 1;
    }
    r := Normal(doc);
  }

  /** The loop over `obj.execution_summary.deliverables`. */
  method AppendListed(out: string, items: seq<Json>) returns (r: Completion<string>)
    ensures r == Loop(out, items, ListedDeliverableStep)
  {
    var doc := out;
    var i := 0;
    assert items[i..] == items;
    while i < |items|
      invariant 0 <= i <= |items|
      invariant Loop(doc, items[i..], ListedDeliverableStep) == Loop(out, items, ListedDeliverableStep)
    {
      var deliverable := items[i];
      assert items[i..][0] == deliverable && items[i..][1..] == items[i + 1..];
      if deliverable == JNull {
        return Throw;
      }
      if JsTruthy(Get(deliverable, "name")) {
        doc := doc + "### " + JsString(Get(deliverable, "name")) + "\n\n";
        if JsTruthy(Get(deliverable, "notes")) {
          doc := doc + JsString(Get(deliverable, "notes")) + "\n\n";
        }
      }
      i := i + 1;
    }
    r := Normal(doc);
  }

  /** `formatJsonAsDocument`, appending to `output` as the JavaScript does. */
  method FormatJsonAsDocument(obj: Json) returns (r: Completion<string>)
    ensures r == JsonAsDocument(obj)
  {
    if !JsTruthy(obj) || !IsObject(obj) {
      return Normal("");
    }
    var output := "";
    if JsTruthy(Get(obj, "improved_deliverables")) {
      var improved := Get(Get(obj, "improved_deliverables"), "execution_summary");
      if JsTruthy(improved) && JsTruthy(Get(improved, "deliverables")) {
        var iterable := ForOf(Get(improved, "deliverables"));
        if iterable.Throw? {
          return Throw;
        }
        var c := AppendOutline(output, iterable.value);
        if c.Throw? {
          return Throw;
        }
        output := c.value;
      }
    }
    assert OutlineBlock(obj) == Normal(output);
    ghost var outline := output;
    var summary := Get(obj, "execution_summary");
    if JsTruthy(summary) {
      if JsTruthy(Get(summary, "overview")) {
        output := output + "## Overview\n\n" + JsString(Get(summary, "overview")) + "\n\n";
      }
      var ds := Get(summary, "deliverables");
      if JsTruthy(ds) && ds.JArr? {
        output := output + DeliverablesHeading;
        r := AppendListed(output, ds.elems);
        return;
      }
    }
    r := Normal(output);
  }
}
