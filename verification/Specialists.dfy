// The typed contracts between the supervisor and its specialists, and the merge
// of an operator's edited arguments into a planned task.
module Specialists {
  import opened Prelude
  import Chunking

  datatype Json =
    | JNull
    | JBool(b: bool)
    | JNumber(n: real)
    | JString(s: string)
    | JArray(items: seq<Json>)
    | JObject(fields: map<string, Json>)

  datatype Kind = RagResearch | DocumentGeneration | DataProcessing

  datatype Format = Markdown | Html | Plaintext

  datatype Citation = Citation(documentId: string, source: string, chunkId: string)

  datatype Task =
    | Research(query: string, topK: Option<nat>)
    | Writing(instructions: string, format: Format, citations: Option<seq<Citation>>)
    | Processing(operation: string, input: Option<Json>)

  datatype Document = Document(title: string, format: Format, content: string)

  datatype Usage = Usage(inputTokens: nat, outputTokens: nat, totalTokens: nat)

  datatype Result =
    | Findings(findings: string, citations: seq<Citation>)
    | Written(document: Document, usage: Option<Usage>)
    | Processed(value: Json)

  function KindOf(task: Task): Kind {
    match task
    case Research(_, _) => RagResearch
    case Writing(_, _, _) => DocumentGeneration
    case Processing(_, _) => DataProcessing
  }

  function KindName(kind: Kind): string {
    match kind
    case RagResearch => "rag-research"
    case DocumentGeneration => "document-generation"
    case DataProcessing => "data-processing"
  }

  function FormatName(format: Format): string {
    match format
    case Markdown => "markdown"
    case Html => "html"
    case Plaintext => "plaintext"
  }

  /******* Tasks as JSON objects *******/

  type Fields = map<string, Json>

  function EncodeCitation(c: Citation): Json {
    JObject(map["documentId" := JString(c.documentId), "source" := JString(c.source), "chunkId" := JString(c.chunkId)])
  }

  function EncodeCitations(cs: seq<Citation>): seq<Json> {
    seq(|cs|, i requires 0 <= i < |cs| => EncodeCitation(cs[i]))
  }

  function Encode(task: Task): Fields {
    map["kind" := JString(KindName(KindOf(task)))] +
    match task
    case Research(query, topK) =>
      map["query" := JString(query)] + if topK.Some? then map["topK" := JNumber(topK.value as real)] else map[]
    case Writing(instructions, format, citations) =>
      map["instructions" := JString(instructions), "format" := JString(FormatName(format))] +
      if citations.Some? then map["citations" := JArray(EncodeCitations(citations.value))] else map[]
    case Processing(operation, input) =>
      map["operation" := JString(operation)] + if input.Some? then map["input" := input.value] else map[]
  }

  // A required, non-empty string field.
  function Text(fields: Fields, name: string): Option<string> {
    if name in fields && fields[name].JString? && fields[name].s != "" then Some(fields[name].s) else None
  }

  // The schema's identifiers are UUIDs; their syntax is a parameter.
  type UuidCheck = string -> bool

  function ParseCitation(isUuid: UuidCheck, j: Json): Option<Citation> {
    if !j.JObject? then None
    else
      var d, s, c := Text(j.fields, "documentId"), Text(j.fields, "source"), Text(j.fields, "chunkId");
      if d.Some? && s.Some? && c.Some? && isUuid(d.value) && isUuid(c.value)
      then Some(Citation(d.value, s.value, c.value)) else None
  }

  function ParseCitations(isUuid: UuidCheck, items: seq<Json>): Option<seq<Citation>> {
    if items == [] then Some([])
    else
      var head, tail := ParseCitation(isUuid, items[0]), ParseCitations(isUuid, items[1..]);
      if head.Some? && tail.Some? then Some([head.value] + tail.value) else None
  }

  function ParseFormat(fields: Fields): Option<Format> {
    if "format" !in fields then Some(Markdown)
    else if fields["format"] == JString("markdown") then Some(Markdown)
    else if fields["format"] == JString("html") then Some(Html)
    else if fields["format"] == JString("plaintext") then Some(Plaintext)
    else None
  }

  function ParseResearch(fields: Fields): Option<Task> {
    var query := Text(fields, "query");
    if query.None? then None
    else if "topK" !in fields then Some(Research(query.value, None))
    else
      var k := fields["topK"];
      if k.JNumber? && k.n > 0.0 && k.n.Floor as real == k.n
      then Some(Research(query.value, Some(k.n.Floor))) else None
  }

  function ParseWriting(isUuid: UuidCheck, fields: Fields): Option<Task> {
    var instructions, format := Text(fields, "instructions"), ParseFormat(fields);
    if instructions.None? || format.None? then None
    else if "citations" !in fields then Some(Writing(instructions.value, format.value, None))
    else if !fields["citations"].JArray? then None
    else
      var cs := ParseCitations(isUuid, fields["citations"].items);
      if cs.Some? then Some(Writing(instructions.value, format.value, cs)) else None
  }

  function ParseProcessing(fields: Fields): Option<Task> {
    var operation := Text(fields, "operation");
    if operation.None? then None
    else Some(Processing(operation.value, if "input" in fields then Some(fields["input"]) else None))
  }

  // Unknown fields are dropped; a wrong or missing field rejects the object.
  function Parse(isUuid: UuidCheck, fields: Fields): Option<Task> {
    if "kind" !in fields then None
    else if fields["kind"] == JString("rag-research") then ParseResearch(fields)
    else if fields["kind"] == JString("document-generation") then ParseWriting(isUuid, fields)
    else if fields["kind"] == JString("data-processing") then ParseProcessing(fields)
    else None
  }

  // What the plan schema has already checked of a planned task.
  predicate WellFormed(isUuid: UuidCheck, task: Task) {
    match task
    case Research(query, topK) => query != "" && (topK.Some? ==> topK.value > 0)
    case Writing(instructions, _, citations) =>
      instructions != "" && (citations.Some? ==> forall c :: c in citations.value ==> ValidCitation(isUuid, c))
    case Processing(operation, _) => operation != ""
  }

  predicate ValidCitation(isUuid: UuidCheck, c: Citation) {
    isUuid(c.documentId) && isUuid(c.chunkId) && c.documentId != "" && c.source != "" && c.chunkId != ""
  }

  lemma {:induction false} CitationsRoundTrip(isUuid: UuidCheck, cs: seq<Citation>)
    requires forall c :: c in cs ==> ValidCitation(isUuid, c)
    ensures ParseCitations(isUuid, EncodeCitations(cs)) == Some(cs)
  {
    if cs != [] {
      CitationsRoundTrip(isUuid, cs[1..]);
      assert EncodeCitations(cs)[1..] == EncodeCitations(cs[1..]);
      assert ValidCitation(isUuid, cs[0]);
      assert cs == [cs[0]] + cs[1..];
    }
  }

  // `fields` reads as `planned` in every field that planning wrote.
  ghost predicate Carries(fields: Fields, planned: Fields, names: set<string>) {
    forall name :: name in names ==>
      (name in fields <==> name in planned) && (name in planned ==> fields[name] == planned[name])
  }

  lemma ResearchFields(fields: Fields, task: Task, isUuid: UuidCheck)
    requires task.Research? && WellFormed(isUuid, task)
    ensures Carries(fields, Encode(task), {"query"}) ==> Text(fields, "query") == Some(task.query)
    ensures Carries(fields, Encode(task), {"topK"}) && ParseResearch(fields).Some? ==>
              ParseResearch(fields).value.topK == task.topK
    ensures Carries(fields, Encode(task), {"query"}) && Carries(fields, Encode(task), {"topK"}) ==>
              ParseResearch(fields) == Some(task)
  {
    var planned := Encode(task);
    assert "query" in planned && planned["query"] == JString(task.query);
    assert "topK" in planned <==> task.topK.Some?;
    assert task.topK.Some? ==> planned["topK"] == JNumber(task.topK.value as real);
  }

  lemma FormatFields(fields: Fields, task: Task)
    requires task.Writing? && Carries(fields, Encode(task), {"format"})
    ensures ParseFormat(fields) == Some(task.format)
  {
    assert Encode(task)["format"] == JString(FormatName(task.format));
  }

  lemma CitationFields(fields: Fields, task: Task, isUuid: UuidCheck)
    requires task.Writing? && WellFormed(isUuid, task) && Carries(fields, Encode(task), {"citations"})
    ensures "citations" in fields <==> task.citations.Some?
    ensures task.citations.Some? ==>
              fields["citations"].JArray? && ParseCitations(isUuid, fields["citations"].items) == task.citations
  {
    assert "citations" in Encode(task) <==> task.citations.Some?;
    if task.citations.Some? {
      assert Encode(task)["citations"] == JArray(EncodeCitations(task.citations.value));
      CitationsRoundTrip(isUuid, task.citations.value);
    }
  }

  lemma WritingFields(fields: Fields, task: Task, isUuid: UuidCheck)
    requires task.Writing? && WellFormed(isUuid, task)
    ensures Carries(fields, Encode(task), {"instructions"}) ==> Text(fields, "instructions") == Some(task.instructions)
    ensures Carries(fields, Encode(task), {"format"}) ==> ParseFormat(fields) == Some(task.format)
    ensures Carries(fields, Encode(task), {"citations"}) && ParseWriting(isUuid, fields).Some? ==>
              ParseWriting(isUuid, fields).value.citations == task.citations
    ensures (forall n :: n in {"instructions", "format", "citations"} ==> Carries(fields, Encode(task), {n})) ==>
              ParseWriting(isUuid, fields) == Some(task)
  {
    var planned := Encode(task);
    assert "instructions" in planned && planned["instructions"] == JString(task.instructions);
    hide Encode, ParseFormat, ParseCitations;
    if Carries(fields, planned, {"format"}) {
      FormatFields(fields, task);
    }
    if Carries(fields, planned, {"citations"}) {
      CitationFields(fields, task, isUuid);
    }
    if forall n :: n in {"instructions", "format", "citations"} ==> Carries(fields, planned, {n}) {
      assert Carries(fields, planned, {"instructions"}) && Carries(fields, planned, {"format"})
             && Carries(fields, planned, {"citations"});
      assert Text(fields, "instructions") == Some(task.instructions);
    }
  }

  lemma ProcessingFields(fields: Fields, task: Task, isUuid: UuidCheck)
    requires task.Processing? && WellFormed(isUuid, task)
    ensures Carries(fields, Encode(task), {"operation"}) ==> Text(fields, "operation") == Some(task.operation)
    ensures Carries(fields, Encode(task), {"input"}) && ParseProcessing(fields).Some? ==>
              ParseProcessing(fields).value.input == task.input
    ensures Carries(fields, Encode(task), {"operation"}) && Carries(fields, Encode(task), {"input"}) ==>
              ParseProcessing(fields) == Some(task)
  {
    var planned := Encode(task);
    assert "operation" in planned && planned["operation"] == JString(task.operation);
    assert "input" in planned <==> task.input.Some?;
    assert task.input.Some? ==> planned["input"] == task.input.value;
  }

  lemma KindField(isUuid: UuidCheck, fields: Fields, task: Task)
    requires "kind" in fields && fields["kind"] == JString(KindName(KindOf(task)))
    ensures Parse(isUuid, fields) == match task
                                     case Research(_, _) => ParseResearch(fields)
                                     case Writing(_, _, _) => ParseWriting(isUuid, fields)
                                     case Processing(_, _) => ParseProcessing(fields)
  {
    hide ParseResearch, ParseWriting, ParseProcessing;
    DistinctKinds();
  }

  lemma DistinctKinds()
    ensures KindName(RagResearch) != KindName(DocumentGeneration)
    ensures KindName(RagResearch) != KindName(DataProcessing)
    ensures KindName(DocumentGeneration) != KindName(DataProcessing)
  {
    assert KindName(RagResearch)[0] == 'r';
    assert KindName(DocumentGeneration)[1] == 'o' && KindName(DataProcessing)[1] == 'a';
    assert KindName(DocumentGeneration)[0] == 'd' && KindName(DataProcessing)[0] == 'd';
  }

  // Reading back a planned task gives that task.
  lemma TaskRoundTrip(isUuid: UuidCheck, task: Task)
    requires WellFormed(isUuid, task)
    ensures Parse(isUuid, Encode(task)) == Some(task)
  {
    KindPlanned(task);
    hide Encode, Parse, ParseResearch, ParseWriting, ParseProcessing, KindName;
    var planned := Encode(task);
    KindField(isUuid, planned, task);
    match task
    case Research(_, _) => ResearchFields(planned, task, isUuid);
    case Writing(_, _, _) => WritingFields(planned, task, isUuid);
    case Processing(_, _) => ProcessingFields(planned, task, isUuid);
  }

  lemma KindPlanned(task: Task)
    ensures "kind" in Encode(task) && Encode(task)["kind"] == JString(KindName(KindOf(task)))
  {
    hide KindName, FormatName, EncodeCitations;
  }

  /******* Merging an operator's edit *******/

  // An array counts as an object whose index keys the schema drops.
  function EditFields(edit: Json): Fields {
    if edit.JObject? then edit.fields else map[]
  }

  function MergeApprovedArgs(isUuid: UuidCheck, task: Task, edit: Option<Json>): Option<Task> {
    if edit.None? then Some(task)
    else if !edit.value.JObject? && !edit.value.JArray? then None
    else Parse(isUuid, MergedFields(task, EditFields(edit.value)))
  }

  function MergedFields(task: Task, edit: Fields): Fields {
    Encode(task) + edit + map["kind" := JString(KindName(KindOf(task)))]
  }

  lemma MergedKind(task: Task, edit: Fields)
    ensures "kind" in MergedFields(task, edit)
    ensures MergedFields(task, edit)["kind"] == JString(KindName(KindOf(task)))
    ensures forall name :: name != "kind" && name !in edit ==> Carries(MergedFields(task, edit), Encode(task), {name})
  {
    hide Encode, KindName;
  }

  // Whatever fields an operator edits, the specialist that runs is the planned one.
  lemma MergeKeepsKind(isUuid: UuidCheck, task: Task, edit: Option<Json>)
    ensures var merged := MergeApprovedArgs(isUuid, task, edit);
            merged.Some? ==> KindOf(merged.value) == KindOf(task)
  {
    if edit.Some? && (edit.value.JObject? || edit.value.JArray?) {
      var fields := MergedFields(task, EditFields(edit.value));
      MergedKind(task, EditFields(edit.value));
      hide MergedFields, Parse;
      KindField(isUuid, fields, task);
    }
  }

  // An edit without fields is no edit.
  lemma MergeNothing(isUuid: UuidCheck, task: Task, edit: Json)
    requires WellFormed(isUuid, task)
    requires edit.JArray? || edit == JObject(map[])
    ensures MergeApprovedArgs(isUuid, task, Some(edit)) == Some(task)
  {
    TaskRoundTrip(isUuid, task);
    KindPlanned(task);
    hide Encode, Parse, KindName;
    assert MergedFields(task, EditFields(edit)) == Encode(task);
  }

  // A field the operator did not touch keeps its planned value.
  lemma MergeKeepsUntouched(isUuid: UuidCheck, task: Task, edit: Fields)
    requires WellFormed(isUuid, task)
    requires MergeApprovedArgs(isUuid, task, Some(JObject(edit))).Some?
    ensures var merged := MergeApprovedArgs(isUuid, task, Some(JObject(edit))).value;
            match task
            case Research(query, topK) =>
              && ("query" !in edit ==> merged.query == query)
              && ("topK" !in edit ==> merged.topK == topK)
            case Writing(instructions, format, citations) =>
              && ("instructions" !in edit ==> merged.instructions == instructions)
              && ("format" !in edit ==> merged.format == format)
              && ("citations" !in edit ==> merged.citations == citations)
            case Processing(operation, input) =>
              && ("operation" !in edit ==> merged.operation == operation)
              && ("input" !in edit ==> merged.input == input)
  {
    hide Encode, Parse, KindName, MergedFields, Text, ParseFormat, ParseCitations, Carries;
    var fields := MergedFields(task, edit);
    MergeKeepsKind(isUuid, task, Some(JObject(edit)));
    MergedKind(task, edit);
    KindField(isUuid, fields, task);
    match task
    case Research(_, _) => ResearchFields(fields, task, isUuid);
    case Writing(_, _, _) => WritingFields(fields, task, isUuid);
    case Processing(_, _) => ProcessingFields(fields, task, isUuid);
  }

  lemma MergedEdit(task: Task, edit: Fields, name: string)
    requires name != "kind" && name in edit
    ensures name in MergedFields(task, edit) && MergedFields(task, edit)[name] == edit[name]
  {
    hide Encode, KindName;
  }

  // A field the operator did touch takes the new value.
  lemma MergeTakesEdit(isUuid: UuidCheck, task: Task, edit: Fields)
    requires MergeApprovedArgs(isUuid, task, Some(JObject(edit))).Some?
    ensures var merged := MergeApprovedArgs(isUuid, task, Some(JObject(edit))).value;
            match task
            case Research(_, _) =>
              && ("query" in edit ==> edit["query"] == JString(merged.query))
              && ("topK" in edit ==> merged.topK.Some? && edit["topK"] == JNumber(merged.topK.value as real))
            case Writing(_, _, _) =>
              && ("instructions" in edit ==> edit["instructions"] == JString(merged.instructions))
              && ("format" in edit ==> edit["format"] == JString(FormatName(merged.format)))
              && ("citations" in edit ==>
                    edit["citations"].JArray? && ParseCitations(isUuid, edit["citations"].items) == merged.citations)
            case Processing(_, _) =>
              && ("operation" in edit ==> edit["operation"] == JString(merged.operation))
              && ("input" in edit ==> merged.input == Some(edit["input"]))
  {
    hide Encode, Parse, KindName, MergedFields, ParseCitations;
    var fields := MergedFields(task, edit);
    MergeKeepsKind(isUuid, task, Some(JObject(edit)));
    MergedKind(task, edit);
    KindField(isUuid, fields, task);
    forall name | name != "kind" && name in edit
      ensures name in fields && fields[name] == edit[name]
    {
      MergedEdit(task, edit, name);
    }
  }

  // A document step whose format is left out is to be written in markdown.
  lemma MarkdownByDefault(isUuid: UuidCheck, fields: Fields, instructions: string)
    requires "kind" in fields && fields["kind"] == JString("document-generation") && "format" !in fields
    requires "instructions" in fields && fields["instructions"] == JString(instructions) && instructions != ""
    requires "citations" !in fields
    ensures Parse(isUuid, fields) == Some(Writing(instructions, Markdown, None))
  {
    assert "document-generation"[0] == 'd' && "rag-research"[0] == 'r';
  }

  lemma {:induction false} CitationsSound(isUuid: UuidCheck, items: seq<Json>)
    ensures var cs := ParseCitations(isUuid, items);
            cs.Some? ==> forall c :: c in cs.value ==> ValidCitation(isUuid, c)
  {
    if items != [] {
      CitationsSound(isUuid, items[1..]);
    }
  }

  // Nothing malformed gets through: an edit that is neither an object nor an array
  // is refused, and a merged task meets the schema.
  lemma MergeSound(isUuid: UuidCheck, task: Task, edit: Json)
    ensures !edit.JObject? && !edit.JArray? ==> MergeApprovedArgs(isUuid, task, Some(edit)).None?
    ensures var merged := MergeApprovedArgs(isUuid, task, Some(edit));
            merged.Some? ==> WellFormed(isUuid, merged.value)
  {
    var fields := MergedFields(task, EditFields(edit));
    if "citations" in fields && fields["citations"].JArray? {
      CitationsSound(isUuid, fields["citations"].items);
    }
    hide MergedFields, ParseCitations, ParseFormat;
  }

  // An edit that gives every field replaces the whole task.
  lemma MergeReplaces(isUuid: UuidCheck, task: Task, other: Task)
    requires WellFormed(isUuid, other) && KindOf(task) == KindOf(other)
    requires match other
             case Research(_, topK) => topK.Some?
             case Writing(_, _, citations) => citations.Some?
             case Processing(_, input) => input.Some?
    ensures MergeApprovedArgs(isUuid, task, Some(JObject(Encode(other)))) == Some(other)
  {
    var edit := Encode(other);
    var fields := MergedFields(task, edit);
    MergedKind(task, edit);
    forall name | name != "kind" && name in edit
      ensures Carries(fields, edit, {name})
    {
      MergedEdit(task, edit, name);
    }
    EveryField(other);
    hide MergedFields, Encode, KindName, Parse, ParseFormat, ParseCitations, Text, Carries;
    KindField(isUuid, fields, other);
    match other
    case Research(_, _) => ResearchFields(fields, other, isUuid);
    case Writing(_, _, _) => WritingFields(fields, other, isUuid);
    case Processing(_, _) => ProcessingFields(fields, other, isUuid);
  }

  lemma EveryField(task: Task)
    ensures match task
            case Research(_, topK) => "query" in Encode(task) && (topK.Some? ==> "topK" in Encode(task))
            case Writing(_, _, citations) =>
              && "instructions" in Encode(task) && "format" in Encode(task)
              && (citations.Some? ==> "citations" in Encode(task))
            case Processing(_, input) => "operation" in Encode(task) && (input.Some? ==> "input" in Encode(task))
  {
  }

  /******* The mechanical document check *******/

  predicate Letter(c: char) {
    'a' <= c <= 'z' || 'A' <= c <= 'Z'
  }

  predicate Alnum(c: char) {
    Letter(c) || '0' <= c <= '9'
  }

  predicate White(c: char) {
    c as int < 0x10000 && Chunking.White(c as int)
  }

  function LowerCase(s: string): string {
    seq(|s|, i requires 0 <= i < |s| => if 'A' <= s[i] <= 'Z' then (s[i] as int + 32) as char else s[i])
  }

  // The letters and digits of a tag name, one by one.
  lemma NameCharacters(c: char)
    ensures Letter(c) <==> c in "abcdefghijklmnopqrstuvwxyz" || c in "ABCDEFGHIJKLMNOPQRSTUVWXYZ"
    ensures Alnum(c) <==> Letter(c) || c in "0123456789"
  {
    Ranges(c);
  }

  // And how they are lowered.
  lemma LoweredExactly(c: char)
    ensures LowerCase("ABCDEFGHIJKLMNOPQRSTUVWXYZ") == "abcdefghijklmnopqrstuvwxyz"
    ensures c !in "ABCDEFGHIJKLMNOPQRSTUVWXYZ" ==> LowerCase([c]) == [c]
  {
    var upper, lower := "ABCDEFGHIJKLMNOPQRSTUVWXYZ", "abcdefghijklmnopqrstuvwxyz";
    Upper(c);
    Consecutive(upper, lower);
  }

  lemma Consecutive(upper: string, lower: string)
    requires |upper| == |lower| == 26
    requires forall i :: 0 <= i < 26 ==> upper[i] == ('A' as int + i) as char && lower[i] == ('a' as int + i) as char
    ensures LowerCase(upper) == lower
  {
  }

  // Where a run of letters and digits ends.
  function NameEnd(s: string, p: nat): (e: nat)
    requires p <= |s|
    ensures p <= e <= |s|
    decreases |s| - p
  {
    if p < |s| && Alnum(s[p]) then NameEnd(s, p + 1) else p
  }

  function SkipWhite(s: string, p: nat): (e: nat)
    requires p <= |s|
    ensures p <= e <= |s|
    decreases |s| - p
  {
    if p < |s| && White(s[p]) then SkipWhite(s, p + 1) else p
  }

  // Where the first `>` from `p` on is.
  function NextClose(s: string, p: nat): (q: Option<nat>)
    requires p <= |s|
    ensures q.Some? ==> p <= q.value < |s|
    decreases |s| - p
  {
    if p == |s| then None else if s[p] == '>' then Some(p) else NextClose(s, p + 1)
  }

  // An opening tag at `p`: its name, then a word boundary, then anything up to
  // the next `>`. The value is where the tag ends.
  function OpenTagAt(s: string, p: nat): (q: Option<nat>)
    requires p < |s|
    ensures q.Some? ==> p + 1 < q.value <= |s|
  {
    if s[p] != '<' || p + 1 == |s| || !Letter(s[p + 1]) then None
    else
      var e := NameEnd(s, p + 1);
      if e < |s| && s[e] == '_' then None
      else
        var q := NextClose(s, e);
        if q.Some? then Some(q.value + 1) else None
  }

  function CloseTagAt(s: string, p: nat): (q: Option<nat>)
    requires p < |s|
    ensures q.Some? ==> p + 2 < q.value <= |s|
  {
    if s[p] != '<' || p + 2 >= |s| || s[p + 1] != '/' || !Letter(s[p + 2]) then None
    else
      var e := SkipWhite(s, NameEnd(s, p + 2));
      if e < |s| && s[e] == '>' then Some(e + 1) else None
  }

  // An opening tag whose last character before the `>` is a slash after its name.
  predicate SelfClosingAt(s: string, p: nat)
    requires p < |s|
  {
    var q := OpenTagAt(s, p);
    q.Some? && NameEnd(s, p + 1) <= q.value - 2 && s[q.value - 2] == '/'
  }

  predicate SelfClosing(s: string) {
    exists p: nat :: p < |s| && SelfClosingAt(s, p)
  }

  // A tag's lower-case name and its position in the content.
  datatype Tag = Tag(name: string, at: nat)

  // The matches of a global scan: each search goes on where the last match ended.
  function OpenTags(s: string, p: nat): seq<Tag>
    requires p <= |s|
    decreases |s| - p
  {
    if p == |s| then []
    else
      var q := OpenTagAt(s, p);
      if q.Some? then [Tag(LowerCase(s[p + 1..NameEnd(s, p + 1)]), p)] + OpenTags(s, q.value) else OpenTags(s, p + 1)
  }

  function CloseTags(s: string, p: nat): seq<Tag>
    requires p <= |s|
    decreases |s| - p
  {
    if p == |s| then []
    else
      var q := CloseTagAt(s, p);
      if q.Some? then [Tag(LowerCase(s[p + 2..NameEnd(s, p + 2)]), p)] + CloseTags(s, q.value) else CloseTags(s, p + 1)
  }

  predicate MatchedPair(opens: seq<Tag>, closes: seq<Tag>) {
    exists i, j :: 0 <= i < |opens| && 0 <= j < |closes| &&
                   opens[i].name == closes[j].name && opens[i].at < closes[j].at
  }

  // What the check looks for: a self-closing tag, or an opening tag with a closing
  // tag of its name somewhere after it.
  predicate HasMarkup(content: string) {
    SelfClosing(content) || MatchedPair(OpenTags(content, 0), CloseTags(content, 0))
  }

  /******* What the patterns match *******/

  predicate WordChar(c: char) {
    Alnum(c) || c == '_'
  }

  // `<`, a letter, letters and digits up to a word boundary at `e`.
  ghost predicate NameMatch(s: string, p: nat, e: nat) {
    && p + 2 <= e < |s| && s[p] == '<' && Letter(s[p + 1]) && !WordChar(s[e])
    && forall k :: p + 2 <= k < e ==> Alnum(s[k])
  }

  // Then anything but `>`, and `>` just before `q`.
  ghost predicate OpenMatch(s: string, p: nat, e: nat, q: nat) {
    NameMatch(s, p, e) && e < q <= |s| && s[q - 1] == '>' && forall k :: e <= k < q - 1 ==> s[k] != '>'
  }

  // The same with a `/` before the `>`.
  ghost predicate SelfMatch(s: string, p: nat, e: nat, q: nat) {
    && NameMatch(s, p, e) && e + 2 <= q <= |s| && s[q - 2] == '/' && s[q - 1] == '>'
    && forall k :: e <= k < q - 2 ==> s[k] != '>'
  }

  // `</`, a name, white space, and `>` just before `q`.
  ghost predicate CloseMatch(s: string, p: nat, e: nat, q: nat) {
    && p + 3 <= e < q <= |s| && s[p] == '<' && s[p + 1] == '/' && Letter(s[p + 2]) && s[q - 1] == '>'
    && (forall k :: p + 3 <= k < e ==> Alnum(s[k])) && (forall k :: e <= k < q - 1 ==> White(s[k]))
  }

  lemma {:induction false} NameEndExactly(s: string, p: nat)
    requires p <= |s|
    ensures forall k :: p <= k < NameEnd(s, p) ==> Alnum(s[k])
    ensures NameEnd(s, p) < |s| ==> !Alnum(s[NameEnd(s, p)])
    decreases |s| - p
  {
    if p < |s| && Alnum(s[p]) {
      NameEndExactly(s, p + 1);
    }
  }

  lemma {:induction false} NameEndIs(s: string, p: nat, e: nat)
    requires p <= e < |s| && !Alnum(s[e]) && forall k :: p <= k < e ==> Alnum(s[k])
    ensures NameEnd(s, p) == e
    decreases e - p
  {
    if p < e {
      NameEndIs(s, p + 1, e);
    }
  }

  lemma {:induction false} SkipWhiteExactly(s: string, p: nat)
    requires p <= |s|
    ensures forall k :: p <= k < SkipWhite(s, p) ==> White(s[k])
    ensures SkipWhite(s, p) < |s| ==> !White(s[SkipWhite(s, p)])
    decreases |s| - p
  {
    if p < |s| && White(s[p]) {
      SkipWhiteExactly(s, p + 1);
    }
  }

  lemma {:induction false} NextCloseExactly(s: string, p: nat)
    requires p <= |s|
    ensures NextClose(s, p).Some? ==> s[NextClose(s, p).value] == '>'
    ensures forall k :: p <= k < (if NextClose(s, p).Some? then NextClose(s, p).value else |s|) ==> s[k] != '>'
    decreases |s| - p
  {
    if p < |s| && s[p] != '>' {
      NextCloseExactly(s, p + 1);
    }
  }

  // The scanners find exactly what the patterns match, and a pattern matches at
  // one place in one way only.
  lemma OpenTagExactly(s: string, p: nat, e: nat, q: nat)
    requires p < |s|
    ensures OpenMatch(s, p, e, q) ==> OpenTagAt(s, p) == Some(q) && e == NameEnd(s, p + 1)
    ensures OpenTagAt(s, p) == Some(q) ==> OpenMatch(s, p, NameEnd(s, p + 1), q)
  {
    if p + 1 < |s| && Letter(s[p + 1]) {
      var end := NameEnd(s, p + 1);
      NameEndExactly(s, p + 1);
      NextCloseExactly(s, end);
      assert end >= p + 2;
      if OpenMatch(s, p, e, q) {
        NameEndIs(s, p + 1, e);
      }
    }
  }

  lemma CloseTagExactly(s: string, p: nat, e: nat, q: nat)
    requires p < |s|
    ensures CloseMatch(s, p, e, q) ==> CloseTagAt(s, p) == Some(q) && e == NameEnd(s, p + 2)
    ensures CloseTagAt(s, p) == Some(q) ==> CloseMatch(s, p, NameEnd(s, p + 2), q)
  {
    if p + 2 < |s| && Letter(s[p + 2]) {
      var end := NameEnd(s, p + 2);
      NameEndExactly(s, p + 2);
      SkipWhiteExactly(s, end);
      assert end >= p + 3;
      WhiteApart();
      if CloseMatch(s, p, e, q) {
        NameEndIs(s, p + 2, e);
        assert SkipWhite(s, end) == q - 1;
      }
    }
  }

  lemma WhiteApart()
    ensures !White('>') && forall c :: White(c) ==> !Alnum(c)
  {
  }

  lemma SelfClosingExactly(s: string)
    ensures SelfClosing(s) <==> exists p: nat, e: nat, q: nat :: SelfMatch(s, p, e, q)
  {
    forall p: nat | p < |s| && SelfClosingAt(s, p)
      ensures exists e: nat, q: nat :: SelfMatch(s, p, e, q)
    {
      var q := OpenTagAt(s, p).value;
      OpenTagExactly(s, p, NameEnd(s, p + 1), q);
      assert SelfMatch(s, p, NameEnd(s, p + 1), q);
    }
    forall p: nat, e: nat, q: nat | SelfMatch(s, p, e, q)
      ensures p < |s| && SelfClosingAt(s, p)
    {
      assert OpenMatch(s, p, e, q);
      OpenTagExactly(s, p, e, q);
    }
  }

  // A scan lists the matches from left to right, each the first one from where
  // the last one ended, under its lower-case name.
  ghost predicate FirstOpen(s: string, p: nat, at: nat, e: nat, q: nat) {
    && p <= at && OpenMatch(s, at, e, q)
    && forall p': nat, e': nat, q': nat :: p <= p' < at ==> !OpenMatch(s, p', e', q')
  }

  ghost predicate FirstClose(s: string, p: nat, at: nat, e: nat, q: nat) {
    && p <= at && CloseMatch(s, at, e, q)
    && forall p': nat, e': nat, q': nat :: p <= p' < at ==> !CloseMatch(s, p', e', q')
  }

  ghost predicate ListsOpens(s: string, p: nat, tags: seq<Tag>) {
    if tags == [] then forall at: nat, e: nat, q: nat :: p <= at ==> !OpenMatch(s, at, e, q)
    else exists e: nat, q: nat :: StartsWithOpen(s, p, tags, e, q)
  }

  ghost predicate StartsWithOpen(s: string, p: nat, tags: seq<Tag>, e: nat, q: nat)
    requires tags != []
  {
    && FirstOpen(s, p, tags[0].at, e, q)
    && tags[0].name == LowerCase(s[tags[0].at + 1..e]) && tags[1..] == OpenTags(s, q)
  }

  lemma {:induction false} OpenTagsExactly(s: string, p: nat)
    requires p <= |s|
    ensures ListsOpens(s, p, OpenTags(s, p))
    decreases |s| - p
  {
    if p == |s| {
      assert forall at: nat, e: nat, q: nat :: p <= at ==> !OpenMatch(s, at, e, q);
    } else {
      hide ListsOpens, OpenTagAt, OpenMatch;
      var q := OpenTagAt(s, p);
      if q.Some? {
        OpenFirst(s, p, q.value);
      } else {
        forall e: nat, q: nat
          ensures !OpenMatch(s, p, e, q)
        {
          OpenTagExactly(s, p, e, q);
        }
        OpenTagsExactly(s, p + 1);
        OpenEarlier(s, p, OpenTags(s, p + 1));
      }
    }
  }

  lemma OpenFirst(s: string, p: nat, q: nat)
    requires p < |s| && OpenTagAt(s, p) == Some(q)
    ensures ListsOpens(s, p, OpenTags(s, p))
  {
    OpenTagExactly(s, p, NameEnd(s, p + 1), q);
    hide OpenTagAt, LowerCase, NameEnd;
    assert StartsWithOpen(s, p, OpenTags(s, p), NameEnd(s, p + 1), q);
  }

  lemma OpenEarlier(s: string, p: nat, tags: seq<Tag>)
    requires p < |s| && forall e: nat, q: nat :: !OpenMatch(s, p, e, q)
    requires ListsOpens(s, p + 1, tags)
    ensures ListsOpens(s, p, tags)
  {
    hide OpenMatch, OpenTags, LowerCase;
    if tags != [] {
      var e: nat, q: nat :| StartsWithOpen(s, p + 1, tags, e, q);
      assert StartsWithOpen(s, p, tags, e, q);
    }
  }

  ghost predicate ListsCloses(s: string, p: nat, tags: seq<Tag>) {
    if tags == [] then forall at: nat, e: nat, q: nat :: p <= at ==> !CloseMatch(s, at, e, q)
    else exists e: nat, q: nat :: StartsWithClose(s, p, tags, e, q)
  }

  ghost predicate StartsWithClose(s: string, p: nat, tags: seq<Tag>, e: nat, q: nat)
    requires tags != []
  {
    && FirstClose(s, p, tags[0].at, e, q)
    && tags[0].name == LowerCase(s[tags[0].at + 2..e]) && tags[1..] == CloseTags(s, q)
  }

  lemma {:induction false} CloseTagsExactly(s: string, p: nat)
    requires p <= |s|
    ensures ListsCloses(s, p, CloseTags(s, p))
    decreases |s| - p
  {
    if p == |s| {
      assert forall at: nat, e: nat, q: nat :: p <= at ==> !CloseMatch(s, at, e, q);
    } else {
      hide ListsCloses, CloseTagAt, CloseMatch;
      var q := CloseTagAt(s, p);
      if q.Some? {
        CloseFirst(s, p, q.value);
      } else {
        forall e: nat, q: nat
          ensures !CloseMatch(s, p, e, q)
        {
          CloseTagExactly(s, p, e, q);
        }
        CloseTagsExactly(s, p + 1);
        CloseEarlier(s, p, CloseTags(s, p + 1));
      }
    }
  }

  lemma CloseFirst(s: string, p: nat, q: nat)
    requires p < |s| && CloseTagAt(s, p) == Some(q)
    ensures ListsCloses(s, p, CloseTags(s, p))
  {
    CloseTagExactly(s, p, NameEnd(s, p + 2), q);
    hide CloseTagAt, LowerCase, NameEnd;
    assert StartsWithClose(s, p, CloseTags(s, p), NameEnd(s, p + 2), q);
  }

  lemma CloseEarlier(s: string, p: nat, tags: seq<Tag>)
    requires p < |s| && forall e: nat, q: nat :: !CloseMatch(s, p, e, q)
    requires ListsCloses(s, p + 1, tags)
    ensures ListsCloses(s, p, tags)
  {
    hide CloseMatch, CloseTags, LowerCase;
    if tags != [] {
      var e: nat, q: nat :| StartsWithClose(s, p + 1, tags, e, q);
      assert StartsWithClose(s, p, tags, e, q);
    }
  }

  ghost predicate LeftToRight(tags: seq<Tag>, p: nat) {
    && (forall i :: 0 <= i < |tags| ==> p <= tags[i].at)
    && (forall i, j :: 0 <= i < j < |tags| ==> tags[i].at < tags[j].at)
  }

  lemma {:induction false} OpensLeftToRight(s: string, p: nat)
    requires p <= |s|
    ensures LeftToRight(OpenTags(s, p), p)
    decreases |s| - p
  {
    if p < |s| {
      var q := OpenTagAt(s, p);
      OpensLeftToRight(s, if q.Some? then q.value else p + 1);
    }
  }

  // Markup is a self-closing tag, or an opening tag listed by the one scan with a
  // closing tag of its name, listed by the other, after it.
  lemma MarkupExactly(content: string)
    ensures HasMarkup(content) <==>
            || (exists p: nat, e: nat, q: nat :: SelfMatch(content, p, e, q))
            || exists o, c :: o in OpenTags(content, 0) && c in CloseTags(content, 0) && o.name == c.name && o.at < c.at
  {
    SelfClosingExactly(content);
    hide SelfClosing, OpenTags, CloseTags, SelfMatch;
    var opens, closes := OpenTags(content, 0), CloseTags(content, 0);
    if o, c :| o in opens && c in closes && o.name == c.name && o.at < c.at {
      var i :| 0 <= i < |opens| && opens[i] == o;
      var j :| 0 <= j < |closes| && closes[j] == c;
      assert opens[i].name == closes[j].name && opens[i].at < closes[j].at;
    }
    if MatchedPair(opens, closes) {
      var i, j :| 0 <= i < |opens| && 0 <= j < |closes|
                  && opens[i].name == closes[j].name && opens[i].at < closes[j].at;
      assert opens[i] in opens && closes[j] in closes;
    }
  }

  // Two linear scans, remembering only where each name is first opened, find
  // markup exactly when there is any.
  method HasHtmlMarkup(content: string) returns (found: bool)
    ensures found <==> HasMarkup(content)
  {
    if SelfClosing(content) {
      return true;
    }
    hide SelfClosing, OpenTags, CloseTags, LowerCase;
    var opens, closes := OpenTags(content, 0), CloseTags(content, 0);
    OpensLeftToRight(content, 0);
    var firstOpen: map<string, nat> := map[];
    for i := 0 to |opens|
      invariant forall k :: 0 <= k < i ==> opens[k].name in firstOpen && firstOpen[opens[k].name] <= opens[k].at
      invariant forall name :: name in firstOpen ==>
        exists k :: 0 <= k < i && opens[k].name == name && opens[k].at == firstOpen[name]
    {
      if opens[i].name !in firstOpen {
        firstOpen := firstOpen[opens[i].name := opens[i].at];
      } else {
        ghost var k :| 0 <= k < i && opens[k].name == opens[i].name && opens[k].at == firstOpen[opens[i].name];
        assert opens[k].at < opens[i].at;
      }
    }
    for j := 0 to |closes|
      invariant forall i, k :: 0 <= i < |opens| && 0 <= k < j && opens[i].name == closes[k].name ==>
        opens[i].at >= closes[k].at
    {
      if closes[j].name in firstOpen && firstOpen[closes[j].name] < closes[j].at {
        ghost var i :| 0 <= i < |opens| && opens[i].name == closes[j].name && opens[i].at == firstOpen[closes[j].name];
        return true;
      }
    }
    found := false;
  }

  predicate Includes(s: string, part: string) {
    part <= s || (s != "" && Includes(s[1..], part))
  }

  predicate StandsAt(part: string, s: string, i: nat) {
    i + |part| <= |s| && s[i..i + |part|] == part
  }

  // `part` stands somewhere in `s`.
  ghost predicate Occurs(part: string, s: string) {
    exists i: nat :: StandsAt(part, s, i)
  }

  lemma OccursLater(s: string, part: string)
    requires s != ""
    ensures Occurs(part, s[1..]) ==> Occurs(part, s)
  {
    if Occurs(part, s[1..]) {
      var i: nat :| StandsAt(part, s[1..], i);
      assert s[1..][i..i + |part|] == s[i + 1..i + 1 + |part|];
      assert StandsAt(part, s, i + 1);
    }
  }

  lemma OccursEarlier(s: string, part: string)
    requires s != "" && !(part <= s)
    ensures Occurs(part, s) ==> Occurs(part, s[1..])
  {
    if Occurs(part, s) {
      var i: nat :| StandsAt(part, s, i);
      assert i > 0;
      assert s[1..][i - 1..i - 1 + |part|] == s[i..i + |part|];
      assert StandsAt(part, s[1..], i - 1);
    }
  }

  lemma {:induction false} IncludesExactly(s: string, part: string)
    ensures Includes(s, part) <==> Occurs(part, s)
  {
    if part <= s {
      assert StandsAt(part, s, 0);
    } else if s != "" {
      IncludesExactly(s[1..], part);
      OccursLater(s, part);
      OccursEarlier(s, part);
    }
  }

  // Something to read, a citation's source among it if there are citations, and
  // markup where the format wants it.
  predicate DocumentPasses(document: Document, citations: seq<Citation>) {
    && (exists c :: c in document.content && !White(c))
    && (citations == [] || exists c :: c in citations && Includes(document.content, c.source))
    && (document.format == Html ==> HasMarkup(document.content))
    && (document.format == Plaintext ==> !HasMarkup(document.content))
  }
}
