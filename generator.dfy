/** Prompt assembly for the four generation calls: the context strings built
    from retrieved chunks, the message lists and the requests handed to the
    language model. The model call itself is a function parameter `llm`. */
module Generator {
  import opened Types
  import opened Text
  import opened Seqs

  /** `max_tokens` of every request. */
  const MaxTokens: nat := 4096

  /** `chunks[:5]`: the most chunks one vendor or one request contributes. */
  const ChunkLimit: nat := 5

  /** The system prompt of a request: the caller's own text, or one of the
      four fixed prompts by name. `SystemText` gives the wording. */
  datatype System = CallerSystem(text: string) | AnswerSystem | ComparisonSystem | ConfigSystem | TroubleshootSystem

  /** The arguments of `client.messages.create`, without the model name. */
  datatype LlmRequest = LlmRequest(maxTokens: nat, system: System, messages: seq<Message>)

  /** The text sent as `system`: `build_system_prompt()` for the answer, and
      the fixed prompts of the comparison, configuration and troubleshooting
      calls. */
  function SystemText(s: System): string {
    match s
    case CallerSystem(text) => text
    case AnswerSystem =>
      "You are an expert IT infrastructure assistant specializing in enterprise networking, "
      + "servers, firewalls, and end-user computing. You have access to documentation from vendors "
      + "including Cisco, Juniper, Fortinet, Dell, IBM, and others.\n\n"
      + "Guidelines:\n"
      + "- Answer questions clearly and concisely based on the provided context\n"
      + "- Cite specific documents and pages when possible\n"
      + "- If the context doesn't contain enough information, say so honestly\n"
      + "- Use technical terminology appropriately\n"
      + "- Format responses with markdown when helpful (headers, lists, code blocks)\n"
    case ComparisonSystem =>
      "You are an expert IT infrastructure analyst. Create detailed, structured "
      + "comparisons between vendors/products based on documentation. "
      + "Always produce a markdown table with clear categories."
    case ConfigSystem =>
      "You are an expert network/systems engineer. Generate accurate, production-ready "
      + "configuration snippets based on vendor documentation. Include comments explaining "
      + "each section. If the docs don't cover the exact config requested, provide the closest "
      + "match with appropriate warnings."
    case TroubleshootSystem =>
      "You are an expert IT troubleshooting assistant. Help diagnose and resolve "
      + "IT infrastructure issues step by step. Be methodical:\n"
      + "1. First, clarify the problem if needed by asking specific questions\n"
      + "2. Identify potential root causes\n"
      + "3. Suggest diagnostic commands/steps\n"
      + "4. Provide solutions based on the documentation\n"
      + "5. Suggest preventive measures\n\n"
      + "If you need more information, ask clarifying questions."
  }

  function UserTurn(content: string): Message {
    Message(UserRole, content)
  }

  // ---------------------------------------------------------------- answer

  function Min(a: nat, b: nat): nat { if a < b then a else b }

  /** `[Source i+1: vendor - doc, Page page]\n`, with the defaults of `meta.get`. */
  function SourceHeader(i: nat, meta: Metadata): string {
    "[Source " + NatToString(i + 1) + ": " + meta.vendor.GetOr("Unknown") + " - "
    + meta.document.GetOr("Unknown") + ", Page " + meta.page.GetOr("n/a") + "]\n"
  }

  /** One numbered source block of the answer context. */
  function SourceBlock(i: nat, chunk: string, meta: Metadata): string {
    SourceHeader(i, meta) + chunk
  }

  /** One block per pair of `zip(context_chunks, metadatas)`. */
  function ContextParts(chunks: seq<string>, metas: seq<Metadata>): (parts: seq<string>)
    ensures |parts| == Min(|chunks|, |metas|)
  {
    seq(Min(|chunks|, |metas|), i requires 0 <= i < Min(|chunks|, |metas|) => SourceBlock(i, chunks[i], metas[i]))
  }

  /** The loop of `generate_answer` that fills `context_parts`, and the join. */
  method BuildAnswerContext(chunks: seq<string>, metas: seq<Metadata>) returns (context: string)
    ensures context == Join(ContextParts(chunks, metas), "\n\n")
  {
    var parts: seq<string> := [];
    var n := Min(|chunks|, |metas|);
    for i := 0 to n
      invariant |parts| == i
      invariant forall t :: 0 <= t < i ==> parts[t] == SourceBlock(t, chunks[t], metas[t])
    {
      var vendor := metas[i].vendor.GetOr("Unknown");
      var doc := metas[i].document.GetOr("Unknown");
      var page := metas[i].page.GetOr("n/a");
      parts := parts + ["[Source " + NatToString(i + 1) + ": " + vendor + " - " + doc + ", Page " + page + "]\n" + chunks[i]];
    }
    assert parts == ContextParts(chunks, metas);
    context := Join(parts, "\n\n");
  }

  const AnswerHead: string := "Context from documentation:\n\n"

  const QuestionLead: string := "\n\nQuestion: "

  const AnswerClose: string := "\n\nPlease answer based on the context above. Cite sources when relevant."

  function AnswerTail(question: string): string {
    QuestionLead + question + AnswerClose
  }

  /** The request `generate_answer` sends: the history unchanged, then the
      question with its context as one user turn; the caller's system prompt
      when it is non-empty, `build_system_prompt()` otherwise. */
  function AnswerRequest(question: string, chunks: seq<string>, metas: seq<Metadata>,
                         history: seq<Message>, systemPrompt: Option<string>): LlmRequest
  {
    var context := Join(ContextParts(chunks, metas), "\n\n");
    LlmRequest(MaxTokens,
               if Truthy(systemPrompt) then CallerSystem(systemPrompt.value) else AnswerSystem,
               history + [UserTurn(AnswerHead + context + AnswerTail(question))])
  }

  /** `generate_answer`, with the model call as `llm`. */
  method GenerateAnswer(question: string, chunks: seq<string>, metas: seq<Metadata>,
                        history: seq<Message>, systemPrompt: Option<string>, llm: LlmRequest -> string)
    returns (answer: string)
    ensures answer == llm(AnswerRequest(question, chunks, metas, history, systemPrompt))
  {
    var context := BuildAnswerContext(chunks, metas);
    var messages := history;
    var userMessage := AnswerHead + context + AnswerTail(question);
    messages := messages + [UserTurn(userMessage)];
    var system := if systemPrompt.Some? && systemPrompt.value != [] then CallerSystem(systemPrompt.value) else AnswerSystem;
    answer := llm(LlmRequest(MaxTokens, system, messages));
  }

  /** The message list is the history followed by exactly one user turn that
      carries the question; the system prompt falls back to the default. */
  lemma AnswerRequestShape(question: string, chunks: seq<string>, metas: seq<Metadata>,
                           history: seq<Message>, systemPrompt: Option<string>)
    ensures var r := AnswerRequest(question, chunks, metas, history, systemPrompt);
      && r.maxTokens == MaxTokens
      && (r.system == if Truthy(systemPrompt) then CallerSystem(systemPrompt.value) else AnswerSystem)
      && |r.messages| == |history| + 1
      && r.messages[..|history|] == history
      && r.messages[|history|].role == UserRole
      && IsInfix(question, r.messages[|history|].content)
  {
    var context := Join(ContextParts(chunks, metas), "\n\n");
    InfixOf(AnswerHead + context + QuestionLead, question, AnswerClose);
    ConcatRegroup(AnswerHead, context, QuestionLead, question, AnswerClose);
  }

  /** Every zipped chunk reaches the prompt under its numbered header. */
  lemma AnswerQuotesSources(question: string, chunks: seq<string>, metas: seq<Metadata>,
                            history: seq<Message>, systemPrompt: Option<string>, i: nat)
    requires i < |chunks| && i < |metas|
    ensures var content := AnswerRequest(question, chunks, metas, history, systemPrompt).messages[|history|].content;
      IsInfix(SourceBlock(i, chunks[i], metas[i]), content) && IsInfix(chunks[i], content)
  {
    var parts := ContextParts(chunks, metas);
    var context := Join(parts, "\n\n");
    var content := AnswerHead + context + AnswerTail(question);
    JoinInfix(parts, "\n\n", i);
    InfixOf(AnswerHead, context, AnswerTail(question));
    InfixTransitive(SourceBlock(i, chunks[i], metas[i]), context, content);
    InfixOf(SourceHeader(i, metas[i]), chunks[i], []);
    assert SourceHeader(i, metas[i]) + chunks[i] + [] == SourceBlock(i, chunks[i], metas[i]);
    InfixTransitive(chunks[i], SourceBlock(i, chunks[i], metas[i]), content);
  }

  /** Unpaired chunks or metadata beyond the shorter list are ignored. */
  lemma AnswerZipOnly(question: string, chunks: seq<string>, metas: seq<Metadata>,
                      history: seq<Message>, systemPrompt: Option<string>)
    ensures var m := Min(|chunks|, |metas|);
      AnswerRequest(question, chunks, metas, history, systemPrompt)
      == AnswerRequest(question, chunks[..m], metas[..m], history, systemPrompt)
  {
    var m := Min(|chunks|, |metas|);
    assert ContextParts(chunks, metas) == ContextParts(chunks[..m], metas[..m]);
  }

  /** Each field of the header falls back on its own: a missing vendor or
      document reads `Unknown`, a missing page `n/a`, and a present value is
      quoted as it is. */
  lemma SourceHeaderDefaults(i: nat, meta: Metadata)
    ensures SourceHeader(i, meta) ==
      "[Source " + NatToString(i + 1) + ": "
      + (if meta.vendor.Some? then meta.vendor.value else "Unknown") + " - "
      + (if meta.document.Some? then meta.document.value else "Unknown") + ", Page "
      + (if meta.page.Some? then meta.page.value else "n/a") + "]\n"
  {
  }

  /** Blocks are numbered from 1 and no two blocks carry the same number. */
  lemma SourceNumbers(i: nat, j: nat)
    requires i != j
    ensures NatToString(i + 1) != NatToString(j + 1)
  {
    if NatToString(i + 1) == NatToString(j + 1) {
      NatToStringInjective(i + 1, j + 1);
    }
  }

  // ---------------------------------------------------------------- comparison

  /** `vendor_contexts.get(vendor, [])`. */
  function ContextOf(contexts: map<string, seq<string>>, vendor: string): seq<string> {
    if vendor in contexts then contexts[vendor] else []
  }

  /** `=== vendor Documentation ===\n` and the first five chunks, one per line. */
  function VendorSection(vendor: string, chunks: seq<string>): string {
    "=== " + vendor + " Documentation ===\n" + Join(Take(chunks, ChunkLimit), "\n")
  }

  /** The sections the loop of `generate_comparison` appends, in `vendors` order. */
  function VendorSections(vendors: seq<string>, contexts: map<string, seq<string>>): seq<string> {
    if vendors == [] then []
    else
      var n := |vendors| - 1;
      var chunks := ContextOf(contexts, vendors[n]);
      VendorSections(vendors[..n], contexts) + (if chunks != [] then [VendorSection(vendors[n], chunks)] else [])
  }

  /** The requested vendors that have context, in request order. */
  function WithContext(vendors: seq<string>, contexts: map<string, seq<string>>): seq<string> {
    if vendors == [] then []
    else
      var n := |vendors| - 1;
      WithContext(vendors[..n], contexts) + (if ContextOf(contexts, vendors[n]) != [] then [vendors[n]] else [])
  }

  /** There is exactly one section per requested vendor with context, in
      request order, and no section for any other vendor. */
  lemma {:induction false} VendorSectionsSpec(vendors: seq<string>, contexts: map<string, seq<string>>)
    ensures var w := WithContext(vendors, contexts);
      && |VendorSections(vendors, contexts)| == |w|
      && (forall i :: 0 <= i < |w| ==> VendorSections(vendors, contexts)[i] == VendorSection(w[i], ContextOf(contexts, w[i])))
      && (forall v :: v in w <==> v in vendors && ContextOf(contexts, v) != [])
  {
    if vendors != [] {
      var n := |vendors| - 1;
      VendorSectionsSpec(vendors[..n], contexts);
      assert forall v :: v in vendors <==> v in vendors[..n] || v == vendors[n];
    }
  }

  /** A context stored under a name that is not among `vendors` is never read. */
  lemma {:induction false} UnrequestedContextIgnored(vendors: seq<string>, contexts: map<string, seq<string>>,
                                                     key: string, chunks: seq<string>)
    requires key !in vendors
    ensures VendorSections(vendors, contexts[key := chunks]) == VendorSections(vendors, contexts)
  {
    if vendors != [] {
      var n := |vendors| - 1;
      assert vendors[n] != key;
      assert key !in vendors[..n];
      UnrequestedContextIgnored(vendors[..n], contexts, key, chunks);
    }
  }

  /** The loop of `generate_comparison` over `vendors`, and the join. */
  method BuildComparisonContext(vendors: seq<string>, contexts: map<string, seq<string>>) returns (context: string)
    ensures context == Join(VendorSections(vendors, contexts), "\n\n")
  {
    var parts: seq<string> := [];
    for n := 0 to |vendors|
      invariant parts == VendorSections(vendors[..n], contexts)
    {
      assert vendors[..n + 1][..n] == vendors[..n];
      var vendor := vendors[n];
      var chunks := if vendor in contexts then contexts[vendor] else [];
      if chunks != [] {
        var vendorContext := Join(Take(chunks, 5), "\n");
        parts := parts + ["=== " + vendor + " Documentation ===\n" + vendorContext];
      }
    }
    assert vendors[..|vendors|] == vendors;
    context := Join(parts, "\n\n");
  }

  function ComparisonHead(vendors: seq<string>, topic: string): string {
    ComparisonLead + Join(vendors, ", ") + ComparisonTopic(topic)
  }

  const ComparisonLead: string := "Compare the following vendors/topics: "

  const TopicLead: string := "\n\n" + "Topic: "

  const TopicTail: string := "\n\n" + "Documentation context:\n\n"

  function ComparisonTopic(topic: string): string {
    TopicLead + topic + TopicTail
  }

  const ComparisonTail: string :=
    "\n\n"
    + "Create a structured comparison table with these categories where applicable:\n"
    + "- Features\n- Performance\n- Security\n- Management/Administration\n"
    + "- Scalability\n- Pricing Notes\n- Key Strengths\n- Key Limitations\n\n"
    + "Use a markdown table format. If information is not available in the docs, note it."

  /** The request `generate_comparison` sends: one user turn, no history. */
  function ComparisonRequest(vendors: seq<string>, contexts: map<string, seq<string>>, topic: string): LlmRequest {
    var context := Join(VendorSections(vendors, contexts), "\n\n");
    LlmRequest(MaxTokens, ComparisonSystem, [UserTurn(ComparisonHead(vendors, topic) + context + ComparisonTail)])
  }

  /** `generate_comparison`, with the model call as `llm`. */
  method GenerateComparison(vendors: seq<string>, contexts: map<string, seq<string>>, topic: string,
                            llm: LlmRequest -> string)
    returns (comparison: string)
    ensures comparison == llm(ComparisonRequest(vendors, contexts, topic))
  {
    var context := BuildComparisonContext(vendors, contexts);
    var userMessage := ComparisonHead(vendors, topic) + context + ComparisonTail;
    comparison := llm(LlmRequest(MaxTokens, ComparisonSystem, [UserTurn(userMessage)]));
  }

  /** The request names every requested vendor and the topic, with or without context. */
  lemma ComparisonNamesVendors(vendors: seq<string>, contexts: map<string, seq<string>>, topic: string, i: nat)
    requires i < |vendors|
    ensures var r := ComparisonRequest(vendors, contexts, topic);
      |r.messages| == 1 && r.messages[0].role == UserRole
      && IsInfix(Join(vendors, ", "), r.messages[0].content)
      && IsInfix(vendors[i], r.messages[0].content)
      && IsInfix(topic, r.messages[0].content)
  {
    var context := Join(VendorSections(vendors, contexts), "\n\n");
    var rest := ComparisonTopic(topic) + context + ComparisonTail;
    var content := ComparisonHead(vendors, topic) + context + ComparisonTail;
    InfixOf(ComparisonLead, Join(vendors, ", "), rest);
    ConcatRegroup(ComparisonLead, Join(vendors, ", "), ComparisonTopic(topic), context, ComparisonTail);
    JoinInfix(vendors, ", ", i);
    InfixTransitive(vendors[i], Join(vendors, ", "), content);
    InfixOf(TopicLead, topic, TopicTail);
    InfixOf(ComparisonLead + Join(vendors, ", "), ComparisonTopic(topic), context + ComparisonTail);
    ConcatAssoc(ComparisonLead + Join(vendors, ", "), ComparisonTopic(topic), context, ComparisonTail);
    InfixTransitive(topic, ComparisonTopic(topic), content);
  }

  /** Each of the first five chunks of a requested vendor reaches the prompt. */
  lemma ComparisonQuotesChunks(vendors: seq<string>, contexts: map<string, seq<string>>, topic: string,
                               v: nat, c: nat)
    requires v < |vendors| && c < |ContextOf(contexts, vendors[v])| && c < ChunkLimit
    ensures IsInfix(ContextOf(contexts, vendors[v])[c], ComparisonRequest(vendors, contexts, topic).messages[0].content)
  {
    var vendor := vendors[v];
    var chunks := ContextOf(contexts, vendor);
    var sections := VendorSections(vendors, contexts);
    var w := WithContext(vendors, contexts);
    VendorSectionsSpec(vendors, contexts);
    assert vendor in vendors;
    var s :| 0 <= s < |w| && w[s] == vendor;
    var context := Join(sections, "\n\n");
    var content := ComparisonHead(vendors, topic) + context + ComparisonTail;
    var section := VendorSection(vendor, chunks);
    var head := "=== " + vendor + " Documentation ===\n";
    assert Take(chunks, ChunkLimit)[c] == chunks[c];
    JoinInfix(Take(chunks, ChunkLimit), "\n", c);
    InfixOf(head, Join(Take(chunks, ChunkLimit), "\n"), []);
    assert head + Join(Take(chunks, ChunkLimit), "\n") + [] == section;
    InfixTransitive(chunks[c], Join(Take(chunks, ChunkLimit), "\n"), section);
    JoinInfix(sections, "\n\n", s);
    InfixTransitive(chunks[c], section, context);
    InfixOf(ComparisonHead(vendors, topic), context, ComparisonTail);
    InfixTransitive(chunks[c], context, content);
  }

  // ---------------------------------------------------------------- config and troubleshoot

  /** `"\n\n".join(context_chunks[:5])`. */
  function FiveChunkContext(chunks: seq<string>): string {
    Join(Take(chunks, ChunkLimit), "\n\n")
  }

  /** Chunks after the fifth never reach the context, and each of the first
      five, however many chunks there are, does. */
  lemma FiveChunkContextSpec(chunks: seq<string>, extra: seq<string>, i: nat)
    ensures |chunks| >= ChunkLimit ==> FiveChunkContext(chunks + extra) == FiveChunkContext(chunks)
    ensures i < |chunks| && i < ChunkLimit ==> IsInfix(chunks[i], FiveChunkContext(chunks))
  {
    if |chunks| >= ChunkLimit {
      assert (chunks + extra)[..ChunkLimit] == chunks[..ChunkLimit];
    }
    if i < |chunks| && i < ChunkLimit {
      assert Take(chunks, ChunkLimit)[i] == chunks[i];
      JoinInfix(Take(chunks, ChunkLimit), "\n\n", i);
    }
  }

  /** The text after the inputs' first line, shared by the config and troubleshoot prompts. */
  const DocumentationLead: string := "\n\n" + "Relevant documentation:\n\n"

  const ConfigLead: string := "Configuration request: "

  const ConfigTail: string :=
    "\n\n"
    + "Generate the requested configuration. Include:\n"
    + "1. The configuration snippet in a code block\n"
    + "2. Brief explanation of each section\n"
    + "3. Any prerequisites or important notes\n"
    + "4. Common variations or options"

  function ConfigPrompt(configRequest: string, context: string): string {
    ConfigLead + configRequest + DocumentationLead + context + ConfigTail
  }

  /** A prompt `lead + x + DocumentationLead + context + tail` over the
      five-chunk context quotes `x` and each of the first five chunks. */
  lemma PromptQuotes(lead: string, x: string, chunks: seq<string>, tail: string)
    ensures var s := lead + x + DocumentationLead + FiveChunkContext(chunks) + tail;
      && IsInfix(x, s)
      && forall i :: 0 <= i < |chunks| && i < ChunkLimit ==> IsInfix(chunks[i], s)
  {
    var context := FiveChunkContext(chunks);
    var s := lead + x + DocumentationLead + context + tail;
    InfixOf(lead, x, DocumentationLead + context + tail);
    ConcatRegroup(lead, x, DocumentationLead, context, tail);
    InfixOf(lead + x + DocumentationLead, context, tail);
    forall i | 0 <= i < |chunks| && i < ChunkLimit
      ensures IsInfix(chunks[i], s)
    {
      FiveChunkContextSpec(chunks, [], i);
      InfixTransitive(chunks[i], context, s);
    }
  }

  /** The request `generate_config` sends: one user turn over the first five
      chunks, quoting the request and each of those chunks. */
  function ConfigRequest(chunks: seq<string>, configRequest: string): (r: LlmRequest)
    ensures r.maxTokens == MaxTokens && r.system == ConfigSystem
    ensures |r.messages| == 1 && r.messages[0].role == UserRole
    ensures IsInfix(configRequest, r.messages[0].content)
    ensures forall i :: 0 <= i < |chunks| && i < ChunkLimit ==> IsInfix(chunks[i], r.messages[0].content)
  {
    PromptQuotes(ConfigLead, configRequest, chunks, ConfigTail);
    LlmRequest(MaxTokens, ConfigSystem, [UserTurn(ConfigPrompt(configRequest, FiveChunkContext(chunks)))])
  }

  /** `generate_config`, with the model call as `llm`. */
  function GenerateConfig(chunks: seq<string>, configRequest: string, llm: LlmRequest -> string): string {
    llm(ConfigRequest(chunks, configRequest))
  }

  const TroubleshootLead: string := "Problem: "

  const TroubleshootTail: string := "\n\n" + "Please help diagnose and resolve this issue."

  function TroubleshootPrompt(problem: string, context: string): string {
    TroubleshootLead + problem + DocumentationLead + context + TroubleshootTail
  }

  /** The request `generate_troubleshoot` sends: the history, then one user
      turn quoting the problem and each of the first five chunks. */
  function TroubleshootRequest(chunks: seq<string>, problem: string, history: seq<Message>): (r: LlmRequest)
    ensures r.maxTokens == MaxTokens && r.system == TroubleshootSystem
    ensures |r.messages| == |history| + 1 && r.messages[..|history|] == history
    ensures r.messages[|history|].role == UserRole
    ensures IsInfix(problem, r.messages[|history|].content)
    ensures forall i :: 0 <= i < |chunks| && i < ChunkLimit ==> IsInfix(chunks[i], r.messages[|history|].content)
  {
    PromptQuotes(TroubleshootLead, problem, chunks, TroubleshootTail);
    LlmRequest(MaxTokens, TroubleshootSystem,
               history + [UserTurn(TroubleshootPrompt(problem, FiveChunkContext(chunks)))])
  }

  /** `generate_troubleshoot`, with the model call as `llm`. */
  method GenerateTroubleshoot(chunks: seq<string>, problem: string, history: seq<Message>,
                              llm: LlmRequest -> string)
    returns (diagnosis: string)
    ensures diagnosis == llm(TroubleshootRequest(chunks, problem, history))
  {
    var contextStr := FiveChunkContext(chunks);
    var messages := history;
    messages := messages + [UserTurn(TroubleshootPrompt(problem, contextStr))];
    diagnosis := llm(LlmRequest(MaxTokens, TroubleshootSystem, messages));
  }

  /** Config and troubleshoot prompts depend on the first five chunks only. */
  lemma FiveChunkRequests(chunks: seq<string>, extra: seq<string>, configRequest: string,
                          problem: string, history: seq<Message>)
    requires |chunks| >= ChunkLimit
    ensures ConfigRequest(chunks + extra, configRequest) == ConfigRequest(chunks, configRequest)
    ensures TroubleshootRequest(chunks + extra, problem, history) == TroubleshootRequest(chunks, problem, history)
  {
    FiveChunkContextSpec(chunks, extra, 0);
  }
}
