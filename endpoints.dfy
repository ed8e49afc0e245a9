/** The decision logic of the question-answering endpoints: `query_rag`,
    `troubleshoot_issue`, `compare_vendors` and `generate_configuration`.
    Each picks a session and a history, runs a retrieval, answers from a
    fixed text when nothing was found and otherwise asks the model, and the
    first two record the exchange in the session store. The searches and the
    model call are function parameters; the fresh session id, the clock and
    the measured response time are arguments. */
module Endpoints {
  import opened Types
  import opened Seqs
  import Text
  import opened Sessions
  import opened Generator
  import opened Documents

  /** `hybrid_retrieve(query, top_k)`: the chunks and metadata for a query and a count. */
  type HybridSearch = (string, int) -> Retrieved

  /** `retrieve_by_vendor`: the chunks and metadata for a query, a vendor and a count. */
  type VendorSearch = (string, string, int) -> Retrieved

  const NoInformation: string := "\U{274C} No relevant information found in the indexed documents."
  const NoDocumentation: string := "\U{274C} No relevant documentation found to generate configuration."
  const GeneralKey: string := "General"

  // ---------------------------------------------------------------- sessions

  /** `request.session_id or session_manager.create_session()`. */
  function SessionIdFor(requested: Option<string>, freshId: string): string {
    if Truthy(requested) then requested.value else freshId
  }

  /** A `conversation_history` that is present and non-empty. */
  predicate HasConversation(conversation: Option<seq<Message>>) {
    conversation.Some? && conversation.value != []
  }

  /** The history handed to the generator: the request's own conversation
      first, the stored history when a session id was given, else none. */
  function ChooseHistory(conversation: Option<seq<Message>>, requested: Option<string>,
                         stored: seq<Message>): seq<Message>
  {
    if HasConversation(conversation) then conversation.value
    else if Truthy(requested) then stored
    else []
  }

  /** The opening of `query_rag` and `troubleshoot_issue`: the session id
      and the history. A fresh session starts empty; a given id is looked up
      only when the request carries no conversation of its own, which also
      creates its entry when it is unknown. */
  method OpenSession(sm: SessionManager, requested: Option<string>, conversation: Option<seq<Message>>,
                     freshId: string, now: real)
    returns (id: string, history: seq<Message>)
    requires sm.Valid()
    requires !Truthy(requested) ==> freshId !in sm.sessions
    modifies sm
    ensures sm.Valid()
    ensures id == SessionIdFor(requested, freshId)
    ensures history == ChooseHistory(conversation, requested, old(sm.History(id)))
    ensures sm.History(id) == old(sm.History(id))
    ensures sm.sessions == if Truthy(requested) && HasConversation(conversation) then old(sm.sessions)
                           else old(sm.sessions)[id := old(sm.History(id))]
    ensures sm.sessionCreated ==
      if id in old(sm.sessionCreated) || (Truthy(requested) && HasConversation(conversation))
      then old(sm.sessionCreated) else old(sm.sessionCreated)[id := now]
    ensures sm.AnalyticsUnchanged()
  {
    if Truthy(requested) {
      id := requested.value;
    } else {
      id := sm.CreateSession(freshId, now);
    }
    if HasConversation(conversation) {
      history := conversation.value;
    } else if Truthy(requested) {
      history := sm.GetHistory(id, now);
    } else {
      history := [];
    }
  }

  /** The two `add_message` calls: the user turn, then the assistant turn. */
  method RecordExchange(sm: SessionManager, id: string, question: string, reply: string, now: real)
    requires sm.Valid()
    modifies sm
    ensures sm.Valid()
    ensures sm.sessions == old(sm.sessions)[id := Exchanged(old(sm.History(id)), question, reply)]
    ensures sm.sessionCreated ==
      if id in old(sm.sessionCreated) then old(sm.sessionCreated) else old(sm.sessionCreated)[id := now]
    ensures sm.AnalyticsUnchanged()
  {
    var user, assistant := Message(UserRole, question), Message(AssistantRole, reply);
    ghost var sessions0, history0 := sm.sessions, sm.History(id);
    sm.AddMessage(id, UserRole, question, now);
    ghost var sessions1, history1, created1 := sm.sessions, sm.History(id), sm.sessionCreated;
    assert history1 == LastN(history0 + [user], MaxHistory);
    assert id in created1 by { assert id in sessions1; }
    sm.AddMessage(id, AssistantRole, reply, now);
    Rewrite(sessions0, sessions1, id, history1, LastN(history1 + [assistant], MaxHistory));
    LastNAppendTwice(history0, user, assistant, MaxHistory);
  }

  /** A history after one exchange: the question and the reply appended, cut
      to the last `MaxHistory` messages. */
  function Exchanged(history: seq<Message>, question: string, reply: string): seq<Message> {
    LastN(history + [Message(UserRole, question), Message(AssistantRole, reply)], MaxHistory)
  }

  /** After an exchange the history is within its cap and ends with exactly
      the user turn and then the assistant turn, and what stays of the old
      history is its most recent part, in order. */
  lemma ExchangedSpec(history: seq<Message>, question: string, reply: string)
    ensures var h := Exchanged(history, question, reply);
      && 2 <= |h| <= MaxHistory
      && h[|h| - 2] == Message(UserRole, question)
      && h[|h| - 1] == Message(AssistantRole, reply)
      && h[..|h| - 2] == history[|history| - (|h| - 2)..]
  {
    var s := history + [Message(UserRole, question), Message(AssistantRole, reply)];
    var h := Exchanged(history, question, reply);
    assert h == s[|s| - |h|..];
    assert s[|s| - 2] == Message(UserRole, question);
    assert h[..|h| - 2] == s[|s| - |h|..|s| - 2];
    assert s[..|s| - 2] == history;
  }

  /** The end of `query_rag` and `troubleshoot_issue`: the exchange goes
      into the session, then the question into the analytics. */
  method CloseTurn(sm: SessionManager, id: string, question: string, reply: string, now: real, responseTime: real)
    requires sm.Valid()
    modifies sm
    ensures sm.Valid()
    ensures sm.sessions == old(sm.sessions)[id := Exchanged(old(sm.History(id)), question, reply)]
    ensures sm.sessionCreated ==
      if id in old(sm.sessionCreated) then old(sm.sessionCreated) else old(sm.sessionCreated)[id := now]
    ensures sm.queryCount == old(sm.queryCount) + 1
    ensures sm.responseTimes == old(sm.responseTimes) + [responseTime]
    ensures sm.recentQueries == LastN(old(sm.recentQueries) + [QueryRecord(question, now, responseTime)], MaxRecentQueries)
    ensures sm.topics == AddTopics(old(sm.topics), QuestionWords(question))
  {
    RecordExchange(sm, id, question, reply, now);
    sm.TrackQuery(question, responseTime, now);
  }

  /** Writing `k` after a map was left alone or had `k` written gives the
      same map. */
  lemma Rewrite<K, V>(m0: map<K, V>, m1: map<K, V>, k: K, v: V, x: V)
    requires m1 == m0 || m1 == m0[k := v]
    ensures m1[k := x] == m0[k := x]
  {
    if m1 != m0 {
      assert m0[k := v][k := x] == m0[k := x];
    }
  }

  /** Recording a creation time for `k` once or twice gives the same map. */
  lemma CreateOnce<K>(c0: map<K, real>, c1: map<K, real>, k: K, now: real)
    requires c1 == c0 || (k !in c0 && c1 == c0[k := now])
    ensures (if k in c1 then c1 else c1[k := now]) == (if k in c0 then c0 else c0[k := now])
  {
  }

  // ---------------------------------------------------------------- query and troubleshoot

  datatype QueryResponse = QueryResponse(answer: string, sources: seq<SourceInfo>, sessionId: string)

  /** The answer of `query_rag` once the retrieval is done: a fixed reply
      when nothing was found, the model's answer with its sources otherwise. */
  method AnswerFound(question: string, found: Retrieved, history: seq<Message>, llm: LlmRequest -> string)
    returns (answer: string, sources: seq<SourceInfo>)
    ensures found.chunks == [] ==> answer == NoInformation && sources == []
    ensures found.chunks != [] ==>
      && answer == llm(AnswerRequest(question, found.chunks, found.metas, history, None))
      && sources == ParseSources(found.metas)
  {
    if found.chunks == [] {
      answer, sources := NoInformation, [];
    } else {
      answer := GenerateAnswer(question, found.chunks, found.metas, history, None, llm);
      sources := ParseSources(found.metas);
    }
  }

  /** `query_rag`. */
  method QueryRag(sm: SessionManager, question: string, requested: Option<string>, topK: int,
                  conversation: Option<seq<Message>>, freshId: string, now: real, responseTime: real,
                  hybrid: HybridSearch, llm: LlmRequest -> string)
    returns (r: QueryResponse)
    requires sm.Valid()
    requires !Truthy(requested) ==> freshId !in sm.sessions
    modifies sm
    ensures sm.Valid()
    ensures r.sessionId == SessionIdFor(requested, freshId)
    ensures var found := hybrid(question, topK);
      var history := ChooseHistory(conversation, requested, old(sm.History(r.sessionId)));
      if found.chunks == [] then r.answer == NoInformation && r.sources == []
      else r.answer == llm(AnswerRequest(question, found.chunks, found.metas, history, None))
           && r.sources == ParseSources(found.metas)
    ensures sm.sessions == old(sm.sessions)[r.sessionId := Exchanged(old(sm.History(r.sessionId)), question, r.answer)]
    ensures sm.sessionCreated == if r.sessionId in old(sm.sessionCreated) then old(sm.sessionCreated)
                                 else old(sm.sessionCreated)[r.sessionId := now]
    ensures sm.queryCount == old(sm.queryCount) + 1
    ensures sm.responseTimes == old(sm.responseTimes) + [responseTime]
    ensures sm.recentQueries == LastN(old(sm.recentQueries) + [QueryRecord(question, now, responseTime)], MaxRecentQueries)
    ensures sm.topics == AddTopics(old(sm.topics), QuestionWords(question))
  {
    ghost var sessions0, created0 := sm.sessions, sm.sessionCreated;
    var id, history := OpenSession(sm, requested, conversation, freshId, now);
    ghost var sessions1, created1, history0 := sm.sessions, sm.sessionCreated, sm.History(id);
    var found := hybrid(question, topK);
    var answer, sources := AnswerFound(question, found, history, llm);
    CloseTurn(sm, id, question, answer, now, responseTime);
    Rewrite(sessions0, sessions1, id, history0, Exchanged(history0, question, answer));
    CreateOnce(created0, created1, id, now);
    r := QueryResponse(answer, sources, id);
  }

  datatype TroubleshootResponse = TroubleshootResponse(diagnosis: string, sources: seq<SourceInfo>, sessionId: string)

  /** `troubleshoot_issue`: as the query, but the model is asked even when
      the retrieval found nothing. */
  method TroubleshootIssue(sm: SessionManager, problem: string, requested: Option<string>, topK: int,
                           conversation: Option<seq<Message>>, freshId: string, now: real, responseTime: real,
                           hybrid: HybridSearch, llm: LlmRequest -> string)
    returns (r: TroubleshootResponse)
    requires sm.Valid()
    requires !Truthy(requested) ==> freshId !in sm.sessions
    modifies sm
    ensures sm.Valid()
    ensures r.sessionId == SessionIdFor(requested, freshId)
    ensures var found := hybrid(problem, topK);
      var history := ChooseHistory(conversation, requested, old(sm.History(r.sessionId)));
      && r.diagnosis == llm(TroubleshootRequest(found.chunks, problem, history))
      && r.sources == ParseSources(found.metas)
    ensures sm.sessions == old(sm.sessions)[r.sessionId := Exchanged(old(sm.History(r.sessionId)), problem, r.diagnosis)]
    ensures sm.sessionCreated == if r.sessionId in old(sm.sessionCreated) then old(sm.sessionCreated)
                                 else old(sm.sessionCreated)[r.sessionId := now]
    ensures sm.queryCount == old(sm.queryCount) + 1
    ensures sm.responseTimes == old(sm.responseTimes) + [responseTime]
    ensures sm.recentQueries == LastN(old(sm.recentQueries) + [QueryRecord(problem, now, responseTime)], MaxRecentQueries)
    ensures sm.topics == AddTopics(old(sm.topics), QuestionWords(problem))
  {
    ghost var sessions0, created0 := sm.sessions, sm.sessionCreated;
    var id, history := OpenSession(sm, requested, conversation, freshId, now);
    ghost var sessions1, created1, history0 := sm.sessions, sm.sessionCreated, sm.History(id);
    var found := hybrid(problem, topK);
    var diagnosis := GenerateTroubleshoot(found.chunks, problem, history, llm);
    CloseTurn(sm, id, problem, diagnosis, now, responseTime);
    Rewrite(sessions0, sessions1, id, history0, Exchanged(history0, problem, diagnosis));
    CreateOnce(created0, created1, id, now);
    var sources := if found.metas != [] then ParseSources(found.metas) else [];
    r := TroubleshootResponse(diagnosis, sources, id);
  }

  // ---------------------------------------------------------------- compare

  /** What the per-vendor loop of `compare_vendors` gathers: the vendors
      with chunks in request order, their chunks by name, their sources. */
  datatype Collected = Collected(found: seq<string>, contexts: map<string, seq<string>>, sources: seq<SourceInfo>)

  function Collect(vendors: seq<string>, topic: string, topK: int, byVendor: VendorSearch): Collected {
    if vendors == [] then Collected([], map[], [])
    else
      var n := |vendors| - 1;
      var c := Collect(vendors[..n], topic, topK, byVendor);
      var res := byVendor(topic, vendors[n], topK);
      if res.chunks != [] then
        Collected(c.found + [vendors[n]], c.contexts[vendors[n] := res.chunks], c.sources + ParseSources(res.metas))
      else c
  }

  /** A vendor is found exactly when it was requested and its search gave
      chunks, so no more vendors are found than were requested. */
  lemma {:induction false} CollectFound(vendors: seq<string>, topic: string, topK: int, byVendor: VendorSearch)
    ensures var c := Collect(vendors, topic, topK, byVendor);
      && |c.found| <= |vendors|
      && (forall v :: v in c.found <==> v in vendors && byVendor(topic, v, topK).chunks != [])
  {
    if vendors != [] {
      var n := |vendors| - 1;
      CollectFound(vendors[..n], topic, topK, byVendor);
      assert forall v :: v in vendors <==> v in vendors[..n] || v == vendors[n];
    }
  }

  /** The contexts hold each requested vendor whose search gave chunks, with
      the chunks of its own search, and nothing else. */
  lemma {:induction false} CollectContexts(vendors: seq<string>, topic: string, topK: int, byVendor: VendorSearch)
    ensures var c := Collect(vendors, topic, topK, byVendor);
      forall v :: v in c.contexts <==> v in vendors && byVendor(topic, v, topK).chunks != []
    ensures var c := Collect(vendors, topic, topK, byVendor);
      forall v :: v in c.contexts ==> c.contexts[v] == byVendor(topic, v, topK).chunks
  {
    if vendors != [] {
      var n := |vendors| - 1;
      CollectContexts(vendors[..n], topic, topK, byVendor);
      assert forall v :: v in vendors <==> v in vendors[..n] || v == vendors[n];
    }
  }

  /** A vendor is found exactly when it was requested and its search gave
      chunks; the contexts hold exactly the found vendors, each with the
      chunks of its own search. */
  lemma CollectSpec(vendors: seq<string>, topic: string, topK: int, byVendor: VendorSearch)
    ensures var c := Collect(vendors, topic, topK, byVendor);
      && |c.found| <= |vendors|
      && (forall v :: v in c.found <==> v in vendors && byVendor(topic, v, topK).chunks != [])
      && (forall v :: v in c.contexts <==> v in c.found)
      && (forall v :: ContextOf(c.contexts, v) == if v in vendors then byVendor(topic, v, topK).chunks else [])
  {
    CollectFound(vendors, topic, topK, byVendor);
    CollectContexts(vendors, topic, topK, byVendor);
  }

  /** The metadata of every per-vendor search that found chunks, in request order. */
  function FoundMetas(vendors: seq<string>, topic: string, topK: int, byVendor: VendorSearch): seq<Metadata> {
    if vendors == [] then []
    else
      var n := |vendors| - 1;
      var res := byVendor(topic, vendors[n], topK);
      FoundMetas(vendors[..n], topic, topK, byVendor) + (if res.chunks != [] then res.metas else [])
  }

  /** The sources `compare_vendors` extends batch by batch are the parsed
      sources of all the found searches' metadata, in request order. */
  lemma {:induction false} CollectSources(vendors: seq<string>, topic: string, topK: int, byVendor: VendorSearch)
    ensures Collect(vendors, topic, topK, byVendor).sources == ParseSources(FoundMetas(vendors, topic, topK, byVendor))
  {
    if vendors != [] {
      var n := |vendors| - 1;
      var res := byVendor(topic, vendors[n], topK);
      var pre := FoundMetas(vendors[..n], topic, topK, byVendor);
      CollectSources(vendors[..n], topic, topK, byVendor);
      if res.chunks != [] {
        ParseSourcesAppend(pre, res.metas);
      } else {
        assert pre + [] == pre;
      }
    }
  }

  /** The sections of the comparison prompt depend only on the contexts of
      the requested vendors. */
  lemma {:induction false} WithContextAgree(vendors: seq<string>, a: map<string, seq<string>>, b: map<string, seq<string>>)
    requires forall v :: v in vendors ==> ContextOf(a, v) == ContextOf(b, v)
    ensures WithContext(vendors, a) == WithContext(vendors, b)
  {
    if vendors != [] {
      var n := |vendors| - 1;
      assert vendors[n] in vendors;
      forall v | v in vendors[..n] ensures ContextOf(a, v) == ContextOf(b, v) {
        assert v in vendors;
      }
      WithContextAgree(vendors[..n], a, b);
    }
  }

  /** `vendors_found` from the loop lists exactly the vendors that get a
      section in the comparison prompt, in the same order. */
  lemma {:induction false} CollectFoundSections(vendors: seq<string>, topic: string, topK: int, byVendor: VendorSearch)
    ensures var c := Collect(vendors, topic, topK, byVendor);
      c.found == WithContext(vendors, c.contexts)
  {
    if vendors != [] {
      var n := |vendors| - 1;
      var c := Collect(vendors, topic, topK, byVendor);
      var p := Collect(vendors[..n], topic, topK, byVendor);
      CollectFoundSections(vendors[..n], topic, topK, byVendor);
      CollectSpec(vendors[..n], topic, topK, byVendor);
      CollectSpec(vendors, topic, topK, byVendor);
      forall v | v in vendors[..n] ensures ContextOf(c.contexts, v) == ContextOf(p.contexts, v) {
        assert v in vendors;
      }
      WithContextAgree(vendors[..n], c.contexts, p.contexts);
    }
  }

  /** The fallback query: the topic and then every vendor, space-separated. */
  function FallbackQuery(topic: string, vendors: seq<string>): string {
    topic + " " + Text.Join(vendors, " ")
  }

  datatype CompareResponse = CompareResponse(comparison: string, vendorsFound: seq<string>, sources: seq<SourceInfo>)

  /** `compare_vendors`: ask each vendor's search; when none found anything,
      ask one hybrid search for `top_k * len(vendors)` hits and file what it
      finds under "General", reporting every requested vendor as found. */
  method CompareVendors(vendors: seq<string>, topic: string, topK: int, byVendor: VendorSearch,
                        hybrid: HybridSearch, llm: LlmRequest -> string)
    returns (r: CompareResponse)
    ensures var c := Collect(vendors, topic, topK, byVendor);
      var general := hybrid(FallbackQuery(topic, vendors), topK * |vendors|);
      var fallback := c.found == [] && general.chunks != [];
      && r.vendorsFound == (if fallback then vendors else c.found)
      && r.sources == (if fallback then ParseSources(general.metas) else c.sources)
      && r.comparison == llm(ComparisonRequest(vendors, if fallback then map[GeneralKey := general.chunks] else c.contexts, topic))
    ensures forall v :: v in r.vendorsFound ==> v in vendors
  {
    var contexts: map<string, seq<string>> := map[];
    var sources: seq<SourceInfo> := [];
    var found: seq<string> := [];
    for i := 0 to |vendors|
      invariant Collected(found, contexts, sources) == Collect(vendors[..i], topic, topK, byVendor)
    {
      assert vendors[..i + 1][..i] == vendors[..i];
      var res := byVendor(topic, vendors[i], topK);
      if res.chunks != [] {
        contexts := contexts[vendors[i] := res.chunks];
        found := found + [vendors[i]];
        sources := sources + ParseSources(res.metas);
      }
    }
    assert vendors[..|vendors|] == vendors;
    CollectSpec(vendors, topic, topK, byVendor);
    if found == [] {
      assert contexts == map[];
      var general := hybrid(FallbackQuery(topic, vendors), topK * |vendors|);
      if general.chunks != [] {
        contexts := contexts[GeneralKey := general.chunks];
        found := vendors;
        sources := ParseSources(general.metas);
      }
    }
    var comparison := GenerateComparison(vendors, contexts, topic, llm);
    r := CompareResponse(comparison, found, sources);
  }

  /** The chunks of the fallback search never reach the prompt unless a
      vendor is literally named "General": the prompt then has no
      documentation section at all. */
  lemma FallbackNotQuoted(vendors: seq<string>, topic: string, chunks: seq<string>)
    requires GeneralKey !in vendors
    ensures ComparisonRequest(vendors, map[GeneralKey := chunks], topic) == ComparisonRequest(vendors, map[], topic)
    ensures VendorSections(vendors, map[GeneralKey := chunks]) == []
  {
    var empty: map<string, seq<string>> := map[];
    assert empty[GeneralKey := chunks] == map[GeneralKey := chunks];
    UnrequestedContextIgnored(vendors, empty, GeneralKey, chunks);
    NoContextNoSections(vendors);
  }

  lemma {:induction false} NoContextNoSections(vendors: seq<string>)
    ensures VendorSections(vendors, map[]) == []
  {
    if vendors != [] {
      NoContextNoSections(vendors[..|vendors| - 1]);
    }
  }

  // ---------------------------------------------------------------- config-gen

  datatype ConfigResponse = ConfigResponse(config: string, sources: seq<SourceInfo>)

  /** The retrieval of `generate_configuration`: the vendor's own search
      when a vendor is given, the hybrid search otherwise. */
  function ConfigSearch(request: string, vendor: Option<string>, topK: int, byVendor: VendorSearch,
                        hybrid: HybridSearch): Retrieved
  {
    if Truthy(vendor) then byVendor(request, vendor.value, topK) else hybrid(request, topK)
  }

  /** `generate_configuration`: the fixed text and no sources when nothing
      was found; otherwise the model's configuration over the first five
      chunks, with the parsed sources of every metadata found. */
  function GenerateConfiguration(request: string, vendor: Option<string>, topK: int, byVendor: VendorSearch,
                                 hybrid: HybridSearch, llm: LlmRequest -> string): (r: ConfigResponse)
    ensures var found := ConfigSearch(request, vendor, topK, byVendor, hybrid);
      && (found.chunks == [] ==> r == ConfigResponse(NoDocumentation, []))
      && (found.chunks != [] ==>
            && r.config == llm(ConfigRequest(Take(found.chunks, ChunkLimit), request))
            && r.sources == ParseSources(found.metas))
  {
    var found := ConfigSearch(request, vendor, topK, byVendor, hybrid);
    if found.chunks == [] then ConfigResponse(NoDocumentation, [])
    else
      assert Take(Take(found.chunks, ChunkLimit), ChunkLimit) == Take(found.chunks, ChunkLimit);
      ConfigResponse(GenerateConfig(found.chunks, request, llm), ParseSources(found.metas))
  }
}
