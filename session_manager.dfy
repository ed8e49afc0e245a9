/** The in-memory session manager: per-session conversation histories capped
    at the last 20 messages, and query analytics (a query counter, the last
    100 queries, per-word topic counts and a read-only summary). */
module Sessions {
  import opened Types
  import opened Text
  import opened Seqs

  const MaxHistory: nat := 20
  const MaxRecentQueries: nat := 100
  const MaxPopularTopics: nat := 20
  const RecentQueriesShown: nat := 10

  datatype QueryRecord = QueryRecord(question: string, timestamp: real, responseTime: real)
  datatype TopicCount = TopicCount(topic: string, count: nat)
  datatype Analytics = Analytics(
    totalQueries: nat,
    activeSessions: nat,
    avgResponseTime: real,
    popularTopics: seq<TopicCount>,
    recentQueries: seq<QueryRecord>)

  /** A word is counted as a topic when it is longer than three characters
      and alphabetic. */
  predicate IsTopicWord(w: string) { |w| > 3 && IsAlpha(w) }

  /** The words `question.lower().split()` yields. */
  function QuestionWords(question: string): seq<string> {
    Words(Lower(question))
  }

  lemma QuestionWordsLower(question: string)
    ensures forall w :: w in QuestionWords(question) ==> NoUpper(w)
  {
    RunsChars(Lower(question), [], NotSpace);
  }

  /** The topic-count dictionary: its counts and its keys in insertion order. */
  datatype Topics = Topics(order: seq<string>, counts: map<string, nat>)

  ghost predicate TopicsValid(t: Topics) {
    && NoDup(t.order)
    && (forall w :: w in t.counts <==> w in t.order)
    && (forall w :: w in t.counts ==> t.counts[w] >= 1)
  }

  function CountOf(t: Topics, w: string): nat {
    if w in t.counts then t.counts[w] else 0
  }

  /** One step of the topic loop: `counts[word] += 1` for a topic word. */
  function Bump(t: Topics, w: string): Topics {
    if IsTopicWord(w) then
      Topics(if w in t.counts then t.order else t.order + [w], t.counts[w := CountOf(t, w) + 1])
    else t
  }

  /** A step keeps the table well formed and its keys lowercase topic words. */
  lemma BumpKeeps(t: Topics, w: string)
    requires TopicsValid(t) && NoUpper(w)
    requires forall k :: k in t.counts ==> IsTopicWord(k) && NoUpper(k)
    ensures TopicsValid(Bump(t, w))
    ensures forall k :: k in Bump(t, w).counts ==> IsTopicWord(k) && NoUpper(k)
  {
    if IsTopicWord(w) && w !in t.counts {
      assert NoDup(t.order + [w]) by { NoDupSnoc(t.order, w); }
    }
  }

  /** The topic loop over a whole word list. */
  function AddTopics(t: Topics, ws: seq<string>): Topics {
    if ws == [] then t else Bump(AddTopics(t, ws[..|ws| - 1]), ws[|ws| - 1])
  }

  /** Each topic word raises its own count once per occurrence; no other count moves. */
  lemma {:induction false} AddTopicsCount(t: Topics, ws: seq<string>, w: string)
    ensures CountOf(AddTopics(t, ws), w) == CountOf(t, w) + (if IsTopicWord(w) then Count(w, ws) else 0)
  {
    if ws != [] {
      AddTopicsCount(t, ws[..|ws| - 1], w);
    }
  }

  /** The table stays well formed, and its keys are the old keys plus the topic words seen. */
  lemma {:induction false} AddTopicsKeys(t: Topics, ws: seq<string>)
    requires TopicsValid(t)
    ensures TopicsValid(AddTopics(t, ws))
    ensures forall w :: w in AddTopics(t, ws).counts <==> w in t.counts || (w in ws && IsTopicWord(w))
  {
    if ws != [] {
      var p := ws[..|ws| - 1];
      AddTopicsKeys(t, p);
      assert forall w :: w in ws <==> w in p || w == ws[|ws| - 1];
    }
  }

  /** The `(topic, count)` items of the dictionary, in insertion order. */
  function TopicItems(t: Topics): seq<TopicCount> {
    seq(|t.order|, i requires 0 <= i < |t.order| => TopicCount(t.order[i], CountOf(t, t.order[i])))
  }

  function ItemCount(p: TopicCount): real { p.count as real }

  /** `sorted(items, key=count, reverse=True)[:20]`. */
  function PopularTopics(t: Topics): seq<TopicCount> {
    Take(SortDesc(TopicItems(t), ItemCount), MaxPopularTopics)
  }

  /** Every item is a key of the table with its count; items are distinct
      and there is one per key. */
  lemma TopicItemsSpec(t: Topics)
    requires TopicsValid(t)
    ensures |TopicItems(t)| == |t.counts|
    ensures NoDup(TopicItems(t))
    ensures forall p :: p in TopicItems(t) ==> p.topic in t.counts && p.count == t.counts[p.topic]
    ensures forall w :: w in t.counts ==> TopicCount(w, t.counts[w]) in TopicItems(t)
  {
    var items := TopicItems(t);
    assert t.counts.Keys == set w | w in t.order;
    DistinctCard(t.order);
    forall w | w in t.counts ensures TopicCount(w, t.counts[w]) in items {
      var a :| 0 <= a < |t.order| && t.order[a] == w;
      assert items[a] == TopicCount(w, t.counts[w]);
    }
  }

  /** At most 20 topics, as many as there are up to that bound, most frequent first. */
  lemma PopularTopicsOrder(t: Topics)
    requires TopicsValid(t)
    ensures var r := PopularTopics(t);
      && |r| == (if |t.counts| < MaxPopularTopics then |t.counts| else MaxPopularTopics)
      && (forall i, j :: 0 <= i < j < |r| ==> r[i].count >= r[j].count)
  {
    TopicItemsSpec(t);
    var sorted := SortDesc(TopicItems(t), ItemCount);
    SortDescSpec(TopicItems(t), ItemCount);
    var r := PopularTopics(t);
    forall i, j | 0 <= i < j < |r| ensures r[i].count >= r[j].count {
      assert ItemCount(sorted[i]) >= ItemCount(sorted[j]);
    }
  }

  /** The topics shown are distinct keys of the table, each with its true count. */
  lemma PopularTopicsEntries(t: Topics)
    requires TopicsValid(t)
    ensures var r := PopularTopics(t);
      && (forall i, j :: 0 <= i < j < |r| ==> r[i].topic != r[j].topic)
      && (forall i :: 0 <= i < |r| ==> r[i].topic in t.counts && r[i].count == t.counts[r[i].topic])
  {
    var items := TopicItems(t);
    TopicItemsSpec(t);
    var sorted := SortDesc(items, ItemCount);
    SortDescSpec(items, ItemCount);
    NoDupPermutation(items, sorted);
    var r := PopularTopics(t);
    forall i | 0 <= i < |r| ensures r[i].topic in t.counts && r[i].count == t.counts[r[i].topic] {
      assert r[i] == sorted[i];
      assert sorted[i] in items;
    }
    forall i, j | 0 <= i < j < |r| ensures r[i].topic != r[j].topic {
      assert r[i] == sorted[i] && r[j] == sorted[j];
      assert sorted[i] in items && sorted[j] in items;
    }
  }

  /** No topic left out counts more than any topic shown. */
  lemma PopularTopicsTop(t: Topics, w: string)
    requires TopicsValid(t)
    requires w in t.counts
    requires forall i :: 0 <= i < |PopularTopics(t)| ==> PopularTopics(t)[i].topic != w
    ensures forall i :: 0 <= i < |PopularTopics(t)| ==> PopularTopics(t)[i].count >= t.counts[w]
  {
    var items := TopicItems(t);
    TopicItemsSpec(t);
    var sorted := SortDesc(items, ItemCount);
    SortDescSpec(items, ItemCount);
    var r := PopularTopics(t);
    var x := TopicCount(w, t.counts[w]);
    assert x in multiset(sorted);
    assert forall i :: 0 <= i < |r| ==> r[i] != x;
    assert x !in r;
    DescendingPrefixTop(sorted, MaxPopularTopics, x, ItemCount);
    forall i | 0 <= i < |r| ensures r[i].count >= t.counts[w] {
      assert r[i] in r;
    }
  }

  lemma {:induction false} DistinctCard(s: seq<string>)
    requires NoDup(s)
    ensures |set w | w in s| == |s|
  {
    if s != [] {
      var p := s[..|s| - 1];
      DistinctCard(p);
      assert (set w | w in s) == (set w | w in p) + {s[|s| - 1]};
      assert s[|s| - 1] !in p;
    }
  }

  /** The topic-counting loop of `track_query`: each topic word of the
      question adds one to its count, a new word joining at the end. */
  method CountTopics(t0: Topics, words: seq<string>) returns (t: Topics)
    requires TopicsValid(t0)
    requires forall w :: w in t0.counts ==> IsTopicWord(w) && NoUpper(w)
    requires forall i :: 0 <= i < |words| ==> NoUpper(words[i])
    ensures t == AddTopics(t0, words)
    ensures TopicsValid(t)
    ensures forall w :: w in t.counts ==> IsTopicWord(w) && NoUpper(w)
  {
    t := t0;
    var i := 0;
    while i < |words|
      invariant 0 <= i <= |words|
      invariant t == AddTopics(t0, words[..i])
      invariant TopicsValid(t)
      invariant forall w :: w in t.counts ==> IsTopicWord(w) && NoUpper(w)
    {
      var w := words[i];
      assert words[..i + 1][..i] == words[..i];
      ghost var before := t;
      if |w| > 3 && IsAlpha(w) {
        if w !in t.counts {
          t := Topics(t.order + [w], t.counts[w := 0]);
        }
        t := t.(counts := t.counts[w := t.counts[w] + 1]);
      }
      assert t == Bump(before, w);
      BumpKeeps(before, w);
      i := i + 1;
    }
    assert words[..|words|] == words;
  }

  /** What the session store keeps true: every session has a creation time
      and at most `MaxHistory` messages, the query log is within its cap, the
      topic table is consistent and holds only lowercase topic words, and
      one response time is kept per query. */
  ghost predicate StoreInvariant(sessions: map<string, seq<Message>>, sessionCreated: map<string, real>,
                                 recentQueries: seq<QueryRecord>, topics: Topics,
                                 responseTimes: seq<real>, queryCount: nat)
  {
    && sessions.Keys == sessionCreated.Keys
    && (forall id :: id in sessions ==> |sessions[id]| <= MaxHistory)
    && |recentQueries| <= MaxRecentQueries
    && TopicsValid(topics)
    && (forall w :: w in topics.counts ==> IsTopicWord(w) && NoUpper(w))
    && |responseTimes| == queryCount
  }

  class SessionManager {
    /** session id -> messages `{role, content}` */
    var sessions: map<string, seq<Message>>
    /** session id -> creation time */
    var sessionCreated: map<string, real>
    var queryCount: nat
    var recentQueries: seq<QueryRecord>
    var topics: Topics
    var responseTimes: seq<real>

    ghost predicate Valid()
      reads this
    {
      StoreInvariant(sessions, sessionCreated, recentQueries, topics, responseTimes, queryCount)
    }

    /** The stored history of `id`, empty when there is none. */
    function History(id: string): seq<Message>
      reads this
    {
      if id in sessions then sessions[id] else []
    }

    twostate predicate AnalyticsUnchanged()
      reads this
    {
      && queryCount == old(queryCount)
      && recentQueries == old(recentQueries)
      && topics == old(topics)
      && responseTimes == old(responseTimes)
    }

    constructor ()
      ensures Valid()
      ensures sessions == map[] && sessionCreated == map[]
      ensures queryCount == 0 && recentQueries == [] && responseTimes == []
      ensures topics == Topics([], map[])
    {
      sessions := map[];
      sessionCreated := map[];
      queryCount := 0;
      recentQueries := [];
      topics := Topics([], map[]);
      responseTimes := [];
    }

    /** `create_session`: `id` stands for the fresh uuid4, `now` for the clock. */
    method CreateSession(id: string, now: real) returns (sessionId: string)
      requires Valid()
      requires id !in sessions
      modifies this
      ensures Valid()
      ensures sessionId == id && History(id) == []
      ensures sessions == old(sessions)[id := []]
      ensures |sessions| == |old(sessions)| + 1
      ensures sessionCreated == old(sessionCreated)[id := now]
      ensures AnalyticsUnchanged()
    {
      sessions := sessions[id := []];
      sessionCreated := sessionCreated[id := now];
      sessionId := id;
    }

    /** `get_history`: an unknown id first gets an empty history. */
    method GetHistory(id: string, now: real) returns (history: seq<Message>)
      requires Valid()
      modifies this
      ensures Valid()
      ensures history == old(History(id))
      ensures sessions == old(sessions)[id := history]
      ensures sessionCreated == if id in old(sessionCreated) then old(sessionCreated)
                                else old(sessionCreated)[id := now]
      ensures AnalyticsUnchanged()
    {
      if id !in sessions {
        sessions := sessions[id := []];
        sessionCreated := sessionCreated[id := now];
      }
      history := sessions[id];
    }

    /** `add_message`: append, then keep the last 20 messages. */
    method AddMessage(id: string, role: string, content: string, now: real)
      requires Valid()
      modifies this
      ensures Valid()
      ensures sessions == old(sessions)[id := LastN(old(History(id)) + [Message(role, content)], MaxHistory)]
      ensures |History(id)| <= MaxHistory
      ensures History(id)[|History(id)| - 1] == Message(role, content)
      ensures sessionCreated == if id in old(sessionCreated) then old(sessionCreated)
                                else old(sessionCreated)[id := now]
      ensures AnalyticsUnchanged()
    {
      if id !in sessions {
        sessions := sessions[id := []];
        sessionCreated := sessionCreated[id := now];
      }
      var h := sessions[id] + [Message(role, content)];
      assert h == old(History(id)) + [Message(role, content)];
      if |h| > MaxHistory {
        h := h[|h| - MaxHistory..];
      }
      assert h == LastN(old(History(id)) + [Message(role, content)], MaxHistory);
      sessions := sessions[id := h];
      assert History(id) == h;
    }

    /** `delete_session`: a no-op for an unknown id, so deleting twice is deleting once. */
    method DeleteSession(id: string)
      requires Valid()
      modifies this
      ensures Valid()
      ensures sessions == old(sessions) - {id}
      ensures sessionCreated == old(sessionCreated) - {id}
      ensures id !in old(sessions) ==> sessions == old(sessions)
      ensures AnalyticsUnchanged()
    {
      sessions := sessions - {id};
      sessionCreated := sessionCreated - {id};
      assert sessions.Keys == old(sessions).Keys - {id};
      assert sessionCreated.Keys == old(sessionCreated).Keys - {id};
    }

    /** `track_query`: count the query, log it (last 100 kept) and count its topic words. */
    method TrackQuery(question: string, responseTime: real, now: real)
      requires Valid()
      modifies this
      ensures Valid()
      ensures queryCount == old(queryCount) + 1
      ensures responseTimes == old(responseTimes) + [responseTime]
      ensures recentQueries == LastN(old(recentQueries) + [QueryRecord(question, now, responseTime)], MaxRecentQueries)
      ensures |recentQueries| <= MaxRecentQueries
      ensures recentQueries[|recentQueries| - 1].question == question
      ensures topics == AddTopics(old(topics), QuestionWords(question))
      ensures sessions == old(sessions) && sessionCreated == old(sessionCreated)
    {
      queryCount := queryCount + 1;
      responseTimes := responseTimes + [responseTime];
      var log := recentQueries + [QueryRecord(question, now, responseTime)];
      if |log| > MaxRecentQueries {
        log := log[|log| - MaxRecentQueries..];
      }
      recentQueries := log;

      var words := QuestionWords(question);
      QuestionWordsLower(question);
      topics := CountTopics(topics, words);
    }

    /** `get_analytics`: a read-only summary. */
    method GetAnalytics() returns (a: Analytics)
      requires Valid()
      ensures a.totalQueries == queryCount
      ensures a.activeSessions == |sessions|
      ensures a.avgResponseTime == if responseTimes == [] then 0.0
                                   else Sum(responseTimes) / (|responseTimes| as real)
      ensures a.popularTopics == PopularTopics(topics)
      ensures |a.popularTopics| <= MaxPopularTopics
      ensures a.recentQueries == LastN(recentQueries, RecentQueriesShown)
      ensures |a.recentQueries| <= RecentQueriesShown
    {
      var avg := if responseTimes == [] then 0.0 else Sum(responseTimes) / (|responseTimes| as real);
      a := Analytics(queryCount, |sessions|, avg, PopularTopics(topics), LastN(recentQueries, RecentQueriesShown));
    }
  }
}
