/** MultiDocumentRAGService: answering a question from all stores, the overall
    confidence of an answer, the status of the stores and of Redis, and the demo
    queries. The chat model and the Redis server are inputs: the chat model is a
    total function from prompt to reply (or to the message of the exception it
    raised), and the Redis server is the replies it gives. */
module RagService {
  import opened Common
  import opened JavaStrings
  import opened DocumentTypes
  import opened CrossReference

  /** The response handed back to the controller. */
  datatype MultiDocumentResponse = MultiDocumentResponse(
    answer: string,
    sources: seq<DocumentSource>,
    sourceBreakdown: map<string, nat>,
    totalConfidence: real)

  const NO_INFORMATION: string := "I couldn't find relevant information in any of the document stores to answer your question."
  const ERROR_PREFIX: string := "An error occurred while processing your question: "

  /** The response that carries only a message. */
  function MessageOnly(answer: string): MultiDocumentResponse
  {
    MultiDocumentResponse(answer, [], map[], 0.0)
  }

  // ---------------------------------------------------------------------------
  // calculateTotalConfidence

  /** The sum of the confidences of `xs`. */
  function SumConfidence(xs: seq<DocumentSource>): real
  {
    if xs == [] then 0.0 else SumConfidence(xs[..|xs| - 1]) + xs[|xs| - 1].confidence
  }

  /** The mean confidence (OptionalDouble.orElse(0.0) for no sources). */
  function MeanConfidence(xs: seq<DocumentSource>): real
  {
    if xs == [] then 0.0 else SumConfidence(xs) / |xs| as real
  }

  /** calculateTotalConfidence: the mean confidence scaled by min(1, n / 4), so that
      fewer than four sources are penalised. */
  function TotalConfidence(sources: seq<DocumentSource>): (r: real)
    ensures sources == [] ==> r == 0.0
  {
    if sources == [] then 0.0
    else
      var penalty := Min2(1.0, |sources| as real / 4.0);
      MeanConfidence(sources) * penalty
  }

  function Min2(a: real, b: real): real { if a <= b then a else b }

  /** The sum lies between n times the least and n times the greatest confidence. */
  lemma {:induction false} SumConfidenceBounds(xs: seq<DocumentSource>, lo: real, hi: real)
    requires forall k :: 0 <= k < |xs| ==> lo <= xs[k].confidence <= hi
    ensures |xs| as real * lo <= SumConfidence(xs) <= |xs| as real * hi
  {
    if xs != [] {
      SumConfidenceBounds(xs[..|xs| - 1], lo, hi);
    }
  }

  /** With confidences in [0, 1] the mean lies in [0, 1]. */
  lemma MeanConfidenceBounds(sources: seq<DocumentSource>)
    requires forall k :: 0 <= k < |sources| ==> 0.0 <= sources[k].confidence <= 1.0
    ensures 0.0 <= MeanConfidence(sources) <= 1.0
  {
    SumConfidenceBounds(sources, 0.0, 1.0);
    if sources != [] {
      QuotientBounds(SumConfidence(sources), |sources| as real);
    }
  }

  lemma QuotientBounds(s: real, n: real)
    requires 0.0 <= s <= n && n > 0.0
    ensures 0.0 <= s / n <= 1.0
  {
  }

  lemma {:induction false} SumConfidenceNonNegative(xs: seq<DocumentSource>)
    requires forall k :: 0 <= k < |xs| ==> 0.0 <= xs[k].confidence
    ensures 0.0 <= SumConfidence(xs)
  {
    if xs != [] {
      SumConfidenceNonNegative(xs[..|xs| - 1]);
    }
  }

  /** With non-negative confidences the total is non-negative and never exceeds the
      mean; from four sources on it is the mean. */
  lemma TotalConfidenceBounds(sources: seq<DocumentSource>)
    requires forall k :: 0 <= k < |sources| ==> 0.0 <= sources[k].confidence
    ensures 0.0 <= TotalConfidence(sources) <= MeanConfidence(sources)
    ensures |sources| >= 4 ==> TotalConfidence(sources) == MeanConfidence(sources)
  {
    if sources != [] {
      var n := |sources| as real;
      var sum := SumConfidence(sources);
      var mean := MeanConfidence(sources);
      var penalty := Min2(1.0, n / 4.0);
      assert mean == sum / n;
      assert TotalConfidence(sources) == mean * penalty;
      SumConfidenceNonNegative(sources);
      QuotientNonNegative(sum, n);
      ScaledBounds(mean, penalty);
      if |sources| >= 4 {
        assert penalty == 1.0;
      }
    }
  }

  lemma QuotientNonNegative(s: real, n: real)
    requires 0.0 <= s && n > 0.0
    ensures 0.0 <= s / n
  {
  }

  /** With at most four sources the penalty is n / 4, so the total is the sum of the
      confidences divided by four. */
  lemma FewSourcesPenalty(sources: seq<DocumentSource>)
    requires 0 < |sources| <= 4
    ensures TotalConfidence(sources) == SumConfidence(sources) / 4.0
  {
    var n := |sources| as real;
    assert Min2(1.0, n / 4.0) == n / 4.0;
    PenaltyCancels(SumConfidence(sources), n);
  }

  lemma ScaledBounds(m: real, p: real)
    requires 0.0 <= m && 0.0 < p <= 1.0
    ensures 0.0 <= m * p <= m
  {
  }

  lemma PenaltyCancels(s: real, n: real)
    requires n > 0.0
    ensures (s / n) * (n / 4.0) == s / 4.0
  {
  }

  // ---------------------------------------------------------------------------
  // queryMultipleStores

  /** What answering `question` gives: with nothing retrieved, the fixed message and
      no prompt; otherwise the prompt built from the TOP_K best sources is sent, and
      the response is the chat reply with those sources, their breakdown and their
      total confidence, or the error message when the chat call raised. */
  ghost predicate Answers(question: string, stores: seq<StoreEntry>, order: seq<string>, chat: string -> Result<string>,
                          response: MultiDocumentResponse, sent: Option<string>)
  {
    var sources := TopByConfidence(Collected(stores, |stores|), TOP_K);
    if sources == [] then
      response == MessageOnly(NO_INFORMATION) && sent == None
    else
      var prompt := PromptText(question, sources, order);
      && sent == Some(prompt)
      && match chat(prompt)
         case Failure(message) => response == MessageOnly(ERROR_PREFIX + message)
         case Success(answer) =>
           response == MultiDocumentResponse(answer, sources, Breakdown(sources), TotalConfidence(sources))
  }

  /** queryMultipleStores. `stores` are the advisor's stores with the replies they give
      to the search, `order` is the iteration order of the prompt's grouping map, and
      `chat` is the chat model. No prompt is sent when nothing was retrieved; a chat
      call that raised yields the error message. */
  method QueryMultipleStores(question: string, stores: seq<StoreEntry>, order: seq<string>, chat: string -> Result<string>)
    returns (response: MultiDocumentResponse, sent: Option<string>)
    ensures Answers(question, stores, order, chat, response, sent)
  {
    var sources, _ := RetrieveFromAllStores(question, stores);
    if sources == [] {
      return MessageOnly(NO_INFORMATION), None;
    }
    var enhancedPrompt := BuildEnhancedPrompt(question, sources, order);
    sent := Some(enhancedPrompt);
    var reply := chat(enhancedPrompt);
    match reply {
      case Failure(message) =>
        response := MessageOnly(ERROR_PREFIX + message);
      case Success(answer) =>
        var sourceBreakdown := CalculateSourceBreakdown(sources);
        var totalConfidence := TotalConfidence(sources);
        response := MultiDocumentResponse(answer, sources, sourceBreakdown, totalConfidence);
    }
  }

  /** When the prompt's grouping map iterates exactly the types of the ranked sources,
      the prompt sent lists every ranked source once, in the section of its own type. */
  lemma AnsweredPromptGroupsSources(question: string, stores: seq<StoreEntry>, order: seq<string>,
                                    chat: string -> Result<string>, response: MultiDocumentResponse, sent: Option<string>)
    requires Answers(question, stores, order, chat, response, sent)
    requires IsGroupingOrder(TopByConfidence(Collected(stores, |stores|), TOP_K), order)
    ensures var sources := TopByConfidence(Collected(stores, |stores|), TOP_K);
      && (sent.Some? <==> sources != [])
      && (sent.Some? ==> sent.value == PromptText(question, sources, order))
      && multiset(Grouped(sources, order, |order|)) == multiset(sources)
      && forall i, k :: 0 <= i < |order| && 0 <= k < |Group(sources, order[i])| ==>
           Group(sources, order[i])[k].docType == order[i]
  {
    SectionsPartitionSources(TopByConfidence(Collected(stores, |stores|), TOP_K), order);
  }

  /** A successful response carries at most TOP_K sources, ranked by confidence, and
      a breakdown whose keys are their types and whose counts add up to their number. */
  lemma AnsweredResponseShape(sources: seq<DocumentSource>, answer: string, stores: seq<StoreEntry>)
    requires sources == TopByConfidence(Collected(stores, |stores|), TOP_K)
    ensures var r := MultiDocumentResponse(answer, sources, Breakdown(sources), TotalConfidence(sources));
      && |r.sources| <= TOP_K
      && NonIncreasing(r.sources)
      && r.sourceBreakdown.Keys == (set s | s in sources :: s.docType)
      && MapSum(r.sourceBreakdown) == |r.sources|
      && (sources != [] ==> r.totalConfidence == SumConfidence(sources) / 4.0)
  {
    TopByConfidenceSpec(Collected(stores, |stores|), TOP_K);
    if sources != [] {
      FewSourcesPenalty(sources);
    }
    BreakdownCounts(sources);
    BreakdownSum(sources);
  }

  // ---------------------------------------------------------------------------
  // Demo queries

  const JWT_QUERY: string := "How do I implement JWT authentication in Spring Boot and what are the security considerations?"
  const POOL_QUERY: string := "What are the recommended database connection pool settings for high-traffic applications?"
  const CACHE_QUERY: string := "How do I set up caching with Redis in Spring Boot and monitor its effectiveness?"

  /** getDemoQueries. */
  function DemoQueries(): (qs: seq<string>)
    ensures |qs| == 3
  {
    [JWT_QUERY, POOL_QUERY, CACHE_QUERY]
  }

  /** processDemoQuery: an index outside the demo list is an IllegalArgumentException;
      otherwise the demo query is answered as any question is. */
  method ProcessDemoQuery(queryIndex: int, stores: seq<StoreEntry>, order: seq<string>, chat: string -> Result<string>)
    returns (r: Result<MultiDocumentResponse>, sent: Option<string>)
    ensures (queryIndex < 0 || queryIndex >= 3) <==> r == Failure("Invalid query index")
    ensures (queryIndex < 0 || queryIndex >= 3) ==> sent == None
    ensures 0 <= queryIndex < 3 ==>
      r.Success? && Answers(DemoQueries()[queryIndex], stores, order, chat, r.value, sent)
  {
    var demoQueries := DemoQueries();
    if queryIndex < 0 || queryIndex >= |demoQueries| {
      return Failure("Invalid query index"), None;
    }
    var response;
    response, sent := QueryMultipleStores(demoQueries[queryIndex], stores, order, chat);
    r := Success(response);
  }

  // ---------------------------------------------------------------------------
  // Store status

  /** The reply to FT.INFO: the list of items as String.valueOf renders them, a reply
      that is not a list, or the message of the exception the command raised. */
  datatype InfoReply = InfoList(items: seq<string>) | NotAList | InfoFailed(message: string)

  /** The reply to KEYS: the matching keys, null, or the message of the exception. */
  datatype KeysReply = KeySet(keys: set<string>) | NullKeys | KeysFailed(message: string)

  /** What the Redis server answers: FT.INFO per index name (an index it does not know
      raises), the keys it holds, and the outcome of the hasKey probe. */
  datatype Redis = Redis(info: map<string, InfoReply>, keys: KeysReply, probe: Result<bool>)

  /** The reply to FT.INFO for the index of type `t`; an index the server does not
      know raises. */
  function InfoFor(redis: Redis, t: DocumentType): (r: InfoReply)
    ensures IndexName(t) !in redis.info ==> r.InfoFailed?
    ensures IndexName(t) in redis.info ==> r == redis.info[IndexName(t)]
  {
    if IndexName(t) in redis.info then redis.info[IndexName(t)] else InfoFailed("Unknown index name")
  }

  /** The first index `i >= from` with `i < |items| - 1` holding "num_docs". */
  function NumDocsFrom(items: seq<string>, from: nat): (r: Option<nat>)
    ensures r.Some? ==> from <= r.value < |items| - 1 && items[r.value] == "num_docs"
    decreases |items| - from
  {
    if from + 1 >= |items| then None
    else if items[from] == "num_docs" then Some(from)
    else NumDocsFrom(items, from + 1)
  }

  /** No "num_docs" lies before the one NumDocsFrom reports (or before the last item). */
  lemma {:induction false} NumDocsFromIsFirst(items: seq<string>, from: nat)
    ensures forall k ::
      (from <= k < |items| - 1 && (NumDocsFrom(items, from).None? || k < NumDocsFrom(items, from).value))
      ==> items[k] != "num_docs"
    decreases |items| - from
  {
    if from + 1 < |items| && items[from] != "num_docs" {
      NumDocsFromIsFirst(items, from + 1);
    }
  }

  /** The count of keys under the prefix of type `t` (KEYS prefix*), as Set.size()
      gives it (capped at Integer.MAX_VALUE); 0 when the reply is null or the command
      raised. */
  function KeyCount(t: DocumentType, reply: KeysReply): (r: nat)
    ensures r <= INT_MAX
    ensures !reply.KeySet? ==> r == 0
    ensures reply.KeySet? && r < INT_MAX ==> r == |set k | k in reply.keys && Prefix(t) <= k|
  {
    match reply
    case KeySet(keys) => Min(|set k | k in keys && Prefix(t) <= k|, INT_MAX)
    case NullKeys => 0
    case KeysFailed(_) => 0
  }

  const FT_INFO: string := "FT.INFO"

  /** Whether `c` may appear in a Java identifier, restricted to ASCII. */
  predicate IsIdentifierChar(c: char)
  {
    'a' <= c <= 'z' || 'A' <= c <= 'Z' || '0' <= c <= '9' || c == '_' || c == '$'
  }

  /** Protocol.Command.valueOf(name): the name of an enum constant is a Java
      identifier, so a name holding any other character raises
      IllegalArgumentException; any identifier is taken for a constant. */
  function CommandValueOf(name: string): (r: Result<string>)
    ensures r.Success? ==> r.value == name
  {
    if forall k | 0 <= k < |name| :: IsIdentifierChar(name[k]) then Success(name)
    else Failure("No enum constant redis.clients.jedis.Protocol.Command." + name)
  }

  /** A name with a '.' in it, such as "FT.INFO", is no constant of the enum. */
  lemma DottedNameIsNoCommand(name: string, i: nat)
    requires i < |name| && name[i] == '.'
    ensures CommandValueOf(name).Failure?
  {
    assert !IsIdentifierChar(name[i]);
  }

  /** getEstimatedDocumentCount as written: the command is looked up by name before
      FT.INFO is sent, and the lookup of "FT.INFO" raises inside the try, so the
      count always comes from the key fallback. */
  function EstimatedCount(t: DocumentType, redis: Redis): (r: int)
    ensures INT_MIN <= r <= INT_MAX
  {
    match CommandValueOf(FT_INFO)
    case Failure(_) => KeyCount(t, redis.keys)
    case Success(_) => IntendedEstimatedCount(t, redis)
  }

  /** Whatever FT.INFO would answer, the count as written is the key count: a
      number in [0, Integer.MAX_VALUE], and 0 when KEYS gives null or raises. */
  lemma EstimatedCountIsKeyCount(t: DocumentType, redis: Redis)
    ensures EstimatedCount(t, redis) == KeyCount(t, redis.keys)
    ensures 0 <= EstimatedCount(t, redis) <= INT_MAX
    ensures !redis.keys.KeySet? ==> EstimatedCount(t, redis) == 0
  {
    DottedNameIsNoCommand(FT_INFO, 2);
  }

  /** An index whose FT.INFO reply reports five documents, with no keys to fall back
      on: the count as written is 0, the intended count is 5. */
  lemma InfoReplyNeverRead(t: DocumentType, redis: Redis)
    requires InfoFor(redis, t) == InfoList(["num_docs", "5"])
    requires redis.keys == NullKeys
    ensures EstimatedCount(t, redis) == 0
    ensures IntendedEstimatedCount(t, redis) == 5
  {
    EstimatedCountIsKeyCount(t, redis);
    assert NatToString(5) == "5";
    NumDocsRoundTrip(t, redis, 0, 5);
  }

  /** getEstimatedDocumentCount as evidently intended, with FT.INFO sent: the value
      after the first "num_docs" in the reply; 0 when the reply is not a list or has
      no such entry; the key count when FT.INFO raised or the value does not parse
      (both throw inside the try). */
  function IntendedEstimatedCount(t: DocumentType, redis: Redis): (r: int)
    ensures INT_MIN <= r <= INT_MAX
    ensures r < 0 ==> InfoFor(redis, t).InfoList?
  {
    match InfoFor(redis, t)
    case InfoFailed(_) => KeyCount(t, redis.keys)
    case NotAList => 0
    case InfoList(items) =>
      match NumDocsFrom(items, 0)
      case None => 0
      case Some(i) =>
        match ParseInt(items[i + 1])
        case Some(v) => v
        case None => KeyCount(t, redis.keys)
  }

  /** The scan of the FT.INFO list for "num_docs". */
  method FindNumDocs(items: seq<string>) returns (r: Option<nat>)
    ensures r == NumDocsFrom(items, 0)
  {
    var i := 0;
    while i < |items| - 1
      invariant 0 <= i <= |items| || |items| == 0
      invariant NumDocsFrom(items, 0) == NumDocsFrom(items, i)
    {
      if items[i] == "num_docs" {
        return Some(i);
      }
      i := i + 1;
    }
    return None;
  }

  /** The body of the try once FT.INFO has been sent, with its loop. */
  method CountFromInfo(t: DocumentType, redis: Redis) returns (count: int)
    ensures count == IntendedEstimatedCount(t, redis)
  {
    var result := InfoFor(redis, t);
    match result {
      case InfoFailed(_) =>
        count := KeyCount(t, redis.keys);
      case NotAList =>
        count := 0;
      case InfoList(infoList) =>
        var found := FindNumDocs(infoList);
        match found {
          case None =>
            count := 0;
          case Some(i) =>
            match ParseInt(infoList[i + 1]) {
              case Some(v) => count := v;
              case None => count := KeyCount(t, redis.keys);
            }
        }
    }
  }

  /** getEstimatedDocumentCount: the command lookup, then FT.INFO or the fallback. */
  method GetEstimatedDocumentCount(t: DocumentType, redis: Redis) returns (count: int)
    ensures count == EstimatedCount(t, redis)
  {
    var command := CommandValueOf(FT_INFO);
    match command {
      case Failure(_) =>
        count := KeyCount(t, redis.keys);
      case Success(_) =>
        count := CountFromInfo(t, redis);
    }
  }

  /** With FT.INFO sent, a reply listing "num_docs" (for the first time) followed by
      the rendering of a count gives back that count. */
  lemma NumDocsRoundTrip(t: DocumentType, redis: Redis, i: nat, n: nat)
    requires InfoFor(redis, t).InfoList?
    requires var items := InfoFor(redis, t).items;
      && i + 1 < |items| && items[i] == "num_docs" && items[i + 1] == NatToString(n)
      && forall k :: 0 <= k < i ==> items[k] != "num_docs"
    requires n <= INT_MAX
    ensures IntendedEstimatedCount(t, redis) == n
  {
    var items := InfoFor(redis, t).items;
    NumDocsFromIsFirst(items, 0);
    ParseIntOfNatToString(n);
  }

  /** The key fallback counts only keys of the type's own prefix: it never exceeds
      the number of keys, and two types never count the same key. */
  lemma KeyCountsDisjoint(a: DocumentType, b: DocumentType, keys: set<string>)
    requires a != b
    ensures KeyCount(a, KeySet(keys)) <= |keys|
    ensures (set k | k in keys && Prefix(a) <= k) !! (set k | k in keys && Prefix(b) <= k)
  {
    var ka := set k | k in keys && Prefix(a) <= k;
    assert ka <= keys;
    SubsetCard(ka, keys);
    forall k | k in ka && k in keys && Prefix(b) <= k ensures false {
      PrefixesDisjoint(a, b, k);
    }
  }

  lemma SubsetCard(a: set<string>, b: set<string>)
    requires a <= b
    ensures |a| <= |b|
  {
    assert b == a + (b - a);
  }

  /** checkRedisConnection. */
  function RedisStatus(probe: Result<bool>): (r: string)
    ensures r == "Connected" <==> probe.Success?
    ensures probe.Failure? ==> r == "Disconnected: " + probe.error
  {
    match probe
    case Success(_) => "Connected"
    case Failure(message) => "Disconnected: " + message
  }

  datatype StoreStatus = StoreStatus(documentCounts: map<DocumentType, int>, storeHealth: map<DocumentType, bool>, redisStatus: string)

  /** The body of the loop of getStoreStatus for one type. */
  method CheckStore(t: DocumentType, stores: set<DocumentType>, redis: Redis) returns (count: int, healthy: bool)
    ensures healthy <==> t in stores
    ensures count == (if t in stores then EstimatedCount(t, redis) else 0)
  {
    if t in stores {
      count := GetEstimatedDocumentCount(t, redis);
      healthy := true;
    } else {
      count := 0;
      healthy := false;
    }
  }

  /** getStoreStatus: every type gets an entry; a type with a store is healthy and has
      its estimated count, a type without one is unhealthy with count 0. `stores` is
      the set of types that have a vector store. */
  method GetStoreStatus(stores: set<DocumentType>, redis: Redis) returns (status: StoreStatus)
    ensures forall t: DocumentType :: t in status.documentCounts && t in status.storeHealth
    ensures forall t: DocumentType :: t in status.storeHealth ==> (status.storeHealth[t] <==> t in stores)
    ensures forall t: DocumentType :: t in status.documentCounts ==>
      status.documentCounts[t] == (if t in stores then EstimatedCount(t, redis) else 0)
    ensures status.redisStatus == RedisStatus(redis.probe)
  {
    var documentCounts: map<DocumentType, int> := map[];
    var storeHealth: map<DocumentType, bool> := map[];
    var types := Values();
    for n := 0 to |types|
      invariant forall k :: 0 <= k < n ==> types[k] in documentCounts && types[k] in storeHealth
      invariant forall t :: t in storeHealth ==> (storeHealth[t] <==> t in stores)
      invariant forall t :: t in documentCounts ==>
        documentCounts[t] == (if t in stores then EstimatedCount(t, redis) else 0)
    {
      var t := types[n];
      var count, healthy := CheckStore(t, stores, redis);
      documentCounts := documentCounts[t := count];
      storeHealth := storeHealth[t := healthy];
    }
    ValuesAreTheFourVariants();
    forall t: DocumentType ensures t in documentCounts && t in storeHealth {
      assert t in types;
      var k :| 0 <= k < |types| && types[k] == t;
    }
    status := StoreStatus(documentCounts, storeHealth, RedisStatus(redis.probe));
  }
}
