/** CrossReferenceAdvisor: querying every vector store in turn, turning the results
    into DocumentSources, ranking them by confidence, counting them per type and
    writing them into the prompt for the chat model. */
module CrossReference {
  import opened Common
  import opened JavaStrings
  import opened DocumentTypes

  /** The advisor's topK. */
  const TOP_K: nat := 3

  /** A metadata value as the advisor sees it: null, a java.lang.Number (its value
      and its toString()), or any other object (its toString()). */
  datatype MetaValue = Null | Number(value: real, shown: string) | Text(text: string)

  /** A search result: its text, its metadata map and the map's toString(). */
  datatype Document = Document(text: string, metadata: map<string, MetaValue>, metadataText: string)

  /** What one store's similaritySearch gave: its results, or the message of the
      exception it raised. */
  datatype StoreReply = Found(docs: seq<Document>) | SearchFailed(message: string)

  /** One entry of the store map, in the map's iteration order, with its reply. */
  datatype StoreEntry = StoreEntry(docType: DocumentType, reply: StoreReply)

  /** The SearchRequest the advisor builds for a store. */
  datatype SearchRequest = SearchRequest(query: string, topK: int)

  /** The DocumentSource record. */
  datatype DocumentSource = DocumentSource(docType: string, content: string, confidence: real, documentName: string, metadata: string)

  // ---------------------------------------------------------------------------
  // calculateConfidence and extractDocumentName

  /** calculateConfidence: `max(0, 1 - distance)` for a numeric "distance" entry,
      0.8 when there is none or it is not a number. */
  function Confidence(d: Document): (c: real)
    ensures c >= 0.0
    ensures ("distance" !in d.metadata || !d.metadata["distance"].Number?) ==> c == 0.8
    ensures "distance" in d.metadata && d.metadata["distance"].Number? ==>
      var distance := d.metadata["distance"].value;
      && (distance <= 1.0 ==> c == 1.0 - distance)
      && (distance >= 1.0 ==> c == 0.0)
      && (distance >= 0.0 ==> c <= 1.0)
  {
    if "distance" in d.metadata && d.metadata["distance"].Number? then
      var distance := d.metadata["distance"].value;
      if 0.0 >= 1.0 - distance then 0.0 else 1.0 - distance
    else
      0.8
  }

  /** String.valueOf of a metadata value; null has no toString() and raises. */
  function Show(v: MetaValue): Result<string>
  {
    match v
    case Null => Failure("NullPointerException")
    case Number(_, shown) => Success(shown)
    case Text(text) => Success(text)
  }

  /** `s.substring(s.lastIndexOf('/') + 1)` */
  function AfterLastSlash(s: string): string
  {
    s[LastIndexOf(s, '/', |s| - 1) + 1..]
  }

  /** The text after the last '/' holds no '/', ends the string, and is the whole
      string or follows a '/'. */
  lemma AfterLastSlashSpec(s: string)
    ensures var name := AfterLastSlash(s);
      && |name| <= |s|
      && name == s[|s| - |name|..]
      && (forall k :: 0 <= k < |name| ==> name[k] != '/')
      && (|name| < |s| ==> s[|s| - |name| - 1] == '/')
  {
    LastIndexOfIsLast(s, '/', |s| - 1);
  }

  /** extractDocumentName: the "source" entry after its last '/', else the
      "filename" entry, else "unknown-document"; a null entry raises. */
  function DocumentName(d: Document): (r: Result<string>)
    ensures "source" !in d.metadata && "filename" !in d.metadata ==> r == Success("unknown-document")
    ensures "source" !in d.metadata && "filename" in d.metadata ==> r == Show(d.metadata["filename"])
    ensures r.Failure? <==>
      if "source" in d.metadata then d.metadata["source"].Null?
      else "filename" in d.metadata && d.metadata["filename"].Null?
  {
    if "source" in d.metadata then
      match Show(d.metadata["source"])
      case Failure(e) => Failure(e)
      case Success(source) => Success(AfterLastSlash(source))
    else if "filename" in d.metadata then
      Show(d.metadata["filename"])
    else
      Success("unknown-document")
  }

  /** A present, non-null "source" entry decides the name: the part after its last
      '/', which holds no '/' and is the whole entry or follows a '/'. */
  lemma DocumentNameFromSource(d: Document)
    requires "source" in d.metadata && !d.metadata["source"].Null?
    ensures var source := Show(d.metadata["source"]).value;
      var r := DocumentName(d);
      && r.Success?
      && r.value == source[|source| - |r.value|..]
      && (forall k :: 0 <= k < |r.value| ==> r.value[k] != '/')
      && (|r.value| < |source| ==> source[|source| - |r.value| - 1] == '/')
  {
    AfterLastSlashSpec(Show(d.metadata["source"]).value);
  }

  /** The DocumentSource built for one result of a store of type `t`: the lower-case
      type name, the text, the confidence, the name and the metadata rendering; it
      fails when extractDocumentName raises. */
  function ToSource(t: DocumentType, d: Document): (r: Result<DocumentSource>)
    ensures r.Success? <==> DocumentName(d).Success?
  {
    match DocumentName(d)
    case Failure(e) => Failure(e)
    case Success(name) => Success(DocumentSource(LowerName(t), d.text, Confidence(d), name, d.metadataText))
  }

  /** The conversion fails exactly when extractDocumentName raises; otherwise the
      source carries the type tag, the text, the confidence and the name. */
  lemma ToSourceFields(t: DocumentType, d: Document)
    ensures ToSource(t, d).Success? <==> DocumentName(d).Success?
    ensures ToSource(t, d).Success? ==>
      var s := ToSource(t, d).value;
      && s.docType == LowerName(t)
      && s.content == d.text
      && s.confidence == Confidence(d)
      && s.documentName == DocumentName(d).value
  {
  }

  // ---------------------------------------------------------------------------
  // retrieveFromAllStores

  /** The sources one store's results give from index `i` on: one per result, up to
      the first result whose conversion raises, which ends that store's turn. */
  function StoreSourcesFrom(t: DocumentType, docs: seq<Document>, i: nat): (r: seq<DocumentSource>)
    ensures r != [] ==> i < |docs| && ToSource(t, docs[i]) == Success(r[0])
    decreases |docs| - i
  {
    if i >= |docs| then []
    else
      match ToSource(t, docs[i])
      case Failure(_) => []
      case Success(s) => [s] + StoreSourcesFrom(t, docs, i + 1)
  }

  /** The sources one store contributes: none when the search raised. */
  function StoreSources(e: StoreEntry): seq<DocumentSource>
  {
    match e.reply
    case SearchFailed(_) => []
    case Found(docs) => StoreSourcesFrom(e.docType, docs, 0)
  }

  /** The sources of the first `n` stores, in store order; when every search among
      them raised, nothing is collected. */
  function Collected(stores: seq<StoreEntry>, n: nat): (r: seq<DocumentSource>)
    requires n <= |stores|
    ensures (forall k :: 0 <= k < n ==> stores[k].reply.SearchFailed?) ==> r == []
  {
    if n == 0 then [] else Collected(stores, n - 1) + StoreSources(stores[n - 1])
  }

  /** A store's sources are its results converted one by one, up to (not including)
      the first result whose conversion raises; the sources before it are kept. */
  lemma StoreSourcesPrefix(t: DocumentType, docs: seq<Document>, i: nat)
    requires i <= |docs|
    ensures var ss := StoreSourcesFrom(t, docs, i);
      && i + |ss| <= |docs|
      && (forall j :: 0 <= j < |ss| ==> ToSource(t, docs[i + j]) == Success(ss[j]))
      && (i + |ss| < |docs| ==> ToSource(t, docs[i + |ss|]).Failure?)
  {
    StoreSourcesStop(t, docs, i);
    forall j | 0 <= j < |StoreSourcesFrom(t, docs, i)|
      ensures ToSource(t, docs[i + j]) == Success(StoreSourcesFrom(t, docs, i)[j])
    {
      StoreSourcesAt(t, docs, i, j);
    }
  }

  lemma {:induction false} StoreSourcesStop(t: DocumentType, docs: seq<Document>, i: nat)
    requires i <= |docs|
    ensures var n := |StoreSourcesFrom(t, docs, i)|;
      && i + n <= |docs|
      && (i + n < |docs| ==> ToSource(t, docs[i + n]).Failure?)
    decreases |docs| - i
  {
    if i < |docs| && ToSource(t, docs[i]).Success? {
      StoreSourcesStop(t, docs, i + 1);
    }
  }

  lemma {:induction false} StoreSourcesAt(t: DocumentType, docs: seq<Document>, i: nat, j: nat)
    requires i <= |docs| && j < |StoreSourcesFrom(t, docs, i)|
    ensures i + j < |docs| && ToSource(t, docs[i + j]) == Success(StoreSourcesFrom(t, docs, i)[j])
    decreases j
  {
    if j > 0 {
      StoreSourcesAt(t, docs, i + 1, j - 1);
    }
  }

  /** Every source a store contributes is tagged with the lower-case name of that
      store's type and has a confidence of at least 0. */
  lemma StoreSourcesShape(e: StoreEntry)
    ensures forall s :: s in StoreSources(e) ==> s.docType == LowerName(e.docType) && s.confidence >= 0.0
  {
    if e.reply.Found? {
      var ss := StoreSources(e);
      StoreSourcesPrefix(e.docType, e.reply.docs, 0);
      forall s | s in ss ensures s.docType == LowerName(e.docType) && s.confidence >= 0.0 {
        var j :| 0 <= j < |ss| && ss[j] == s;
        assert ToSource(e.docType, e.reply.docs[j]) == Success(s);
        ToSourceFields(e.docType, e.reply.docs[j]);
      }
    }
  }

  // ---------------------------------------------------------------------------
  // The stream's sort by descending confidence and limit(topK)

  ghost predicate NonIncreasing(s: seq<DocumentSource>)
  {
    forall i, j :: 0 <= i < j < |s| ==> s[i].confidence >= s[j].confidence
  }

  /** Inserts `x` before the first element whose confidence is not above its own. */
  function Insert(x: DocumentSource, s: seq<DocumentSource>): (r: seq<DocumentSource>)
    ensures |r| == |s| + 1
  {
    if s == [] || x.confidence >= s[0].confidence then [x] + s
    else [s[0]] + Insert(x, s[1..])
  }

  /** A stable sort by descending confidence (the stream's sorted() with the
      comparator `compare(b.confidence, a.confidence)`). */
  function SortByConfidence(xs: seq<DocumentSource>): (r: seq<DocumentSource>)
    ensures |r| == |xs|
  {
    if xs == [] then [] else Insert(xs[0], SortByConfidence(xs[1..]))
  }

  /** The elements with confidence `c`, in order. */
  function WithConfidence(s: seq<DocumentSource>, c: real): seq<DocumentSource>
  {
    if s == [] then []
    else (if s[0].confidence == c then [s[0]] else []) + WithConfidence(s[1..], c)
  }

  /** Insertion adds exactly `x`. */
  lemma {:induction false} InsertPermutes(x: DocumentSource, s: seq<DocumentSource>)
    ensures |Insert(x, s)| == |s| + 1
    ensures multiset(Insert(x, s)) == multiset(s) + multiset{x}
  {
    if s != [] && x.confidence < s[0].confidence {
      InsertPermutes(x, s[1..]);
      assert s == [s[0]] + s[1..];
    }
  }

  /** No element is above confidence `c`. */
  ghost predicate AtMost(s: seq<DocumentSource>, c: real)
  {
    forall k :: 0 <= k < |s| ==> s[k].confidence <= c
  }

  lemma {:induction false} InsertAtMost(x: DocumentSource, s: seq<DocumentSource>, c: real)
    requires AtMost(s, c) && x.confidence <= c
    ensures AtMost(Insert(x, s), c)
  {
    if s != [] && x.confidence < s[0].confidence {
      InsertAtMost(x, s[1..], c);
      assert Insert(x, s) == [s[0]] + Insert(x, s[1..]);
    }
  }

  lemma ConsSorted(a: DocumentSource, r: seq<DocumentSource>)
    requires NonIncreasing(r) && AtMost(r, a.confidence)
    ensures NonIncreasing([a] + r)
  {
    var s := [a] + r;
    forall i, j | 0 <= i < j < |s| ensures s[i].confidence >= s[j].confidence {
      assert s[j] == r[j - 1];
      if i > 0 {
        assert s[i] == r[i - 1];
      }
    }
  }

  /** Insertion into a non-increasing list keeps it non-increasing. */
  lemma {:induction false} InsertSorted(x: DocumentSource, s: seq<DocumentSource>)
    requires NonIncreasing(s)
    ensures NonIncreasing(Insert(x, s))
  {
    if s == [] || x.confidence >= s[0].confidence {
      assert AtMost(s, x.confidence);
      ConsSorted(x, s);
    } else {
      var tail := s[1..];
      assert NonIncreasing(tail);
      assert AtMost(tail, s[0].confidence);
      InsertSorted(x, tail);
      InsertAtMost(x, tail, s[0].confidence);
      ConsSorted(s[0], Insert(x, tail));
    }
  }

  /** Inserting `x` into a sorted list puts it before every element of equal
      confidence, so each equal-confidence run keeps its order. */
  lemma {:induction false} InsertStable(x: DocumentSource, s: seq<DocumentSource>, c: real)
    requires NonIncreasing(s)
    ensures WithConfidence(Insert(x, s), c)
         == (if x.confidence == c then [x] else []) + WithConfidence(s, c)
  {
    if s != [] && x.confidence < s[0].confidence {
      InsertStable(x, s[1..], c);
      assert Insert(x, s)[1..] == Insert(x, s[1..]);
    }
  }

  /** The sort's result is non-increasing in confidence. */
  lemma {:induction false} SortSorted(xs: seq<DocumentSource>)
    ensures NonIncreasing(SortByConfidence(xs))
  {
    if xs != [] {
      SortSorted(xs[1..]);
      InsertSorted(xs[0], SortByConfidence(xs[1..]));
    }
  }

  /** The sort is a permutation. */
  lemma {:induction false} SortPermutes(xs: seq<DocumentSource>)
    ensures |SortByConfidence(xs)| == |xs|
    ensures multiset(SortByConfidence(xs)) == multiset(xs)
  {
    if xs != [] {
      SortPermutes(xs[1..]);
      InsertPermutes(xs[0], SortByConfidence(xs[1..]));
      assert xs == [xs[0]] + xs[1..];
    }
  }

  /** The sort is stable: the elements of any one confidence keep their order. */
  lemma {:induction false} SortStable(xs: seq<DocumentSource>, c: real)
    ensures WithConfidence(SortByConfidence(xs), c) == WithConfidence(xs, c)
  {
    if xs != [] {
      SortStable(xs[1..], c);
      SortSorted(xs[1..]);
      InsertStable(xs[0], SortByConfidence(xs[1..]), c);
    }
  }

  /** sorted(...).limit(topK) */
  function TopByConfidence(xs: seq<DocumentSource>, topK: nat): (r: seq<DocumentSource>)
    ensures |r| == Min(topK, |xs|)
    ensures r <= SortByConfidence(xs)
  {
    var sorted := SortByConfidence(xs);
    sorted[..Min(topK, |sorted|)]
  }

  /** The ranking keeps `min(topK, n)` of the sources, non-increasing in confidence,
      and drawn from the sources. */
  lemma TopByConfidenceSpec(xs: seq<DocumentSource>, topK: nat)
    ensures var r := TopByConfidence(xs, topK);
      && |r| == Min(topK, |xs|)
      && NonIncreasing(r)
      && multiset(r) <= multiset(xs)
  {
    var sorted := SortByConfidence(xs);
    SortSorted(xs);
    SortPermutes(xs);
    var r := TopByConfidence(xs, topK);
    assert sorted == r + sorted[|r|..];
    assert multiset(sorted) == multiset(r) + multiset(sorted[|r|..]);
  }

  /** In a non-increasing list every element of a prefix is at least every element
      after it. */
  lemma PrefixDominates(sorted: seq<DocumentSource>, n: nat)
    requires NonIncreasing(sorted) && n <= |sorted|
    ensures forall x, y :: x in sorted[..n] && y in sorted[n..] ==> x.confidence >= y.confidence
  {
    forall x, y | x in sorted[..n] && y in sorted[n..] ensures x.confidence >= y.confidence {
      var i :| 0 <= i < n && sorted[..n][i] == x;
      var j :| 0 <= j < |sorted| - n && sorted[n..][j] == y;
      assert sorted[i] == x && sorted[n + j] == y;
    }
  }

  /** No source the ranking drops has a higher confidence than any it keeps. */
  lemma TopByConfidenceKeepsBest(xs: seq<DocumentSource>, topK: nat)
    ensures var r := TopByConfidence(xs, topK);
      forall x, y :: x in r && y in multiset(xs) - multiset(r) ==> x.confidence >= y.confidence
  {
    var sorted := SortByConfidence(xs);
    SortSorted(xs);
    SortPermutes(xs);
    var r := TopByConfidence(xs, topK);
    var n := |r|;
    assert sorted == sorted[..n] + sorted[n..];
    assert multiset(xs) - multiset(r) == multiset(sorted[n..]);
    PrefixDominates(sorted, n);
  }

  /** retrieveFromAllStores: each store, in map order, is asked for
      `topK / storeCount` results; a store whose search raises adds nothing, one
      whose result conversion raises keeps what it added before; then the collected
      sources are ranked. */
  method RetrieveFromAllStores(query: string, stores: seq<StoreEntry>)
    returns (result: seq<DocumentSource>, requests: seq<SearchRequest>)
    ensures |requests| == |stores|
    ensures forall k :: 0 <= k < |requests| ==> requests[k] == SearchRequest(query, TOP_K / |stores|)
    ensures result == TopByConfidence(Collected(stores, |stores|), TOP_K)
  {
    var allSources: seq<DocumentSource> := [];
    requests := [];
    for n := 0 to |stores|
      invariant allSources == Collected(stores, n)
      invariant |requests| == n
      invariant forall k :: 0 <= k < n ==> requests[k] == SearchRequest(query, TOP_K / |stores|)
    {
      var entry := stores[n];
      var searchRequest := SearchRequest(query, TOP_K / |stores|);
      requests := requests + [searchRequest];
      match entry.reply {
        case SearchFailed(_) =>
        case Found(documents) =>
          allSources := AddStoreResults(allSources, entry.docType, documents);
      }
    }
    result := TopByConfidence(allSources, TOP_K);
  }

  /** The inner loop over one store's results: each is converted and appended, and
      the first conversion that raises ends the store's turn. */
  method AddStoreResults(sources: seq<DocumentSource>, t: DocumentType, documents: seq<Document>)
    returns (allSources: seq<DocumentSource>)
    ensures allSources == sources + StoreSourcesFrom(t, documents, 0)
  {
    allSources := sources;
    var i := 0;
    while i < |documents|
      invariant 0 <= i <= |documents|
      invariant allSources + StoreSourcesFrom(t, documents, i) == sources + StoreSourcesFrom(t, documents, 0)
      decreases |documents| - i
    {
      var source := ToSource(t, documents[i]);
      if source.Failure? {
        break;
      }
      ConcatAssoc(allSources, [source.value], StoreSourcesFrom(t, documents, i + 1));
      allSources := allSources + [source.value];
      i := i + 1;
    }
  }

  // ---------------------------------------------------------------------------
  // calculateSourceBreakdown

  /** The sources of type `ty`, in order (one entry of groupingBy(getType)). */
  function Group(xs: seq<DocumentSource>, ty: string): seq<DocumentSource>
  {
    if xs == [] then []
    else
      var last := xs[|xs| - 1];
      Group(xs[..|xs| - 1], ty) + (if last.docType == ty then [last] else [])
  }

  /** The map `merge(type, 1, Integer::sum)` builds over the sources. */
  function Breakdown(xs: seq<DocumentSource>): (r: map<string, nat>)
    ensures forall ty :: ty in r ==> r[ty] > 0
    ensures xs == [] <==> r == map[]
  {
    if xs == [] then map[]
    else
      var b := Breakdown(xs[..|xs| - 1]);
      var ty := xs[|xs| - 1].docType;
      b[ty := (if ty in b then b[ty] else 0) + 1]
  }

  method CalculateSourceBreakdown(sources: seq<DocumentSource>) returns (breakdown: map<string, nat>)
    ensures breakdown == Breakdown(sources)
  {
    breakdown := map[];
    for i := 0 to |sources|
      invariant breakdown == Breakdown(sources[..i])
    {
      var ty := sources[i].docType;
      assert sources[..i + 1][..i] == sources[..i];
      breakdown := breakdown[ty := (if ty in breakdown then breakdown[ty] else 0) + 1];
    }
    assert sources[..|sources|] == sources;
  }

  /** The breakdown's keys are exactly the types that occur, and each value is the
      number of sources of its type. */
  lemma {:induction false} BreakdownCounts(xs: seq<DocumentSource>)
    ensures var b := Breakdown(xs);
      && b.Keys == (set s | s in xs :: s.docType)
      && forall ty :: ty in b ==> b[ty] == |Group(xs, ty)|
  {
    if xs != [] {
      var init := xs[..|xs| - 1];
      var ty := xs[|xs| - 1].docType;
      BreakdownCounts(init);
      if ty !in Breakdown(init) {
        AbsentTypeHasNoGroup(init, ty);
      }
      assert xs == init + [xs[|xs| - 1]];
    }
  }

  /** A type that does not occur has no entry and an empty group. */
  lemma {:induction false} AbsentTypeHasNoGroup(xs: seq<DocumentSource>, ty: string)
    requires ty !in Breakdown(xs)
    ensures Group(xs, ty) == []
  {
    if xs != [] {
      AbsentTypeHasNoGroup(xs[..|xs| - 1], ty);
    }
  }

  /** The sum of a map's values. */
  ghost function MapSum(m: map<string, nat>): nat
    decreases |m|
  {
    if m == map[] then 0
    else
      assert m.Keys != {};
      var k :| k in m;
      m[k] + MapSum(m - {k})
  }

  /** The sum can be taken starting from any key. */
  lemma {:induction false} MapSumWithout(m: map<string, nat>, k: string)
    requires k in m
    ensures MapSum(m) == m[k] + MapSum(m - {k})
    decreases |m|
  {
    assert m != map[];
    var j :| j in m && MapSum(m) == m[j] + MapSum(m - {j});
    if j != k {
      MapSumWithout(m - {j}, k);
      MapSumWithout(m - {k}, j);
      assert (m - {j}) - {k} == (m - {k}) - {j};
    }
  }

  /** The breakdown's values sum to the number of sources. */
  lemma {:induction false} BreakdownSum(xs: seq<DocumentSource>)
    ensures MapSum(Breakdown(xs)) == |xs|
  {
    if xs != [] {
      var init := xs[..|xs| - 1];
      var b := Breakdown(init);
      var ty := xs[|xs| - 1].docType;
      var b' := Breakdown(xs);
      BreakdownSum(init);
      MapSumWithout(b', ty);
      assert b' - {ty} == b - {ty};
      if ty in b {
        MapSumWithout(b, ty);
      } else {
        assert b - {ty} == b;
      }
    }
  }

  // ---------------------------------------------------------------------------
  // buildEnhancedPrompt

  const PROMPT_INTRO: string := "Based on the following context from multiple document types, please answer the question: "
  const CONTEXT_LINE: string := "Context from different sources:\n"
  const SYNTHESIZE_LINE: string := "Please synthesize information from these different document types to provide a comprehensive answer. "
  const INDICATE_LINE: string := "Indicate which sources support different parts of your answer."

  /** The text before the first section. */
  function PromptHead(query: string): string
  {
    PROMPT_INTRO + query + "\n\n" + CONTEXT_LINE
  }

  /** The heading of the section of one type. */
  function SectionHeading(ty: string): string
  {
    "\n--- " + UpperAscii(ty) + " SOURCES ---\n"
  }

  /** The entry of the source at position `i` of its section, numbered from 1. */
  function SourceEntry(i: nat, s: DocumentSource): (r: string)
    ensures |r| > 9 && r[..7] == "Source " && r[|r| - 2..] == "\n\n"
  {
    "Source " + NatToString(i + 1) + " (" + s.documentName + "):\n" + s.content + "\n\n"
  }

  /** The entries of the first `n` sources of one section. */
  function EntriesText(group: seq<DocumentSource>, n: nat): string
    requires n <= |group|
  {
    if n == 0 then [] else EntriesText(group, n - 1) + SourceEntry(n - 1, group[n - 1])
  }

  /** The section of one type: its heading, then the entries of its sources. */
  function SectionText(sources: seq<DocumentSource>, ty: string): (r: string)
    ensures SectionHeading(ty) <= r
  {
    var group := Group(sources, ty);
    SectionHeading(ty) + EntriesText(group, |group|)
  }

  /** The sections of the first `n` types of `order`. */
  function SectionsText(sources: seq<DocumentSource>, order: seq<string>, n: nat): string
    requires n <= |order|
  {
    if n == 0 then [] else SectionsText(sources, order, n - 1) + SectionText(sources, order[n - 1])
  }

  /** The prompt for a query, with the sections in the order `order`. */
  function PromptText(query: string, sources: seq<DocumentSource>, order: seq<string>): (r: string)
    ensures |r| >= |PromptHead(query)| + |SYNTHESIZE_LINE| + |INDICATE_LINE|
  {
    PromptHead(query) + SectionsText(sources, order, |order|) + SYNTHESIZE_LINE + INDICATE_LINE
  }

  /** `order` lists the keys of groupingBy(getType) as the HashMap iterates them:
      each type that occurs, once, and nothing else. */
  ghost predicate IsGroupingOrder(sources: seq<DocumentSource>, order: seq<string>)
  {
    && Distinct(order)
    && (forall k :: 0 <= k < |sources| ==> sources[k].docType in order)
    && (forall i :: 0 <= i < |order| ==> Group(sources, order[i]) != [])
  }

  /** One iteration of the loop over the grouping map: the heading of the type, then
      its sources numbered from 1. */
  method AppendSection(prompt: string, sources: seq<DocumentSource>, ty: string) returns (r: string)
    ensures r == prompt + SectionText(sources, ty)
  {
    var typeSources := Group(sources, ty);
    r := prompt + SectionHeading(ty);
    for i := 0 to |typeSources|
      invariant r == prompt + SectionHeading(ty) + EntriesText(typeSources, i)
    {
      r := r + SourceEntry(i, typeSources[i]);
      ConcatAssoc(prompt + SectionHeading(ty), EntriesText(typeSources, i), SourceEntry(i, typeSources[i]));
    }
    ConcatAssoc(prompt, SectionHeading(ty), EntriesText(typeSources, |typeSources|));
  }

  /** buildEnhancedPrompt; the iteration order of the grouping map is the parameter
      `order` (IsGroupingOrder says which orders can occur; the text is as below for
      any of them). */
  method BuildEnhancedPrompt(originalQuery: string, sources: seq<DocumentSource>, order: seq<string>)
    returns (prompt: string)
    ensures prompt == PromptText(originalQuery, sources, order)
  {
    prompt := PROMPT_INTRO + originalQuery + "\n\n";
    prompt := prompt + CONTEXT_LINE;
    prompt := AppendSections(prompt, sources, order);
    prompt := prompt + SYNTHESIZE_LINE;
    prompt := prompt + INDICATE_LINE;
  }

  /** The loop over the entries of the grouping map, in the order `order`. */
  method AppendSections(prompt: string, sources: seq<DocumentSource>, order: seq<string>) returns (r: string)
    ensures r == prompt + SectionsText(sources, order, |order|)
  {
    r := prompt;
    for n := 0 to |order|
      invariant r == prompt + SectionsText(sources, order, n)
    {
      r := AppendSection(r, sources, order[n]);
      ConcatAssoc(prompt, SectionsText(sources, order, n), SectionText(sources, order[n]));
    }
  }

  /** The prompt starts with the question, the blank line and the context line, and
      ends with the two closing instructions. */
  lemma PromptFrame(query: string, sources: seq<DocumentSource>, order: seq<string>)
    ensures var p := PromptText(query, sources, order);
      var closing := SYNTHESIZE_LINE + INDICATE_LINE;
      && PROMPT_INTRO + query <= PromptHead(query) <= p
      && |p| >= |closing|
      && p[|p| - |closing|..] == closing
      && p[|p| - |INDICATE_LINE|..] == INDICATE_LINE
  {
    var head := PromptHead(query);
    var sections := SectionsText(sources, order, |order|);
    ConcatEnds(PROMPT_INTRO + query, "\n\n", CONTEXT_LINE);
    ConcatEnds(head + sections, SYNTHESIZE_LINE, INDICATE_LINE);
    ConcatAssoc(head + sections, SYNTHESIZE_LINE, INDICATE_LINE);
    ConcatEnds(head, sections, SYNTHESIZE_LINE + INDICATE_LINE);
  }

  /** The sources whose type is in `types`, in order. */
  function Having(xs: seq<DocumentSource>, types: set<string>): seq<DocumentSource>
  {
    if xs == [] then []
    else
      var last := xs[|xs| - 1];
      Having(xs[..|xs| - 1], types) + (if last.docType in types then [last] else [])
  }

  /** The sources of the sections for the first `n` types of `order`, in prompt order. */
  function Grouped(sources: seq<DocumentSource>, order: seq<string>, n: nat): seq<DocumentSource>
    requires n <= |order|
  {
    if n == 0 then [] else Grouped(sources, order, n - 1) + Group(sources, order[n - 1])
  }

  /** Adding a new type to a filter adds exactly the sources of that type. */
  lemma {:induction false} HavingSplit(xs: seq<DocumentSource>, types: set<string>, ty: string)
    requires ty !in types
    ensures multiset(Having(xs, types + {ty})) == multiset(Having(xs, types)) + multiset(Group(xs, ty))
  {
    if xs != [] {
      var init := xs[..|xs| - 1];
      var last := xs[|xs| - 1];
      HavingSplit(init, types, ty);
      var with := if last.docType in types + {ty} then [last] else [];
      var without := if last.docType in types then [last] else [];
      var group := if last.docType == ty then [last] else [];
      assert multiset(with) == multiset(without) + multiset(group);
      MultisetRegroup(Having(init, types + {ty}), Having(init, types), Group(init, ty), with, without, group);
    }
  }

  /** Appending to the parts of a multiset split appends to the whole. */
  lemma MultisetRegroup(a: seq<DocumentSource>, b: seq<DocumentSource>, c: seq<DocumentSource>,
                        x: seq<DocumentSource>, y: seq<DocumentSource>, z: seq<DocumentSource>)
    requires multiset(a) == multiset(b) + multiset(c)
    requires multiset(x) == multiset(y) + multiset(z)
    ensures multiset(a + x) == multiset(b + y) + multiset(c + z)
  {
  }

  /** The first `n` types of `order`, as a set. */
  function OrderTypes(order: seq<string>, n: nat): set<string>
    requires n <= |order|
  {
    if n == 0 then {} else OrderTypes(order, n - 1) + {order[n - 1]}
  }

  lemma {:induction false} OrderTypesHas(order: seq<string>, n: nat, i: nat)
    requires i < n <= |order|
    ensures order[i] in OrderTypes(order, n)
  {
    if i < n - 1 {
      OrderTypesHas(order, n - 1, i);
    }
  }

  lemma {:induction false} OrderTypesLacks(order: seq<string>, n: nat, t: string)
    requires n <= |order|
    requires forall i :: 0 <= i < n ==> order[i] != t
    ensures t !in OrderTypes(order, n)
  {
    if n > 0 {
      OrderTypesLacks(order, n - 1, t);
    }
  }

  /** The sections of the first `n` types hold exactly the sources of those types. */
  lemma {:induction false} GroupedIsHaving(sources: seq<DocumentSource>, order: seq<string>, n: nat)
    requires n <= |order| && Distinct(order)
    ensures multiset(Grouped(sources, order, n)) == multiset(Having(sources, OrderTypes(order, n)))
  {
    if n == 0 {
      HavingNone(sources);
    } else {
      GroupedIsHaving(sources, order, n - 1);
      OrderTypesLacks(order, n - 1, order[n - 1]);
      HavingSplit(sources, OrderTypes(order, n - 1), order[n - 1]);
    }
  }

  lemma {:induction false} HavingNone(xs: seq<DocumentSource>)
    ensures Having(xs, {}) == []
  {
    if xs != [] {
      HavingNone(xs[..|xs| - 1]);
    }
  }

  /** A filter every source passes keeps them all. */
  lemma {:induction false} HavingAll(xs: seq<DocumentSource>, types: set<string>)
    requires forall k :: 0 <= k < |xs| ==> xs[k].docType in types
    ensures Having(xs, types) == xs
  {
    if xs != [] {
      HavingAll(xs[..|xs| - 1], types);
    }
  }

  /** Over the grouping map's keys the sections partition the sources: every source is
      listed once, in the section of its own type. */
  lemma SectionsPartitionSources(sources: seq<DocumentSource>, order: seq<string>)
    requires IsGroupingOrder(sources, order)
    ensures multiset(Grouped(sources, order, |order|)) == multiset(sources)
    ensures forall i, k :: 0 <= i < |order| && 0 <= k < |Group(sources, order[i])| ==>
      Group(sources, order[i])[k].docType == order[i]
  {
    GroupedIsHaving(sources, order, |order|);
    var types := OrderTypes(order, |order|);
    forall k | 0 <= k < |sources| ensures sources[k].docType in types {
      var j :| 0 <= j < |order| && order[j] == sources[k].docType;
      OrderTypesHas(order, |order|, j);
    }
    HavingAll(sources, types);
    forall i | 0 <= i < |order| ensures forall k :: 0 <= k < |Group(sources, order[i])| ==>
      Group(sources, order[i])[k].docType == order[i]
    {
      GroupTyped(sources, order[i]);
    }
  }

  /** Every source in the group of a type has that type. */
  lemma {:induction false} GroupTyped(xs: seq<DocumentSource>, ty: string)
    ensures forall k :: 0 <= k < |Group(xs, ty)| ==> Group(xs, ty)[k].docType == ty
  {
    if xs != [] {
      GroupTyped(xs[..|xs| - 1], ty);
    }
  }
}
