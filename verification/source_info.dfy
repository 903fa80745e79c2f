/** Where the data of a logical-plan leaf comes from (`SourceInfo`), and the
    identity rules that plan-level caching and de-duplication rely on. */
module Sources {
  import opened Results
  import opened Values

  /** Rust's `usize` on the 64-bit targets the engine is built for. */
  const USIZE_LIMIT: int := 0x1_0000_0000_0000_0000

  newtype usize = x: int | 0 <= x < USIZE_LIMIT

  /** Schemas and clustering specs are opaque here: only their equality matters. */
  datatype Field = Field(name: string, dtype: string)
  datatype Schema = Schema(fields: seq<Field>)
  datatype ClusteringSpec = ClusteringSpec(scheme: string, numPartitions: usize)

  /** An opaque physical-scan descriptor with structural (derived) equality. */
  datatype PhysicalScanInfo = PhysicalScanInfo(scanOperator: string, sourceSchema: Schema, pushdowns: string)

  datatype InMemoryInfo = InMemoryInfo(
    sourceSchema: Schema,
    cacheKey: string,
    numPartitions: usize,
    sizeBytes: usize,
    numRows: usize,
    clusteringSpec: Option<ClusteringSpec>)

  datatype PlaceHolderInfo = PlaceHolderInfo(
    sourceSchema: Schema,
    clusteringSpec: ClusteringSpec,
    sourceId: usize)

  datatype SourceInfo =
    | InMemory(inMemory: InMemoryInfo)
    | Physical(physical: PhysicalScanInfo)
    | PlaceHolder(placeHolder: PlaceHolderInfo)

  /** `InMemoryInfo::new`: the Python cache entry is accepted and dropped. */
  function NewInMemoryInfo(
    sourceSchema: Schema,
    cacheKey: string,
    cacheEntry: PyHandle,
    numPartitions: usize,
    sizeBytes: usize,
    numRows: usize,
    clusteringSpec: Option<ClusteringSpec>): (info: InMemoryInfo)
    ensures info.sourceSchema == sourceSchema && info.cacheKey == cacheKey
    ensures info.numPartitions == numPartitions && info.sizeBytes == sizeBytes && info.numRows == numRows
    ensures info.clusteringSpec == clusteringSpec
  {
    InMemoryInfo(sourceSchema, cacheKey, numPartitions, sizeBytes, numRows, clusteringSpec)
  }

  /** The cache entry leaves no trace in the constructed value. */
  lemma NewInMemoryInfoDropsCacheEntry(
    sourceSchema: Schema, cacheKey: string, e1: PyHandle, e2: PyHandle,
    numPartitions: usize, sizeBytes: usize, numRows: usize, clusteringSpec: Option<ClusteringSpec>)
    ensures NewInMemoryInfo(sourceSchema, cacheKey, e1, numPartitions, sizeBytes, numRows, clusteringSpec)
         == NewInMemoryInfo(sourceSchema, cacheKey, e2, numPartitions, sizeBytes, numRows, clusteringSpec)
  {
  }

  /** The hand-written `PartialEq for InMemoryInfo`. */
  predicate InMemoryEq(a: InMemoryInfo, b: InMemoryInfo)
    ensures InMemoryEq(a, b) ==> InMemoryHashInput(a) == InMemoryHashInput(b)
  {
    a.cacheKey == b.cacheKey
  }

  /** The derived `PartialEq for SourceInfo`: variants must agree, then payloads compare. */
  predicate SourceEq(a: SourceInfo, b: SourceInfo)
    ensures SourceEq(a, b) ==> SourceHashInput(a) == SourceHashInput(b)
  {
    match (a, b)
    case (InMemory(x), InMemory(y)) => InMemoryEq(x, y)
    case (Physical(x), Physical(y)) => x == y
    case (PlaceHolder(x), PlaceHolder(y)) => x == y
    case _ => false
  }

  /** What a `Hash` implementation feeds to the `Hasher`, in order. */
  datatype HashToken =
    | Discriminant(index: nat)
    | StrToken(s: string)
    | SchemaToken(schema: Schema)
    | SpecToken(spec: ClusteringSpec)
    | UsizeToken(n: usize)
    | ScanToken(scan: PhysicalScanInfo)

  /** The hand-written `Hash for InMemoryInfo` feeds the cache key only. */
  function InMemoryHashInput(a: InMemoryInfo): (r: seq<HashToken>)
    ensures r == [StrToken(a.cacheKey)]
  {
    [StrToken(a.cacheKey)]
  }

  /** The derived `Hash for SourceInfo`: the variant's discriminant, then its payload. */
  function SourceHashInput(s: SourceInfo): (r: seq<HashToken>)
    ensures |r| > 1 && r[0].Discriminant?
    ensures s.InMemory? <==> r[0] == Discriminant(0)
    ensures s.Physical? <==> r[0] == Discriminant(1)
    ensures s.PlaceHolder? <==> r[0] == Discriminant(2)
    ensures s.InMemory? ==> r[1..] == [StrToken(s.inMemory.cacheKey)]
    ensures s.Physical? ==> r[1..] == [ScanToken(s.physical)]
    ensures s.PlaceHolder? ==> r[1..] == [SchemaToken(s.placeHolder.sourceSchema), SpecToken(s.placeHolder.clusteringSpec),
                                          UsizeToken(s.placeHolder.sourceId)]
  {
    match s
    case InMemory(i) => [Discriminant(0)] + InMemoryHashInput(i)
    case Physical(p) => [Discriminant(1), ScanToken(p)]
    case PlaceHolder(h) => [Discriminant(2), SchemaToken(h.sourceSchema), SpecToken(h.clusteringSpec), UsizeToken(h.sourceId)]
  }

  /** A hash value: whatever a hasher makes of the tokens it was fed. */
  function HashWith(s: SourceInfo, hasher: seq<HashToken> -> int): int {
    hasher(SourceHashInput(s))
  }

  /** Equality on in-memory sources is decided by the cache key alone, and is an equivalence. */
  lemma InMemoryEqIsCacheKeyEquivalence(a: InMemoryInfo, b: InMemoryInfo, c: InMemoryInfo)
    ensures InMemoryEq(a, b) <==> a.cacheKey == b.cacheKey
    ensures InMemoryEq(a, a)
    ensures InMemoryEq(a, b) ==> InMemoryEq(b, a)
    ensures InMemoryEq(a, b) && InMemoryEq(b, c) ==> InMemoryEq(a, c)
  {
  }

  /** Equal in-memory sources are fed identically to every hasher. */
  lemma InMemoryHashConsistent(a: InMemoryInfo, b: InMemoryInfo)
    requires InMemoryEq(a, b)
    ensures InMemoryHashInput(a) == InMemoryHashInput(b)
    ensures forall hasher :: HashWith(InMemory(a), hasher) == HashWith(InMemory(b), hasher)
  {
  }

  /** Rewriting the recorded metadata of an in-memory source changes neither
      what it equals nor how it hashes. */
  lemma InMemoryMetadataIrrelevant(
    a: InMemoryInfo, sourceSchema: Schema, numPartitions: usize, sizeBytes: usize,
    numRows: usize, clusteringSpec: Option<ClusteringSpec>, b: InMemoryInfo)
    ensures var a' := a.(sourceSchema := sourceSchema, numPartitions := numPartitions, sizeBytes := sizeBytes,
                         numRows := numRows, clusteringSpec := clusteringSpec);
            && InMemoryEq(a, a')
            && (InMemoryEq(a, b) <==> InMemoryEq(a', b))
            && InMemoryHashInput(a) == InMemoryHashInput(a')
  {
  }

  /** `SourceEq` is an equivalence on every variant. */
  lemma SourceEqIsEquivalence(a: SourceInfo, b: SourceInfo, c: SourceInfo)
    ensures SourceEq(a, a)
    ensures SourceEq(a, b) ==> SourceEq(b, a)
    ensures SourceEq(a, b) && SourceEq(b, c) ==> SourceEq(a, c)
  {
  }

  /** Sources of different variants never compare equal; sources of the same
      variant compare by their payloads' equality. */
  lemma SourceEqByVariant(a: SourceInfo, b: SourceInfo)
    ensures (a.InMemory? != b.InMemory? || a.Physical? != b.Physical?) ==> !SourceEq(a, b)
    ensures a.InMemory? && b.InMemory? ==> (SourceEq(a, b) <==> a.inMemory.cacheKey == b.inMemory.cacheKey)
    ensures a.Physical? && b.Physical? ==> (SourceEq(a, b) <==> a.physical == b.physical)
    ensures a.PlaceHolder? && b.PlaceHolder? ==> (SourceEq(a, b) <==> a.placeHolder == b.placeHolder)
  {
  }

  /** Equal sources hash equally, under every hasher. */
  lemma SourceHashConsistent(a: SourceInfo, b: SourceInfo)
    requires SourceEq(a, b)
    ensures SourceHashInput(a) == SourceHashInput(b)
    ensures forall hasher :: HashWith(a, hasher) == HashWith(b, hasher)
  {
  }

  /** The state of `PLACEHOLDER_ID_COUNTER`: the id the next allocation returns. */
  datatype IdCounter = IdCounter(next: usize)

  /** The counter's value at process start. */
  const InitialCounter: IdCounter := IdCounter(0)

  /** `PlaceHolderInfo::new`: takes the counter's current value as the id and
      advances the counter by one (`fetch_add` wraps around at `usize::MAX`). */
  function NewPlaceHolder(counter: IdCounter, sourceSchema: Schema, clusteringSpec: ClusteringSpec): (r: (PlaceHolderInfo, IdCounter))
    ensures r.0.sourceId == counter.next
    ensures r.0.sourceSchema == sourceSchema && r.0.clusteringSpec == clusteringSpec
    ensures r.1.next as int == (counter.next as int + 1) % USIZE_LIMIT
    ensures r.1.next != counter.next
  {
    (PlaceHolderInfo(sourceSchema, clusteringSpec, counter.next),
     IdCounter(((counter.next as int + 1) % USIZE_LIMIT) as usize))
  }

  /** Successive allocations for a sequence of (schema, clustering spec) requests,
      threading the counter from one call to the next. */
  function NewPlaceHolders(counter: IdCounter, requests: seq<(Schema, ClusteringSpec)>): (r: (seq<PlaceHolderInfo>, IdCounter))
    ensures |r.0| == |requests|
    decreases |requests|
  {
    if |requests| == 0 then ([], counter)
    else
      var (first, counter') := NewPlaceHolder(counter, requests[0].0, requests[0].1);
      var (rest, counter'') := NewPlaceHolders(counter', requests[1..]);
      ([first] + rest, counter'')
  }

  /** Two placeholders from consecutive calls are never equal, even for the
      same schema and clustering spec. */
  lemma SeparatePlaceHoldersDiffer(counter: IdCounter, s1: Schema, k1: ClusteringSpec, s2: Schema, k2: ClusteringSpec)
    ensures var (p1, counter') := NewPlaceHolder(counter, s1, k1);
            var (p2, _) := NewPlaceHolder(counter', s2, k2);
            p1.sourceId != p2.sourceId && !SourceEq(PlaceHolder(p1), PlaceHolder(p2))
  {
  }

  /** Ids from a run of allocations are the consecutive values from the
      counter's start, with no gaps, as long as the counter does not wrap; each
      placeholder keeps its request's schema and spec. */
  lemma {:induction false} PlaceHolderIdsConsecutive(counter: IdCounter, requests: seq<(Schema, ClusteringSpec)>)
    requires counter.next as int + |requests| <= USIZE_LIMIT
    ensures var (infos, counter') := NewPlaceHolders(counter, requests);
            && (forall i :: 0 <= i < |infos| ==> infos[i].sourceId as int == counter.next as int + i)
            && (forall i :: 0 <= i < |infos| ==> infos[i].sourceSchema == requests[i].0 && infos[i].clusteringSpec == requests[i].1)
            && counter'.next as int == (counter.next as int + |requests|) % USIZE_LIMIT
    decreases |requests|
  {
    if |requests| > 0 {
      var (first, c1) := NewPlaceHolder(counter, requests[0].0, requests[0].1);
      PlaceHolderIdsConsecutive(c1, requests[1..]);
      var (rest, c2) := NewPlaceHolders(c1, requests[1..]);
      assert NewPlaceHolders(counter, requests).0 == [first] + rest;
    }
  }

  /** Within a run of allocations the ids strictly increase, so no two of the
      placeholders compare equal. */
  lemma PlaceHoldersPairwiseDistinct(counter: IdCounter, requests: seq<(Schema, ClusteringSpec)>)
    requires counter.next as int + |requests| <= USIZE_LIMIT
    ensures var infos := NewPlaceHolders(counter, requests).0;
            forall i, j :: 0 <= i < j < |infos| ==>
              infos[i].sourceId < infos[j].sourceId && !SourceEq(PlaceHolder(infos[i]), PlaceHolder(infos[j]))
  {
    PlaceHolderIdsConsecutive(counter, requests);
  }

  /** The first placeholders a process creates get the ids 0, 1, 2, ... in
      creation order. */
  lemma FirstPlaceHoldersOfProcess(requests: seq<(Schema, ClusteringSpec)>)
    requires |requests| <= USIZE_LIMIT
    ensures var infos := NewPlaceHolders(InitialCounter, requests).0;
            forall i :: 0 <= i < |infos| ==> infos[i].sourceId as int == i
  {
    PlaceHolderIdsConsecutive(InitialCounter, requests);
  }
}
