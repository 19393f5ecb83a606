/**
 * tools/vector_db.py: embedding generation and the Chroma-backed store.
 * The embedding endpoint and the collection's nearest-neighbour query are
 * parameters; the collection itself is a map from id to record that
 * `add_documents` updates.
 */
module VectorDb {
  import opened Wrappers
  import opened Text
  import opened Json
  import opened Schema

  type Vector = seq<real>

  /** One element of a batch response: the position it answers and its vector. */
  datatype Datum = Datum(index: int, embedding: Vector)

  /**
   * The embedding endpoint. `single(i, attempt, text)` is the reply to the
   * `attempt`-th request for the i-th text in single mode; `batch(k, texts)`
   * the reply to the k-th batch. `Err` is the message of the exception raised.
   */
  datatype EmbeddingService = EmbeddingService(
    baseUrl: string,
    batchSize: int,
    single: (nat, nat, string) -> Result<seq<Vector>, string>,
    batch: (nat, seq<string>) -> Result<seq<Datum>, string>)

  const EmptyNode := "empty_node"
  const MaxEmbedRetries := 5

  /** Rate-limited single mode applies to ModelScope endpoints. */
  predicate SingleMode(service: EmbeddingService)
  {
    Contains(service.baseUrl, "modelscope.cn")
  }

  /** Single mode's text: stripped, or "empty_node" when nothing is left. */
  function CleanSingle(t: string): (r: string)
    ensures r != "" && Trimmed(r)
  {
    if Strip(t) != "" then Strip(t) else EmptyNode
  }

  /** Batch mode's text: unchanged, or "empty_node" when it is blank. */
  function CleanBatched(t: string): (r: string)
    ensures r != ""
  {
    if Strip(t) != "" then t else EmptyNode
  }

  function Min(a: int, b: int): int
  {
    if a <= b then a else b
  }

  /** The exception raised when every attempt for a text failed. */
  function GiveUpMessage(clean: string): string
  {
    "生成向量失败，文本: " + clean[..Min(20, |clean|)] + "..."
  }

  /** The retry loop for the i-th text from attempt `k` on: an error and an empty reply both count as a failure. */
  function EmbedFrom(single: (nat, nat, string) -> Result<seq<Vector>, string>, i: nat, clean: string, k: nat): Option<Vector>
    requires k <= MaxEmbedRetries
    decreases MaxEmbedRetries - k
  {
    if k == MaxEmbedRetries then None
    else
      var reply := single(i, k, clean);
      if reply.Ok? && reply.value != [] then Some(reply.value[0])
      else EmbedFrom(single, i, clean, k + 1)
  }

  /** The vector for the i-th text in single mode, or the exception raised after five failed attempts. */
  function EmbedText(single: (nat, nat, string) -> Result<seq<Vector>, string>, i: nat, text: string): Result<Vector, string>
  {
    var clean := CleanSingle(text);
    match EmbedFrom(single, i, clean, 0)
    case Some(v) => Ok(v)
    case None => Err(GiveUpMessage(clean))
  }

  /** The per-text outcomes of single mode, in order. */
  function EmbedAll(texts: seq<string>, single: (nat, nat, string) -> Result<seq<Vector>, string>): (rs: seq<Result<Vector, string>>)
    ensures |rs| == |texts|
    ensures forall i :: 0 <= i < |texts| ==> rs[i] == EmbedText(single, i, texts[i])
  {
    seq(|texts|, i requires 0 <= i < |texts| => EmbedText(single, i, texts[i]))
  }

  /** The values of `rs` in order, or the first error among them (the loop that raises at its first failure). */
  function Collect<T>(rs: seq<Result<T, string>>): Result<seq<T>, string>
  {
    if rs == [] then Ok([])
    else
      var prev := Collect(rs[..|rs| - 1]);
      if prev.Err? then prev
      else if rs[|rs| - 1].Err? then Err(rs[|rs| - 1].error)
      else Ok(prev.value + [rs[|rs| - 1].value])
  }

  /** Collecting one more element: an earlier error stays, otherwise the element's error or its value appended. */
  lemma CollectStep<T>(rs: seq<Result<T, string>>, i: nat)
    requires i < |rs|
    ensures var prev := Collect(rs[..i]);
            Collect(rs[..i + 1])
            == (if prev.Err? then prev else if rs[i].Err? then Err(rs[i].error) else Ok(prev.value + [rs[i].value]))
  {
    assert rs[..i + 1][..i] == rs[..i];
  }

  /** `range(0, len(texts), size)` cut into slices: all of `size` items but the last. */
  function Batches(texts: seq<string>, size: nat): seq<seq<string>>
    requires size > 0
    decreases |texts|
  {
    if texts == [] then []
    else if |texts| <= size then [texts]
    else [texts[..size]] + Batches(texts[size..], size)
  }

  function Flatten<T>(xss: seq<seq<T>>): seq<T>
    decreases |xss|
  {
    if xss == [] then [] else xss[0] + Flatten(xss[1..])
  }

  /** `sorted(data, key=index)`: a stable sort of a batch response by index (insertion of the head into the sorted tail). */
  function SortByIndex(ds: seq<Datum>): seq<Datum>
    decreases |ds|
  {
    if ds == [] then [] else Insert(ds[0], SortByIndex(ds[1..]))
  }

  /** `d` placed before the first element whose index is not smaller. */
  function Insert(d: Datum, sorted: seq<Datum>): seq<Datum>
    decreases |sorted|
  {
    if sorted == [] || d.index <= sorted[0].index then [d] + sorted
    else [sorted[0]] + Insert(d, sorted[1..])
  }

  predicate SortedByIndex(ds: seq<Datum>)
  {
    forall i, j :: 0 <= i < j < |ds| ==> ds[i].index <= ds[j].index
  }

  function Embeddings(ds: seq<Datum>): seq<Vector>
    decreases |ds|
  {
    if ds == [] then [] else [ds[0].embedding] + Embeddings(ds[1..])
  }

  function CleanAll(texts: seq<string>): (r: seq<string>)
    ensures |r| == |texts|
  {
    seq(|texts|, i requires 0 <= i < |texts| => CleanBatched(texts[i]))
  }

  /** Batch mode from the k-th batch on: the vectors of each reply sorted by index, batch after batch. */
  function BatchesFrom(bs: seq<seq<string>>, batch: (nat, seq<string>) -> Result<seq<Datum>, string>, k: nat): Result<seq<Vector>, string>
    decreases |bs|
  {
    if bs == [] then Ok([])
    else
      var reply := batch(k, CleanAll(bs[0]));
      if reply.Err? then Err(reply.error)
      else
        var rest := BatchesFrom(bs[1..], batch, k + 1);
        if rest.Err? then rest else Ok(Embeddings(SortByIndex(reply.value)) + rest.value)
  }

  const ZeroStepMessage := "range() arg 3 must not be zero"

  /** `generate_embeddings`: the vectors, or the message of the exception it raises. */
  function GeneratedEmbeddings(texts: seq<string>, service: EmbeddingService): Result<seq<Vector>, string>
  {
    if SingleMode(service) then Collect(EmbedAll(texts, service.single))
    else if service.batchSize == 0 then Err(ZeroStepMessage)
    else if service.batchSize < 0 then Ok([])
    else BatchesFrom(Batches(texts, service.batchSize), service.batch, 0)
  }

  /** The batches cover the input exactly, in order, each with between one and `size` texts. */
  lemma {:induction false} BatchesPartition(texts: seq<string>, size: nat)
    requires size > 0
    ensures Flatten(Batches(texts, size)) == texts
    ensures forall b :: 0 <= b < |Batches(texts, size)| ==> 0 < |Batches(texts, size)[b]| <= size
    ensures forall b :: 0 <= b < |Batches(texts, size)| - 1 ==> |Batches(texts, size)[b]| == size
    decreases |texts|
  {
    if texts != [] && |texts| > size {
      BatchesPartition(texts[size..], size);
      var bs := Batches(texts, size);
      assert bs[1..] == Batches(texts[size..], size);
      assert texts[..size] + texts[size..] == texts;
    }
  }

  lemma {:induction false} InsertPerm(d: Datum, sorted: seq<Datum>)
    ensures multiset(Insert(d, sorted)) == multiset([d]) + multiset(sorted)
    ensures |Insert(d, sorted)| == |sorted| + 1
    decreases |sorted|
  {
    if !(sorted == [] || d.index <= sorted[0].index) {
      InsertPerm(d, sorted[1..]);
      assert sorted == [sorted[0]] + sorted[1..];
    }
  }

  /** Insertion into an index-sorted list keeps it sorted; the new head is `d` or the old head. */
  lemma {:induction false} InsertSorted(d: Datum, sorted: seq<Datum>)
    requires SortedByIndex(sorted)
    ensures |Insert(d, sorted)| == |sorted| + 1
    ensures SortedByIndex(Insert(d, sorted))
    ensures Insert(d, sorted)[0] == d || (sorted != [] && Insert(d, sorted)[0] == sorted[0])
    decreases |sorted|
  {
    if sorted == [] || d.index <= sorted[0].index {
      var r := Insert(d, sorted);
      assert r == [d] + sorted;
      forall i, j | 0 <= i < j < |r| ensures r[i].index <= r[j].index {
        if i > 0 {
          assert r[i] == sorted[i - 1] && r[j] == sorted[j - 1];
        } else {
          assert r[j] == sorted[j - 1];
          assert sorted[0].index <= sorted[j - 1].index;
        }
      }
    } else {
      var rest := sorted[1..];
      assert SortedByIndex(rest) by {
        forall i, j | 0 <= i < j < |rest| ensures rest[i].index <= rest[j].index {
          assert rest[i] == sorted[i + 1] && rest[j] == sorted[j + 1];
        }
      }
      InsertSorted(d, rest);
      var tail := Insert(d, rest);
      var r := Insert(d, sorted);
      assert r == [sorted[0]] + tail;
      assert sorted[0].index <= tail[0].index by {
        if tail[0] != d {
          assert tail[0] == rest[0] == sorted[1];
        }
      }
      forall i, j | 0 <= i < j < |r| ensures r[i].index <= r[j].index {
        if i > 0 {
          assert r[i] == tail[i - 1] && r[j] == tail[j - 1];
        } else {
          assert r[j] == tail[j - 1];
          assert tail[0].index <= tail[j - 1].index;
        }
      }
    }
  }

  /** The response is reordered by ascending index, and nothing is lost or added. */
  lemma {:induction false} SortByIndexCorrect(ds: seq<Datum>)
    ensures SortedByIndex(SortByIndex(ds))
    ensures multiset(SortByIndex(ds)) == multiset(ds)
    ensures |SortByIndex(ds)| == |ds|
    decreases |ds|
  {
    if ds != [] {
      SortByIndexCorrect(ds[1..]);
      InsertPerm(ds[0], SortByIndex(ds[1..]));
      InsertSorted(ds[0], SortByIndex(ds[1..]));
      assert ds == [ds[0]] + ds[1..];
    }
  }

  /** The elements of `ds` whose index is `k`, in their order. */
  function WithIndex(ds: seq<Datum>, k: int): seq<Datum>
    decreases |ds|
  {
    if ds == [] then [] else (if ds[0].index == k then [ds[0]] else []) + WithIndex(ds[1..], k)
  }

  lemma WithIndexCons(x: Datum, t: seq<Datum>, k: int)
    ensures WithIndex([x] + t, k) == (if x.index == k then [x] else []) + WithIndex(t, k)
  {
    assert ([x] + t)[1..] == t;
  }

  /** Insertion puts `d` ahead of every element sharing its index. */
  lemma {:induction false} InsertKeepsTies(d: Datum, sorted: seq<Datum>, k: int)
    ensures WithIndex(Insert(d, sorted), k) == (if d.index == k then [d] else []) + WithIndex(sorted, k)
    decreases |sorted|
  {
    if sorted == [] || d.index <= sorted[0].index {
      WithIndexCons(d, sorted, k);
    } else {
      var x, rest := sorted[0], sorted[1..];
      assert sorted == [x] + rest;
      InsertKeepsTies(d, rest, k);
      WithIndexCons(x, Insert(d, rest), k);
      WithIndexCons(x, rest, k);
      var a: seq<Datum> := if x.index == k then [x] else [];
      var b: seq<Datum> := if d.index == k then [d] else [];
      assert a == [] || b == [];
      assert a + (b + WithIndex(rest, k)) == b + (a + WithIndex(rest, k));
    }
  }

  /** The sort is stable: the elements sharing any one index keep their order. */
  lemma {:induction false} SortByIndexStable(ds: seq<Datum>, k: int)
    ensures WithIndex(SortByIndex(ds), k) == WithIndex(ds, k)
    decreases |ds|
  {
    if ds != [] {
      SortByIndexStable(ds[1..], k);
      InsertKeepsTies(ds[0], SortByIndex(ds[1..]), k);
    }
  }

  lemma {:induction false} EmbeddingsLength(ds: seq<Datum>)
    ensures |Embeddings(ds)| == |ds|
    decreases |ds|
  {
    if ds != [] {
      EmbeddingsLength(ds[1..]);
    }
  }

  /**
   * Batch mode yields one vector per text whenever each reply holds one
   * element per text of its batch.
   */
  lemma {:induction false} BatchesFromLength(bs: seq<seq<string>>, batch: (nat, seq<string>) -> Result<seq<Datum>, string>, k: nat)
    requires forall j :: 0 <= j < |bs| ==> batch(k + j, CleanAll(bs[j])).Ok? && |batch(k + j, CleanAll(bs[j])).value| == |bs[j]|
    ensures BatchesFrom(bs, batch, k).Ok?
    ensures |BatchesFrom(bs, batch, k).value| == |Flatten(bs)|
    decreases |bs|
  {
    if bs != [] {
      forall j | 0 <= j < |bs[1..]|
        ensures batch(k + 1 + j, CleanAll(bs[1..][j])).Ok? && |batch(k + 1 + j, CleanAll(bs[1..][j])).value| == |bs[1..][j]|
      {
        assert bs[1..][j] == bs[j + 1];
      }
      BatchesFromLength(bs[1..], batch, k + 1);
      var reply := batch(k, CleanAll(bs[0]));
      assert reply.Ok? && |reply.value| == |bs[0]|;
      SortByIndexCorrect(reply.value);
      EmbeddingsLength(SortByIndex(reply.value));
    }
  }

  /**
   * Collecting succeeds exactly when every outcome does, and then keeps every
   * value in order; otherwise it reports the first error.
   */
  lemma {:induction false} CollectSpec<T>(rs: seq<Result<T, string>>)
    ensures Collect(rs).Ok? <==> forall i :: 0 <= i < |rs| ==> rs[i].Ok?
    ensures Collect(rs).Ok? ==> |Collect(rs).value| == |rs| && forall i :: 0 <= i < |rs| ==> Collect(rs).value[i] == rs[i].value
    ensures Collect(rs).Err? ==> exists i :: 0 <= i < |rs| && rs[i] == Err(Collect(rs).error) && forall j :: 0 <= j < i ==> rs[j].Ok?
  {
    if rs != [] {
      var init := rs[..|rs| - 1];
      CollectSpec(init);
      assert forall i :: 0 <= i < |init| ==> init[i] == rs[i];
      var c := Collect(rs);
      if Collect(init).Err? {
        var i :| 0 <= i < |init| && init[i] == Err(Collect(init).error) && forall j :: 0 <= j < i ==> init[j].Ok?;
        assert rs[i] == Err(c.error);
      } else if rs[|rs| - 1].Err? {
        assert rs[|rs| - 1] == Err(c.error);
      } else {
        assert c.value == Collect(init).value + [rs[|rs| - 1].value];
      }
    }
  }

  /** Once a prefix of the outcomes fails, the whole collection fails the same way. */
  lemma {:induction false} CollectErr<T>(rs: seq<Result<T, string>>, n: nat)
    requires n <= |rs| && Collect(rs[..n]).Err?
    ensures Collect(rs) == Collect(rs[..n])
    decreases |rs| - n
  {
    if n < |rs| {
      assert rs[..n + 1][..n] == rs[..n];
      CollectErr(rs, n + 1);
    } else {
      assert rs[..n] == rs;
    }
  }

  /** Single mode yields one vector per text, the i-th one embedding the i-th text, or raises the first failure. */
  lemma SingleModeSpec(texts: seq<string>, single: (nat, nat, string) -> Result<seq<Vector>, string>)
    ensures Collect(EmbedAll(texts, single)).Ok? <==> forall i :: 0 <= i < |texts| ==> EmbedText(single, i, texts[i]).Ok?
    ensures Collect(EmbedAll(texts, single)).Ok? ==>
              |Collect(EmbedAll(texts, single)).value| == |texts|
              && forall i :: 0 <= i < |texts| ==> Ok(Collect(EmbedAll(texts, single)).value[i]) == EmbedText(single, i, texts[i])
  {
    CollectSpec(EmbedAll(texts, single));
  }

  /**
   * A text is embedded when one of its five attempts gets a non-empty reply,
   * and then with the first vector of the first such reply.
   */
  lemma {:induction false} EmbedFromOutcome(single: (nat, nat, string) -> Result<seq<Vector>, string>, i: nat, clean: string, k: nat)
    requires k <= MaxEmbedRetries
    ensures EmbedFrom(single, i, clean, k).Some? <==>
              exists a :: k <= a < MaxEmbedRetries && single(i, a, clean).Ok? && single(i, a, clean).value != []
    ensures EmbedFrom(single, i, clean, k).Some? ==>
              exists a :: k <= a < MaxEmbedRetries && single(i, a, clean).Ok? && single(i, a, clean).value != []
                && EmbedFrom(single, i, clean, k).value == single(i, a, clean).value[0]
                && forall b :: k <= b < a ==> !(single(i, b, clean).Ok? && single(i, b, clean).value != [])
    decreases MaxEmbedRetries - k
  {
    if k < MaxEmbedRetries {
      EmbedFromOutcome(single, i, clean, k + 1);
      var reply := single(i, k, clean);
      if !(reply.Ok? && reply.value != []) {
        if exists a :: k <= a < MaxEmbedRetries && single(i, a, clean).Ok? && single(i, a, clean).value != [] {
          var a :| k <= a < MaxEmbedRetries && single(i, a, clean).Ok? && single(i, a, clean).value != [];
          assert a != k;
        }
      }
    }
  }

  /** Five failed attempts raise, quoting at most twenty characters of the cleaned text. */
  lemma GiveUpQuotesText(single: (nat, nat, string) -> Result<seq<Vector>, string>, i: nat, text: string)
    requires forall a :: 0 <= a < MaxEmbedRetries ==> !(single(i, a, CleanSingle(text)).Ok? && single(i, a, CleanSingle(text)).value != [])
    ensures EmbedText(single, i, text) == Err(GiveUpMessage(CleanSingle(text)))
    ensures |GiveUpMessage(CleanSingle(text))| <= |"生成向量失败，文本: "| + 20 + 3
  {
    EmbedFromOutcome(single, i, CleanSingle(text), 0);
  }

  /** What each mode sends: single mode the stripped text, batch mode a non-blank text as it is. */
  lemma CleaningDiffers(t: string)
    ensures Strip(t) != "" ==> CleanSingle(t) == Strip(t) && CleanBatched(t) == t
    ensures Strip(t) == "" ==> CleanSingle(t) == EmptyNode && CleanBatched(t) == EmptyNode
  {
  }

  /** The retry loop for one text in single mode. */
  method EmbedWithRetry(single: (nat, nat, string) -> Result<seq<Vector>, string>, i: nat, text: string)
    returns (r: Result<Vector, string>)
    ensures r == EmbedText(single, i, text)
  {
    var clean := CleanSingle(text);
    var success := false;
    var retryCount := 0;
    var embedding: Vector := [];
    while !success && retryCount < MaxEmbedRetries
      invariant 0 <= retryCount <= MaxEmbedRetries
      invariant success ==> EmbedFrom(single, i, clean, 0) == Some(embedding)
      invariant !success ==> EmbedFrom(single, i, clean, 0) == EmbedFrom(single, i, clean, retryCount)
      decreases MaxEmbedRetries - retryCount, if success then 0 else 1
    {
      var reply := single(i, retryCount, clean);
      if reply.Ok? && reply.value != [] {
        embedding := reply.value[0];
        success := true;
      } else {
        retryCount := retryCount + 1;
      }
    }
    if !success {
      return Err(GiveUpMessage(clean));
    }
    return Ok(embedding);
  }

  /** `generate_embeddings`. */
  method GenerateEmbeddings(texts: seq<string>, service: EmbeddingService) returns (r: Result<seq<Vector>, string>)
    ensures r == GeneratedEmbeddings(texts, service)
  {
    if SingleMode(service) {
      r := EmbedEach(texts, service.single);
    } else if service.batchSize == 0 {
      r := Err(ZeroStepMessage);
    } else if service.batchSize < 0 {
      r := Ok([]);
    } else {
      r := EmbedBatches(texts, service.batchSize, service.batch);
    }
  }

  /** Single mode: every text in turn, with its own retry loop. */
  method EmbedEach(texts: seq<string>, single: (nat, nat, string) -> Result<seq<Vector>, string>) returns (r: Result<seq<Vector>, string>)
    ensures r == Collect(EmbedAll(texts, single))
  {
    ghost var rs := EmbedAll(texts, single);
    var all: seq<Vector> := [];
    for i := 0 to |texts|
      invariant Collect(rs[..i]) == Ok(all)
    {
      var e := EmbedWithRetry(single, i, texts[i]);
      assert e == rs[i];
      CollectStep(rs, i);
      if e.Err? {
        CollectErr(rs, i + 1);
        return Err(e.error);
      }
      all := all + [e.value];
    }
    assert rs[..|texts|] == rs;
    return Ok(all);
  }

  /** Batch mode: cut, clean, call, sort each reply by index and append. */
  method EmbedBatches(texts: seq<string>, size: nat, batch: (nat, seq<string>) -> Result<seq<Datum>, string>)
    returns (r: Result<seq<Vector>, string>)
    requires size > 0
    ensures r == BatchesFrom(Batches(texts, size), batch, 0)
  {
    ghost var goal := BatchesFrom(Batches(texts, size), batch, 0);
    var all: seq<Vector> := [];
    var i := 0;
    var k := 0;
    if texts != [] {
      assert texts[0..] == texts;
      assert Prepend([], goal) == goal by {
        if goal.Ok? {
          assert [] + goal.value == goal.value;
        }
      }
    }
    while i < |texts|
      invariant 0 <= i
      invariant i < |texts| ==> goal == Prepend(all, BatchesFrom(Batches(texts[i..], size), batch, k))
      invariant i >= |texts| ==> goal == Ok(all)
      decreases |texts| - i
    {
      var batchTexts := texts[i..Min(i + size, |texts|)];
      BatchesStep(texts, i, size);
      ghost var bs := Batches(texts[i..], size);
      var cleaned := CleanAll(batchTexts);
      var reply := batch(k, cleaned);
      BatchesFromStep(bs, batch, k);
      if reply.Err? {
        return Err(reply.error);
      }
      var embedded := Embeddings(SortByIndex(reply.value));
      PrependAssoc(all, embedded, BatchesFrom(bs[1..], batch, k + 1));
      all := all + embedded;
      if i + size >= |texts| {
        assert BatchesFrom(bs[1..], batch, k + 1) == Ok([]);
        assert all + [] == all;
      }
      i := i + size;
      k := k + 1;
    }
    r := Ok(all);
  }

  /** Prefixing the vectors already gathered to a result that may still fail. */
  function Prepend(done: seq<Vector>, rest: Result<seq<Vector>, string>): (r: Result<seq<Vector>, string>)
    ensures r.Err? <==> rest.Err?
    ensures r.Err? ==> r == rest
    ensures r.Ok? ==> r.value == done + rest.value
  {
    if rest.Err? then rest else Ok(done + rest.value)
  }

  lemma PrependAssoc(a: seq<Vector>, b: seq<Vector>, rest: Result<seq<Vector>, string>)
    ensures Prepend(a, Prepend(b, rest)) == Prepend(a + b, rest)
  {
    if rest.Ok? {
      assert a + (b + rest.value) == (a + b) + rest.value;
    }
  }

  /** One batch call: its failure ends batch mode, its sorted vectors come before those of later batches. */
  lemma BatchesFromStep(bs: seq<seq<string>>, batch: (nat, seq<string>) -> Result<seq<Datum>, string>, k: nat)
    requires bs != []
    ensures var reply := batch(k, CleanAll(bs[0]));
            BatchesFrom(bs, batch, k)
            == if reply.Err? then Err(reply.error)
               else Prepend(Embeddings(SortByIndex(reply.value)), BatchesFrom(bs[1..], batch, k + 1))
  {
  }

  /** The batch that starts at `i` and the batches after it. */
  lemma BatchesStep(texts: seq<string>, i: nat, size: nat)
    requires size > 0 && i < |texts|
    ensures Batches(texts[i..], size) != []
    ensures Batches(texts[i..], size)[0] == texts[i..Min(i + size, |texts|)]
    ensures i + size < |texts| ==> Batches(texts[i..], size)[1..] == Batches(texts[i + size..], size)
    ensures i + size >= |texts| ==> Batches(texts[i..], size)[1..] == []
  {
    if i + size < |texts| {
      assert texts[i..][size..] == texts[i + size..];
      assert texts[i..][..size] == texts[i..i + size];
    }
  }

  /** What the collection keeps under one id. */
  datatype Record = Record(embedding: Vector, document: string, metadata: map<string, Json>)

  /** Chunks with fewer characters than this are not indexed. */
  const MinChunkLength := 5

  /** A text chunk as evidence: its own id and content, tagged as PDF text. */
  function TextItem(c: TextChunk): EvidenceItem
  {
    EvidenceItem(c.chunkId, c.content, None,
      map["page_number" := JInt(c.pageNumber), "type" := JStr(TEXT.Value()), "source" := JStr("pdf_text"), "chunk_id" := JStr(c.chunkId)])
  }

  /** The indexed text of a figure: its caption, then the vision model's description and insights, one per line. */
  function RichContent(caption: Option<string>, vl: VLOutput): string
  {
    "Image Caption: " + CaptionText(caption) + "\nVisual Description: " + vl.description + "\nKey Insights: " + vl.insights
  }

  /** A figure as evidence: its own id and rich content, tagged as a PDF figure; a missing caption is stored as "". */
  function ImageItem(f: FigureData, vl: VLOutput): EvidenceItem
  {
    EvidenceItem(f.figureId, RichContent(f.caption, vl), None,
      map["page_number" := JInt(f.pageNumber), "type" := JStr(IMAGE.Value()), "image_path" := JStr(f.imagePath),
          "source" := JStr("pdf_figure"), "caption" := JStr(if f.caption.Some? then f.caption.value else "")])
  }

  /** The chunks long enough to index, as evidence, in order. */
  function TextItems(chunks: seq<TextChunk>): seq<EvidenceItem>
    decreases |chunks|
  {
    if chunks == [] then []
    else
      var c := chunks[|chunks| - 1];
      TextItems(chunks[..|chunks| - 1]) + (if |c.content| < MinChunkLength then [] else [TextItem(c)])
  }

  /**
   * The figures whose image file exists, in order, the i-th figure described
   * by `describe(i, path)` (the vision agent's reply for it).
   */
  function ImageItems(figs: seq<FigureData>, imageExists: string -> bool, describe: (nat, string) -> VLOutput): seq<EvidenceItem>
    decreases |figs|
  {
    if figs == [] then []
    else
      var n := |figs| - 1;
      var f := figs[n];
      ImageItems(figs[..n], imageExists, describe) + (if imageExists(f.imagePath) then [ImageItem(f, describe(n, f.imagePath))] else [])
  }

  /** Everything `add_documents` indexes: the text items, then the image items. */
  function Evidence(chunks: seq<TextChunk>, figs: seq<FigureData>, imageExists: string -> bool, describe: (nat, string) -> VLOutput): seq<EvidenceItem>
  {
    TextItems(chunks) + ImageItems(figs, imageExists, describe)
  }

  function Contents(items: seq<EvidenceItem>): (r: seq<string>)
    ensures |r| == |items| && forall i :: 0 <= i < |items| ==> r[i] == items[i].content
  {
    seq(|items|, i requires 0 <= i < |items| => items[i].content)
  }

  /** No two items share an id. */
  predicate DistinctIds(items: seq<EvidenceItem>)
  {
    forall i, j :: 0 <= i < j < |items| ==> items[i].id != items[j].id
  }

  /** Stand-in for the text of the DuplicateIDError Chroma raises when one call repeats an id. */
  const DuplicateIdsMessage := "Expected IDs to be unique"

  /** Chroma's upsert of a batch it has validated: each id in turn set to its record. */
  function Upsert(coll: map<string, Record>, items: seq<EvidenceItem>, embs: seq<Vector>): map<string, Record>
    requires |items| == |embs|
    decreases |items|
  {
    if items == [] then coll
    else
      var n := |items| - 1;
      Upsert(coll, items[..n], embs[..n])[items[n].id := Record(embs[n], items[n].content, items[n].metadata)]
  }

  function MismatchMessage(need: nat, got: nat): string
  {
    "向量数量不匹配: 需 " + NatToString(need) + ", 得 " + NatToString(got)
  }

  /**
   * `add_documents` once the items are built, given what embedding their
   * texts yields (asked for only when there are items): the collection
   * afterwards and the message of the exception raised, if any.
   */
  function Stored(coll: map<string, Record>, items: seq<EvidenceItem>, e: Result<seq<Vector>, string>): (map<string, Record>, Option<string>)
  {
    if items == [] then (coll, None)
    else if e.Err? then (coll, Some(e.error))
    else if |e.value| != |items| then (coll, Some(MismatchMessage(|items|, |e.value|)))
    else if !DistinctIds(items) then (coll, Some(DuplicateIdsMessage))
    else (Upsert(coll, items, e.value), None)
  }

  /** The kind an evidence item's metadata records under "type". */
  predicate Tagged(x: EvidenceItem, kind: string)
  {
    Get(x.metadata, "type") == Some(JStr(kind))
  }

  /** The reply of `collection.query`: one list per query embedding; `distances` may be absent. */
  datatype QueryResult = QueryResult(
    ids: seq<seq<string>>,
    documents: seq<seq<string>>,
    metadatas: seq<seq<map<string, Json>>>,
    distances: Option<seq<seq<real>>>)

  /** Chroma's nearest-neighbour query over a collection, or the message of the exception it raises. */
  type Query = (map<string, Record>, seq<Vector>, int) -> Result<QueryResult, string>

  const IndexErrorMessage := "list index out of range"

  /**
   * The hits of the first query, zipped from its ids, documents, metadatas and
   * distances (0.0 each when the reply has no distances); no hits when `ids`
   * is empty; an IndexError when a list is missing or shorter than `ids`.
   */
  function Hits(res: QueryResult): Result<seq<EvidenceItem>, string>
  {
    if res.ids == [] then Ok([])
    else if res.documents == [] || res.metadatas == [] || (res.distances.Some? && res.distances.value == []) then Err(IndexErrorMessage)
    else
      var ids := res.ids[0];
      var docs := res.documents[0];
      var metas := res.metadatas[0];
      var dists := if res.distances.Some? then res.distances.value[0] else seq(|ids|, _ => 0.0);
      if |docs| < |ids| || |dists| < |ids| || |metas| < |ids| then Err(IndexErrorMessage)
      else Ok(seq(|ids|, i requires 0 <= i < |ids| => EvidenceItem(ids[i], docs[i], Some(dists[i]), metas[i])))
  }

  /** `search`: embed the query, ask the collection for `topK` neighbours, and zip the reply. */
  function Searched(coll: map<string, Record>, query: string, topK: int, service: EmbeddingService, nearest: Query): Result<seq<EvidenceItem>, string>
  {
    var v := GeneratedEmbeddings([query], service);
    if v.Err? then Err(v.error)
    else
      var res := nearest(coll, v.value, topK);
      if res.Err? then Err(res.error) else Hits(res.value)
  }

  /** Exactly the chunks of at least five characters are indexed, each under its own id. */
  lemma {:induction false} TextItemsSpec(chunks: seq<TextChunk>)
    ensures |TextItems(chunks)| <= |chunks|
    ensures forall c :: c in chunks && |c.content| >= MinChunkLength ==> TextItem(c) in TextItems(chunks)
    ensures forall x :: x in TextItems(chunks) ==> exists c :: c in chunks && |c.content| >= MinChunkLength && x == TextItem(c)
    decreases |chunks|
  {
    if chunks != [] {
      var init := chunks[..|chunks| - 1];
      TextItemsSpec(init);
      assert chunks == init + [chunks[|chunks| - 1]];
    }
  }

  /** Exactly the figures whose image exists are indexed, each with the description made for it. */
  lemma {:induction false} ImageItemsSpec(figs: seq<FigureData>, imageExists: string -> bool, describe: (nat, string) -> VLOutput)
    ensures |ImageItems(figs, imageExists, describe)| <= |figs|
    ensures forall j :: 0 <= j < |figs| && imageExists(figs[j].imagePath) ==>
              ImageItem(figs[j], describe(j, figs[j].imagePath)) in ImageItems(figs, imageExists, describe)
    ensures forall x :: x in ImageItems(figs, imageExists, describe) ==>
              exists j :: 0 <= j < |figs| && imageExists(figs[j].imagePath) && x == ImageItem(figs[j], describe(j, figs[j].imagePath))
    decreases |figs|
  {
    if figs != [] {
      var n := |figs| - 1;
      var init := figs[..n];
      ImageItemsSpec(init, imageExists, describe);
      assert forall j :: 0 <= j < n ==> init[j] == figs[j];
    }
  }

  lemma {:induction false} TextItemsTagged(chunks: seq<TextChunk>)
    ensures forall i :: 0 <= i < |TextItems(chunks)| ==> Tagged(TextItems(chunks)[i], "text")
    decreases |chunks|
  {
    if chunks != [] {
      TextItemsTagged(chunks[..|chunks| - 1]);
    }
  }

  lemma {:induction false} ImageItemsTagged(figs: seq<FigureData>, imageExists: string -> bool, describe: (nat, string) -> VLOutput)
    ensures forall i :: 0 <= i < |ImageItems(figs, imageExists, describe)| ==>
              Tagged(ImageItems(figs, imageExists, describe)[i], "image")
              && StartsWith(ImageItems(figs, imageExists, describe)[i].content, "Image Caption: ")
    decreases |figs|
  {
    if figs != [] {
      ImageItemsTagged(figs[..|figs| - 1], imageExists, describe);
      var f := figs[|figs| - 1];
      var vl := describe(|figs| - 1, f.imagePath);
      var c := RichContent(f.caption, vl);
      assert c == "Image Caption: " + (CaptionText(f.caption) + "\nVisual Description: " + vl.description + "\nKey Insights: " + vl.insights);
    }
  }

  /** Mixed indexing: every text item comes before every image item, and each carries its kind. */
  lemma TextsBeforeImages(chunks: seq<TextChunk>, figs: seq<FigureData>, imageExists: string -> bool, describe: (nat, string) -> VLOutput)
    ensures var items := Evidence(chunks, figs, imageExists, describe);
            var t := |TextItems(chunks)|;
            t <= |items|
            && (forall i :: 0 <= i < t ==> Tagged(items[i], "text"))
            && (forall i :: t <= i < |items| ==> Tagged(items[i], "image"))
  {
    TextItemsTagged(chunks);
    ImageItemsTagged(figs, imageExists, describe);
    var items := Evidence(chunks, figs, imageExists, describe);
    var t := |TextItems(chunks)|;
    assert forall i :: t <= i < |items| ==> items[i] == ImageItems(figs, imageExists, describe)[i - t];
  }

  /** Upserting adds exactly the ids of the items. */
  lemma {:induction false} UpsertKeys(coll: map<string, Record>, items: seq<EvidenceItem>, embs: seq<Vector>)
    requires |items| == |embs|
    ensures forall id :: id in Upsert(coll, items, embs) <==> id in coll || exists j :: 0 <= j < |items| && items[j].id == id
    decreases |items|
  {
    if items != [] {
      var n := |items| - 1;
      UpsertKeys(coll, items[..n], embs[..n]);
      assert forall j :: 0 <= j < n ==> items[..n][j] == items[j];
    }
  }

  /** An id no item carries keeps its old record. */
  lemma {:induction false} UpsertKeepsOthers(coll: map<string, Record>, items: seq<EvidenceItem>, embs: seq<Vector>, id: string)
    requires |items| == |embs| && id in coll
    requires forall j :: 0 <= j < |items| ==> items[j].id != id
    ensures id in Upsert(coll, items, embs) && Upsert(coll, items, embs)[id] == coll[id]
    decreases |items|
  {
    if items != [] {
      var n := |items| - 1;
      assert forall j :: 0 <= j < n ==> items[..n][j] == items[j];
      UpsertKeepsOthers(coll, items[..n], embs[..n], id);
    }
  }

  /** An item whose id does not occur again later is stored with its own vector, text and metadata. */
  lemma {:induction false} UpsertStoresLast(coll: map<string, Record>, items: seq<EvidenceItem>, embs: seq<Vector>, j: nat)
    requires |items| == |embs| && j < |items|
    requires forall k :: j < k < |items| ==> items[k].id != items[j].id
    ensures items[j].id in Upsert(coll, items, embs)
    ensures Upsert(coll, items, embs)[items[j].id] == Record(embs[j], items[j].content, items[j].metadata)
    decreases |items|
  {
    var n := |items| - 1;
    if j < n {
      assert forall k :: j < k < n ==> items[..n][k] == items[k];
      UpsertStoresLast(coll, items[..n], embs[..n], j);
      assert items[..n][j] == items[j] && embs[..n][j] == embs[j];
    }
  }

  /**
   * `add_documents` changes nothing when it has nothing to index or raises; it
   * raises on a failed embedding, on a count mismatch and on a repeated id;
   * when it succeeds, the ids were distinct, the collection gains exactly
   * their ids, and every item is stored with its own vector, text and metadata.
   */
  lemma StoredOutcome(coll: map<string, Record>, items: seq<EvidenceItem>, e: Result<seq<Vector>, string>)
    ensures items == [] ==> Stored(coll, items, e) == (coll, None)
    ensures Stored(coll, items, e).1.Some? ==> Stored(coll, items, e).0 == coll
    ensures items != [] && e.Err? ==> Stored(coll, items, e).1 == Some(e.error)
    ensures items != [] && e.Ok? && |e.value| == |items| && !DistinctIds(items) ==>
              Stored(coll, items, e) == (coll, Some(DuplicateIdsMessage))
    ensures Stored(coll, items, e).1.None? && items != [] ==>
              var c := Stored(coll, items, e).0;
              && e.Ok? && |e.value| == |items| && DistinctIds(items)
              && (forall id :: id in c <==> id in coll || exists j :: 0 <= j < |items| && items[j].id == id)
              && forall j :: 0 <= j < |items| ==>
                   items[j].id in c && c[items[j].id] == Record(e.value[j], items[j].content, items[j].metadata)
  {
    if items != [] && e.Ok? && |e.value| == |items| && DistinctIds(items) {
      UpsertKeys(coll, items, e.value);
      forall j | 0 <= j < |items|
        ensures items[j].id in Upsert(coll, items, e.value)
        ensures Upsert(coll, items, e.value)[items[j].id] == Record(e.value[j], items[j].content, items[j].metadata)
      {
        UpsertStoresLast(coll, items, e.value, j);
      }
    }
  }

  /** In single mode the count check never fires: a run that does not raise yields one vector per text, so only a repeated id can still fail the batch. */
  lemma SingleModeNoMismatch(coll: map<string, Record>, items: seq<EvidenceItem>, service: EmbeddingService)
    requires SingleMode(service) && items != []
    requires GeneratedEmbeddings(Contents(items), service).Ok?
    ensures |GeneratedEmbeddings(Contents(items), service).value| == |items|
    ensures DistinctIds(items) ==> Stored(coll, items, GeneratedEmbeddings(Contents(items), service)).1.None?
  {
    SingleModeSpec(Contents(items), service.single);
  }

  /**
   * A successful zip yields one item per id of the first query, in order,
   * carrying that id's document, metadata and distance (0.0 when the reply has
   * no distances); a reply without ids yields nothing.
   */
  lemma HitsSpec(res: QueryResult)
    ensures res.ids == [] ==> Hits(res) == Ok([])
    ensures Hits(res).Ok? && res.ids != [] ==>
              var items := Hits(res).value;
              |items| == |res.ids[0]|
              && forall i :: 0 <= i < |items| ==>
                   items[i].id == res.ids[0][i] && items[i].content == res.documents[0][i]
                   && items[i].metadata == res.metadatas[0][i]
                   && items[i].score == Some(if res.distances.Some? then res.distances.value[0][i] else 0.0)
    ensures res.ids != [] && Hits(res).Err? ==>
              res.documents == [] || res.metadatas == [] || |res.documents[0]| < |res.ids[0]| || |res.metadatas[0]| < |res.ids[0]|
              || (res.distances.Some? && (res.distances.value == [] || |res.distances.value[0]| < |res.ids[0]|))
  {
  }

  /** The text loop of `add_documents`. */
  method GatherTexts(chunks: seq<TextChunk>) returns (items: seq<EvidenceItem>)
    ensures items == TextItems(chunks)
  {
    items := [];
    for i := 0 to |chunks|
      invariant items == TextItems(chunks[..i])
    {
      assert chunks[..i + 1][..i] == chunks[..i];
      if |chunks[i].content| < MinChunkLength {
        continue;
      }
      items := items + [TextItem(chunks[i])];
    }
    assert chunks[..|chunks|] == chunks;
  }

  /** The figure loop of `add_documents`: skip a missing image, describe the others. */
  method GatherImages(figs: seq<FigureData>, imageExists: string -> bool, describe: (nat, string) -> VLOutput)
    returns (items: seq<EvidenceItem>)
    ensures items == ImageItems(figs, imageExists, describe)
  {
    items := [];
    for i := 0 to |figs|
      invariant items == ImageItems(figs[..i], imageExists, describe)
    {
      assert figs[..i + 1][..i] == figs[..i];
      var fig := figs[i];
      if !imageExists(fig.imagePath) {
        continue;
      }
      var vl := describe(i, fig.imagePath);
      items := items + [ImageItem(fig, vl)];
    }
    assert figs[..|figs|] == figs;
  }

  /** The zip loop of `search`. */
  method ZipHits(res: QueryResult) returns (r: Result<seq<EvidenceItem>, string>)
    ensures r == Hits(res)
  {
    if res.ids == [] {
      return Ok([]);
    }
    if res.documents == [] || res.metadatas == [] || (res.distances.Some? && res.distances.value == []) {
      return Err(IndexErrorMessage);
    }
    var ids := res.ids[0];
    var docs := res.documents[0];
    var metas := res.metadatas[0];
    var dists := if res.distances.Some? then res.distances.value[0] else seq(|ids|, _ => 0.0);
    var items: seq<EvidenceItem> := [];
    for i := 0 to |ids|
      invariant |items| == i
      invariant i <= |docs| && i <= |dists| && i <= |metas|
      invariant forall j :: 0 <= j < i ==> j < |docs| && j < |dists| && j < |metas| && items[j] == EvidenceItem(ids[j], docs[j], Some(dists[j]), metas[j])
    {
      if i >= |docs| || i >= |dists| || i >= |metas| {
        assert Hits(res) == Err(IndexErrorMessage);
        return Err(IndexErrorMessage);
      }
      items := items + [EvidenceItem(ids[i], docs[i], Some(dists[i]), metas[i])];
    }
    assert items == seq(|ids|, i requires 0 <= i < |ids| => EvidenceItem(ids[i], docs[i], Some(dists[i]), metas[i]));
    return Ok(items);
  }

  /** The Chroma-backed store: the embedding settings it was configured with and the persisted collection. */
  class VectorStore {
    const service: EmbeddingService
    var collection: map<string, Record>

    /** Opens (or creates) the collection, which may already hold records. */
    constructor(service: EmbeddingService, existing: map<string, Record>)
      ensures this.service == service && collection == existing
    {
      this.service := service;
      collection := existing;
    }

    /** `add_documents`: build the evidence, embed it and upsert it; `error` is the exception raised, if any. */
    method AddDocuments(chunks: seq<TextChunk>, figs: seq<FigureData>, imageExists: string -> bool, describe: (nat, string) -> VLOutput)
      returns (error: Option<string>)
      modifies this
      ensures var items := Evidence(chunks, figs, imageExists, describe);
              (collection, error) == Stored(old(collection), items, GeneratedEmbeddings(Contents(items), service))
    {
      var texts := GatherTexts(chunks);
      var images := GatherImages(figs, imageExists, describe);
      var items := texts + images;
      if items == [] {
        return None;
      }
      var embeddings := GenerateEmbeddings(Contents(items), service);
      if embeddings.Err? {
        return Some(embeddings.error);
      }
      if |embeddings.value| != |items| {
        return Some(MismatchMessage(|items|, |embeddings.value|));
      }
      if !DistinctIds(items) {
        return Some(DuplicateIdsMessage);
      }
      collection := Upsert(collection, items, embeddings.value);
      return None;
    }

    /** `search`; the collection is left as it is. */
    method Search(query: string, topK: int, nearest: Query) returns (r: Result<seq<EvidenceItem>, string>)
      ensures r == Searched(collection, query, topK, service, nearest)
    {
      var queryVecs := GenerateEmbeddings([query], service);
      if queryVecs.Err? {
        return Err(queryVecs.error);
      }
      var results := nearest(collection, queryVecs.value, topK);
      if results.Err? {
        return Err(results.error);
      }
      r := ZipHits(results.value);
    }
  }
}
