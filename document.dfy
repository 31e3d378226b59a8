// Documents, the candidate pool the environment recommends from, and the
// seeded sampler that fills it.
module Document {
  import opened Basics
  import opened Decimal
  import opened Spaces

  /**
   * The payload of each concrete document class: interest-evolution videos,
   * interest-exploration topic documents, long-term-satisfaction clickbait
   * documents and the test environment's action documents.
   */
  datatype DocBody =
    | Video(features: seq<real>, clusterId: Option<int>, videoLength: real, quality: real)
    | TopicDoc(topic: int, topicQuality: real)
    | ClickbaitDoc(clickbaitScore: real)
    | ActionDoc(actionId: int)

  /** A document: its unique id and its properties. */
  datatype Document = Document(docId: int, body: DocBody)

  /** `document.create_observation()` of each document class. */
  function Observation(d: Document): Value
  {
    match d.body
    case Video(features, _, _, _) => VArray(features)
    case TopicDoc(topic, quality) => VDict([("quality", VReal(quality)), ("cluster_id", VInt(topic))])
    case ClickbaitDoc(score) => VArray([score])
    case ActionDoc(action) => VInt(action)
  }

  /** `[doc.create_observation() for doc in documents]`. */
  function DocObservations(documents: seq<Document>): (obs: seq<Value>)
    ensures |obs| == |documents| && forall i :: 0 <= i < |documents| ==> obs[i] == Observation(documents[i])
  {
    seq(|documents|, i requires 0 <= i < |documents| => Observation(documents[i]))
  }

  /** A requested document id: an integer or a string-encoded integer. */
  datatype DocKey = IntKey(id: int) | StrKey(text: string)

  /** Python's `int(k)` on a requested id. */
  function KeyToId(k: DocKey): (r: Result<int>)
    ensures k.IntKey? ==> r == Ok(k.id)
    ensures k.StrKey? ==> r == ParseInt(k.text)
  {
    match k
    case IntKey(id) => Ok(id)
    case StrKey(text) => ParseInt(text)
  }

  /** Integer ids as keys. */
  function AsKeys(ids: seq<int>): (r: seq<DocKey>)
    ensures |r| == |ids| && forall i :: 0 <= i < |ids| ==> r[i] == IntKey(ids[i])
  {
    seq(|ids|, i requires 0 <= i < |ids| => IntKey(ids[i]))
  }

  /** `s` without `x`, order kept. */
  function Without(s: seq<int>, x: int): (r: seq<int>)
    ensures forall y :: y in r <==> y in s && y != x
    ensures Distinct(s) ==> Distinct(r) && |r| == |s| - (if x in s then 1 else 0)
  {
    if s == [] then []
    else
      var rest := Without(s[1..], x);
      assert forall y :: y in s <==> y == s[0] || y in s[1..];
      if s[0] == x then rest
      else
        assert Distinct(s) ==> s[0] !in s[1..];
        [s[0]] + rest
  }

  /** A distinct sequence has as many elements as the set of its elements. */
  lemma {:induction false} DistinctCardinality(s: seq<int>)
    requires Distinct(s)
    ensures |set x | x in s| == |s|
  {
    if s != [] {
      var rest := s[1..];
      DistinctCardinality(rest);
      assert s[0] !in rest;
      assert (set x | x in s) == {s[0]} + (set x | x in rest);
    }
  }

  /**
   * The candidate set: a dict from document id to document. Python dicts keep
   * insertion order, and the environment relies on it, so the model keeps the
   * key order beside the map.
   */
  class CandidateSet {
    var documents: map<int, Document>
    var order: seq<int>

    ghost predicate Valid()
      reads this
    {
      && Distinct(order)
      && (forall k :: k in documents <==> k in order)
      && (forall i :: 0 <= i < |order| ==> order[i] in documents)
      && (forall k :: k in documents ==> documents[k].docId == k)
    }

    /** A new candidate set holds no documents. */
    constructor ()
      ensures Valid() && documents == map[] && order == []
      ensures Size() == 0
    {
      documents := map[];
      order := [];
    }

    /** `size()`: the number of stored documents, which is the number of keys. */
    function Size(): (n: nat)
      requires Valid()
      reads this
      ensures n == |documents| && n == |order|
    {
      DistinctCardinality(order);
      var ks := set x | x in order;
      assert documents.Keys == ks by {
        forall x ensures x in documents.Keys <==> x in ks {
        }
      }
      |documents|
    }

    /** A requested key that parses to the id of a stored document. */
    ghost predicate Resolves(k: DocKey)
      reads this
    {
      KeyToId(k).Ok? && KeyToId(k).value in documents
    }

    /**
     * Position `j` is the first requested key that does not resolve, and
     * `e` is what it raises: its parse error, or KeyError for an absent id.
     */
    ghost predicate FirstFailure(ids: seq<DocKey>, j: nat, e: Error)
      reads this
    {
      && j < |ids|
      && (forall i :: 0 <= i < j ==> Resolves(ids[i]))
      && !Resolves(ids[j])
      && e == (if KeyToId(ids[j]).Err? then KeyToId(ids[j]).error else KeyError)
    }

    /**
     * `get_documents(ids)`: the document of every id, in request order. The
     * first id that is not an integer string raises ValueError, the first
     * absent one KeyError.
     */
    function GetDocuments(ids: seq<DocKey>): (r: Result<seq<Document>>)
      reads this
      ensures r.Ok? <==> forall i :: 0 <= i < |ids| ==> Resolves(ids[i])
      ensures r.Ok? ==> (|r.value| == |ids|
        && forall i :: 0 <= i < |ids| ==> r.value[i] == documents[KeyToId(ids[i]).value])
      ensures r.Err? ==> exists j: nat :: FirstFailure(ids, j, r.error)
    {
      if ids == [] then Ok([])
      else
        var k := KeyToId(ids[0]);
        if k.Err? then
          assert FirstFailure(ids, 0, k.error);
          Err(k.error)
        else if k.value !in documents then
          assert FirstFailure(ids, 0, KeyError);
          Err(KeyError)
        else
          var rest := GetDocuments(ids[1..]);
          if rest.Err? then
            FirstFailureShifts(ids, rest.error);
            rest
          else
            Ok([documents[k.value]] + rest.value)
    }

    /** A first failure among all keys but the first, when the first resolves, is the first failure among all. */
    lemma {:induction false} FirstFailureShifts(ids: seq<DocKey>, e: Error)
      requires ids != [] && Resolves(ids[0])
      requires exists j: nat :: FirstFailure(ids[1..], j, e)
      ensures exists j: nat :: FirstFailure(ids, j, e)
    {
      var j: nat :| FirstFailure(ids[1..], j, e);
      assert forall i :: 0 <= i < j ==> ids[1..][i] == ids[i + 1];
      assert FirstFailure(ids, j + 1, e);
    }

    /** `get_all_documents()`: every stored document, in key order. */
    function GetAllDocuments(): (r: seq<Document>)
      requires Valid()
      reads this
      ensures |r| == |order| && forall i :: 0 <= i < |order| ==> r[i] == documents[order[i]] && r[i].docId == order[i]
    {
      GetDocuments(AsKeys(order)).value
    }

    /** `add_document(d)`: stores `d` under its id, replacing a document with the same id in place. */
    method AddDocument(d: Document)
      requires Valid()
      modifies this
      ensures Valid()
      ensures documents == old(documents)[d.docId := d]
      ensures order == if d.docId in old(documents) then old(order) else old(order) + [d.docId]
      ensures Size() == old(Size()) + (if d.docId in old(documents) then 0 else 1)
      ensures GetDocuments([IntKey(d.docId)]) == Ok([d])
    {
      if d.docId !in documents {
        order := order + [d.docId];
      }
      documents := documents[d.docId := d];
      var got := GetDocuments([IntKey(d.docId)]);
      assert got.Ok? && got.value == [d];
    }

    /** `remove_document(d)`: deletes the entry with `d`'s id; an absent id raises KeyError. */
    method RemoveDocument(d: Document) returns (r: Result<()>)
      requires Valid()
      modifies this
      ensures Valid()
      ensures r.Ok? <==> d.docId in old(documents)
      ensures r.Err? ==> r.error == KeyError && documents == old(documents) && order == old(order)
      ensures r.Ok? ==> documents == old(documents) - {d.docId} && order == Without(old(order), d.docId)
      ensures r.Ok? ==> Size() == old(Size()) - 1
    {
      if d.docId !in documents {
        return Err(KeyError);
      }
      documents := documents - {d.docId};
      order := Without(order, d.docId);
      return Ok(());
    }

    /**
     * `create_observation()`: one entry per stored document, keyed by the
     * decimal string of its id, in key order. The keys are distinct and each
     * parses back to its id, so `get_documents` accepts them.
     */
    function CreateObservation(): (r: seq<(string, Value)>)
      requires Valid()
      reads this
      ensures |r| == |order|
      ensures forall i :: 0 <= i < |r| ==> ParseInt(r[i].0) == Ok(order[i]) && r[i].1 == Observation(documents[order[i]])
      ensures Distinct(Keys(r))
    {
      var o := order;
      var docs := documents;
      var r := seq(|o|, i requires 0 <= i < |o| && o[i] in docs => (IntToString(o[i]), Observation(docs[o[i]])));
      forall i | 0 <= i < |r| ensures ParseInt(r[i].0) == Ok(order[i]) {
        ParseIntToString(order[i]);
      }
      forall i, j | 0 <= i < j < |r| ensures Keys(r)[i] != Keys(r)[j] {
        assert ParseInt(r[i].0) != ParseInt(r[j].0);
      }
      r
    }
  }

  /** Every key of the pool's observation reads back its document through `get_documents`. */
  lemma {:induction false} ObservationKeysReadBack(pool: CandidateSet, i: nat)
    requires pool.Valid() && i < |pool.order|
    ensures var key := pool.CreateObservation()[i].0;
      pool.GetDocuments([StrKey(key)]) == Ok([pool.documents[pool.order[i]]])
  {
    var key := pool.CreateObservation()[i].0;
    assert KeyToId(StrKey(key)) == Ok(pool.order[i]);
    var r := pool.GetDocuments([StrKey(key)]);
    assert r.Ok? && |r.value| == 1 && r.value[0] == pool.documents[pool.order[i]];
    assert r.value == [pool.documents[pool.order[i]]];
  }

  /**
   * How a concrete sampler draws its next document: from the generator state
   * and the sampler's document counter to the document, the advanced
   * generator and the new counter.
   */
  type SampleRule = (RandomState, int, Stream) -> (Document, RandomState, int)

  /**
   * A document sampler: the seed it was built with, its generator, and the
   * counter the concrete samplers number documents with.
   */
  class DocumentSampler {
    const seed: int
    const rule: SampleRule
    /** The `num_clusters` property: 0 unless the concrete sampler overrides it. */
    const numClusters: nat
    var rng: RandomState
    var docCount: int

    /** The base constructor: store the seed and build the generator from it. */
    constructor (seed: int, rule: SampleRule, docCount: int)
      ensures this.seed == seed && this.rule == rule && this.docCount == docCount
      ensures rng == Seeded(seed) && numClusters == 0
    {
      this.seed := seed;
      this.rule := rule;
      this.numClusters := 0;
      this.docCount := docCount;
      rng := Seeded(seed);
    }

    /** A sampler whose class overrides `num_clusters`. */
    constructor WithClusters(seed: int, rule: SampleRule, docCount: int, numClusters: nat)
      ensures this.seed == seed && this.rule == rule && this.docCount == docCount
      ensures rng == Seeded(seed) && this.numClusters == numClusters
    {
      this.seed := seed;
      this.rule := rule;
      this.numClusters := numClusters;
      this.docCount := docCount;
      rng := Seeded(seed);
    }

    /** `reset_sampler()`: rebuild the generator from the stored seed; the counter is kept. */
    method ResetSampler()
      modifies this
      ensures rng == Seeded(seed) && docCount == old(docCount)
    {
      rng := Seeded(seed);
    }

    /** `sample_document()`: the concrete rule applied to the current generator and counter. */
    method SampleDocument(stream: Stream) returns (d: Document)
      modifies this
      ensures (d, rng, docCount) == rule(old(rng), old(docCount), stream)
    {
      var next := rule(rng, docCount, stream);
      d := next.0;
      rng := next.1;
      docCount := next.2;
    }
  }

  /**
   * `n` successive `sample_document()` calls from generator `rng` and counter
   * `count`: the documents in draw order, the final generator and counter.
   */
  function SampleMany(rule: SampleRule, rng: RandomState, count: int, stream: Stream, n: nat): (r: (seq<Document>, RandomState, int))
    ensures |r.0| == n
  {
    if n == 0 then ([], rng, count)
    else
      var first := SampleMany(rule, rng, count, stream, n - 1);
      var next := rule(first.1, first.2, stream);
      (first.0 + [next.0], next.1, next.2)
  }

  /** A sampler that numbers documents with its counter: id `c`, then counter `c + 1`. */
  ghost predicate NumbersByCounter(rule: SampleRule)
  {
    forall rng, c, stream :: rule(rng, c, stream).0.docId == c && rule(rng, c, stream).2 == c + 1
  }

  /** Such a sampler's `n` draws carry the ids c, c+1, ..., c+n-1 and leave the counter at c+n. */
  lemma {:induction false} CounterIds(rule: SampleRule, rng: RandomState, count: int, stream: Stream, n: nat)
    requires NumbersByCounter(rule)
    ensures var r := SampleMany(rule, rng, count, stream, n);
      r.2 == count + n && forall i :: 0 <= i < n ==> r.0[i].docId == count + i
  {
    if n > 0 {
      CounterIds(rule, rng, count, stream, n - 1);
      var first := SampleMany(rule, rng, count, stream, n - 1);
      assert rule(first.1, first.2, stream).0.docId == first.2;
    }
  }

  /** The ids of a list of documents. */
  function Ids(docs: seq<Document>): (ids: seq<int>)
    ensures |ids| == |docs| && forall i :: 0 <= i < |docs| ==> ids[i] == docs[i].docId
  {
    seq(|docs|, i requires 0 <= i < |docs| => docs[i].docId)
  }

  /** The map and key order left by adding `docs` one by one to an empty candidate set. */
  function PoolOf(docs: seq<Document>): (p: (map<int, Document>, seq<int>))
    ensures forall k :: k in p.0 <==> k in p.1
    ensures forall k :: k in p.0 ==> p.0[k].docId == k
    ensures Distinct(p.1)
  {
    if docs == [] then (map[], [])
    else
      var p := PoolOf(docs[..|docs| - 1]);
      var d := docs[|docs| - 1];
      (p.0[d.docId := d], if d.docId in p.0 then p.1 else p.1 + [d.docId])
  }

  /** Adding one more document to the pool of `docs` gives the pool of `docs + [d]`. */
  lemma {:induction false} PoolOfStep(docs: seq<Document>, d: Document)
    ensures var p := PoolOf(docs);
      PoolOf(docs + [d]) == (p.0[d.docId := d], if d.docId in p.0 then p.1 else p.1 + [d.docId])
  {
    assert (docs + [d])[..|docs|] == docs;
  }

  /** With distinct ids nothing is overwritten: the key order is the draw order and every document is kept. */
  lemma {:induction false} PoolOfDistinct(docs: seq<Document>)
    requires Distinct(Ids(docs))
    ensures PoolOf(docs).1 == Ids(docs)
    ensures forall i :: 0 <= i < |docs| ==> PoolOf(docs).0[docs[i].docId] == docs[i]
  {
    if docs != [] {
      var front := docs[..|docs| - 1];
      assert Ids(front) == Ids(docs)[..|docs| - 1];
      PoolOfDistinct(front);
      var d := docs[|docs| - 1];
      assert d.docId !in Ids(front);
      assert Ids(docs) == Ids(front) + [d.docId];
      forall i | 0 <= i < |docs| ensures PoolOf(docs).0[docs[i].docId] == docs[i] {
        if i < |docs| - 1 {
          assert front[i] == docs[i];
          assert docs[i].docId != d.docId;
        }
      }
    }
  }

  /**
   * Refilling the pool from a counter-numbered sampler yields exactly `n`
   * documents, with the ids count, ..., count+n-1 in that key order, all at
   * least the old counter and hence new.
   */
  lemma {:induction false} FreshPool(rule: SampleRule, rng: RandomState, count: int, stream: Stream, n: nat)
    requires NumbersByCounter(rule)
    ensures var docs := SampleMany(rule, rng, count, stream, n).0;
      |PoolOf(docs).1| == n && forall i :: 0 <= i < n ==> PoolOf(docs).1[i] == count + i
  {
    CounterIds(rule, rng, count, stream, n);
    var docs := SampleMany(rule, rng, count, stream, n).0;
    assert Distinct(Ids(docs));
    PoolOfDistinct(docs);
  }

  /**
   * `reset_sampler()` makes sampling reproducible: two samplers with the
   * same seed, rule and counter, whatever their generators had drawn before,
   * draw the same document after a reset and are left in the same state.
   */
  method ResetSamplersAgree(a: DocumentSampler, b: DocumentSampler, stream: Stream) returns (da: Document, db: Document)
    requires a != b && a.seed == b.seed && a.rule == b.rule && a.docCount == b.docCount
    modifies a, b
    ensures da == db && a.rng == b.rng && a.docCount == b.docCount
    ensures (da, a.rng, a.docCount) == a.rule(Seeded(a.seed), old(a.docCount), stream)
  {
    a.ResetSampler();
    b.ResetSampler();
    da := a.SampleDocument(stream);
    db := b.SampleDocument(stream);
  }
}
