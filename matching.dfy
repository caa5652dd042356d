/**
 * Semantic matching of a transcription against the trigger index: cosine
 * similarity between embeddings, the first entry of greatest similarity, the
 * acceptance threshold, and the intent result handed back with a transcription.
 *
 * Arithmetic is on reals; the square root is the `sqrt` parameter, of which
 * only that it maps non-zero arguments to non-zero results is assumed.
 */
module Matching {
  import opened Js
  import opened OrderedMaps
  import opened EmbeddingIndex
  import Config

  type Sqrt = real -> real

  /**
   * The square root never maps a non-zero argument to zero (for `Math.sqrt`
   * this holds of negative arguments too, whose root is NaN), so the product
   * of the roots of two non-zero norms is a valid divisor.
   */
  ghost predicate NonZeroRoot(sqrt: Sqrt) {
    forall x: real :: x != 0.0 ==> sqrt(x) != 0.0
  }

  /** The dot product of the first `n` components. */
  function DotUpTo(a: Embedding, b: Embedding, n: nat): real
    requires n <= |a| && n <= |b|
  {
    if n == 0 then 0.0 else DotUpTo(a, b, n - 1) + a[n - 1] * b[n - 1]
  }

  lemma {:induction false} DotSymmetric(a: Embedding, b: Embedding, n: nat)
    requires n <= |a| && n <= |b|
    ensures DotUpTo(a, b, n) == DotUpTo(b, a, n)
  {
    if n > 0 {
      DotSymmetric(a, b, n - 1);
    }
  }

  lemma NonZeroProduct(x: real, y: real)
    requires x != 0.0 && y != 0.0
    ensures x * y != 0.0
  {
  }

  /** The squared norm of the zero vector is zero. */
  lemma {:induction false} NormOfZero(a: Embedding, n: nat)
    requires n <= |a|
    requires forall i :: 0 <= i < n ==> a[i] == 0.0
    ensures DotUpTo(a, a, n) == 0.0
  {
    if n > 0 {
      NormOfZero(a, n - 1);
    }
  }

  /**
   * `cosineSimilarity(a, b)`: zero for embeddings of different lengths or when
   * either has norm zero, otherwise the dot product over the product of norms.
   */
  function Cosine(a: Embedding, b: Embedding, sqrt: Sqrt): (c: real)
    requires NonZeroRoot(sqrt)
    ensures |a| != |b| ==> c == 0.0
    ensures |a| == |b| && (DotUpTo(a, a, |a|) == 0.0 || DotUpTo(b, b, |b|) == 0.0) ==> c == 0.0
    ensures |a| == |b| && DotUpTo(a, a, |a|) != 0.0 && DotUpTo(b, b, |b|) != 0.0 ==>
      c * (sqrt(DotUpTo(a, a, |a|)) * sqrt(DotUpTo(b, b, |b|))) == DotUpTo(a, b, |a|)
  {
    if |a| != |b| then 0.0
    else
      var na := DotUpTo(a, a, |a|);
      var nb := DotUpTo(b, b, |b|);
      if na == 0.0 || nb == 0.0 then 0.0
      else
        NonZeroProduct(sqrt(na), sqrt(nb));
        DotUpTo(a, b, |a|) / (sqrt(na) * sqrt(nb))
  }

  lemma CosineSymmetric(a: Embedding, b: Embedding, sqrt: Sqrt)
    requires NonZeroRoot(sqrt)
    ensures Cosine(a, b, sqrt) == Cosine(b, a, sqrt)
  {
    if |a| == |b| {
      DotSymmetric(a, b, |a|);
    }
  }

  /** A zero embedding, or one of another length, is similar to nothing. */
  lemma CosineDegenerate(a: Embedding, b: Embedding, sqrt: Sqrt)
    requires NonZeroRoot(sqrt)
    ensures |a| != |b| ==> Cosine(a, b, sqrt) == 0.0
    ensures (forall i :: 0 <= i < |a| ==> a[i] == 0.0) ==> Cosine(a, b, sqrt) == 0.0
  {
    if forall i :: 0 <= i < |a| ==> a[i] == 0.0 {
      NormOfZero(a, |a|);
    }
  }

  /** With a square root that squares back, an embedding of non-zero norm has similarity one with itself. */
  lemma CosineSelf(a: Embedding, sqrt: Sqrt)
    requires NonZeroRoot(sqrt)
    requires DotUpTo(a, a, |a|) != 0.0
    requires sqrt(DotUpTo(a, a, |a|)) * sqrt(DotUpTo(a, a, |a|)) == DotUpTo(a, a, |a|)
    ensures Cosine(a, a, sqrt) == 1.0
  {
    var n := DotUpTo(a, a, |a|);
    assert Cosine(a, a, sqrt) == n / (sqrt(n) * sqrt(n)) == n / n;
    assert n / n == 1.0;
  }

  /** The loop of `cosineSimilarity`, accumulating the dot product and both squared norms in one pass. */
  method CosineSimilarity(a: Embedding, b: Embedding, sqrt: Sqrt) returns (similarity: real)
    requires NonZeroRoot(sqrt)
    ensures similarity == Cosine(a, b, sqrt)
  {
    if |a| != |b| {
      return 0.0;
    }
    var dotProduct, normA, normB := 0.0, 0.0, 0.0;
    var i := 0;
    while i < |a|
      invariant 0 <= i <= |a|
      invariant dotProduct == DotUpTo(a, b, i)
      invariant normA == DotUpTo(a, a, i) && normB == DotUpTo(b, b, i)
    {
      dotProduct := dotProduct + a[i] * b[i];
      normA := normA + a[i] * a[i];
      normB := normB + b[i] * b[i];
      i := i + 1;
    }
    if normA == 0.0 || normB == 0.0 {
      return 0.0;
    }
    NonZeroProduct(sqrt(normA), sqrt(normB));
    similarity := dotProduct / (sqrt(normA) * sqrt(normB));
  }

  /**
   * The position the scan of `findEmbeddingMatch` settles on: an entry replaces
   * the best so far only when it is strictly more similar, so this is the first
   * position of greatest similarity.
   */
  function FirstMax(sims: seq<real>): (r: Option<nat>)
    ensures r.None? <==> sims == []
    ensures r.Some? ==> r.value < |sims|
    ensures r.Some? ==> forall k :: 0 <= k < |sims| ==> sims[k] <= sims[r.value]
    ensures r.Some? ==> forall k :: 0 <= k < r.value ==> sims[k] < sims[r.value]
  {
    if sims == [] then None
    else
      var init := sims[..|sims| - 1];
      var b := FirstMax(init);
      assert forall k :: 0 <= k < |init| ==> init[k] == sims[k];
      if b.None? || sims[|sims| - 1] > sims[b.value] then Some(|sims| - 1) else b
  }

  /** The similarity of the query embedding to each entry of the index, in index order. */
  function Similarities(index: Index, query: Embedding, sqrt: Sqrt): (sims: seq<real>)
    requires NonZeroRoot(sqrt)
    ensures |sims| == |index|
    ensures forall k :: 0 <= k < |index| ==> sims[k] == Cosine(query, index[k].1.embedding, sqrt)
  {
    seq(|index|, k requires 0 <= k < |index| => Cosine(query, index[k].1.embedding, sqrt))
  }

  /** `IntentResult`: the matched shortcut and trigger, if any, and the similarity that selected them. */
  datatype IntentResult = IntentResult(shortcutId: Option<string>, confidence: real, matchedTrigger: Option<string>)

  /** `{ shortcutId: null, confidence: 0 }` */
  const NoMatch: IntentResult := IntentResult(None, 0.0, None)

  /**
   * The match reported for the given similarities: the first most similar
   * entry, provided its similarity reaches the threshold (inclusive).
   */
  function MatchOf(index: Index, sims: seq<real>): (r: Option<IntentResult>)
    requires |sims| == |index|
    ensures r.None? <==> forall k :: 0 <= k < |sims| ==> sims[k] < Config.MinEmbeddingSimilarity
    ensures r.Some? ==> r.value.confidence >= Config.MinEmbeddingSimilarity
    ensures r.Some? ==> forall k :: 0 <= k < |sims| ==> sims[k] <= r.value.confidence
    ensures r.Some? ==> exists k :: (
      && 0 <= k < |index| && sims[k] == r.value.confidence
      && r.value.shortcutId == Some(index[k].1.shortcutId) && r.value.matchedTrigger == Some(index[k].1.trigger)
      && forall j :: 0 <= j < k ==> sims[j] < sims[k])
  {
    var best := FirstMax(sims);
    if best.Some? && sims[best.value] >= Config.MinEmbeddingSimilarity then
      var e := index[best.value].1;
      Some(IntentResult(Some(e.shortcutId), sims[best.value], Some(e.trigger)))
    else None
  }

  /** The best candidate seen so far by the scan. */
  datatype Candidate = Candidate(shortcutId: string, trigger: string, similarity: real)

  function CandidateAt(index: Index, sims: seq<real>, best: Option<nat>): Option<Candidate>
    requires |sims| == |index|
    requires best.Some? ==> best.value < |index|
  {
    if best.None? then None
    else Some(Candidate(index[best.value].1.shortcutId, index[best.value].1.trigger, sims[best.value]))
  }

  /**
   * The scan and threshold test of `findEmbeddingMatch`, once the query has
   * been embedded: visits the entries in insertion order and keeps the first
   * most similar one.
   */
  method BestMatch(index: Index, query: Embedding, sqrt: Sqrt) returns (r: Option<IntentResult>)
    requires NonZeroRoot(sqrt)
    ensures r == MatchOf(index, Similarities(index, query, sqrt))
  {
    ghost var sims := Similarities(index, query, sqrt);
    var bestMatch: Option<Candidate> := None;
    var i := 0;
    while i < |index|
      invariant 0 <= i <= |index|
      invariant bestMatch == CandidateAt(index, sims, FirstMax(sims[..i]))
    {
      var entry := index[i].1;
      var similarity := CosineSimilarity(query, entry.embedding, sqrt);
      assert sims[..i + 1][..i] == sims[..i];
      if bestMatch.None? || similarity > bestMatch.value.similarity {
        bestMatch := Some(Candidate(entry.shortcutId, entry.trigger, similarity));
      }
      i := i + 1;
    }
    assert sims[..i] == sims;
    if bestMatch.Some? && bestMatch.value.similarity >= Config.MinEmbeddingSimilarity {
      r := Some(IntentResult(Some(bestMatch.value.shortcutId), bestMatch.value.similarity, Some(bestMatch.value.trigger)));
    } else {
      r := None;
    }
  }

  /**
   * `processIntent(text)`: no match for blank text, when the embedding model or
   * the index is missing, or when embedding the text fails; otherwise the match
   * of the trimmed text's embedding, or no match.
   */
  function Intent(text: string, embed: Option<Embedder>, index: Option<Index>, sqrt: Sqrt): (r: IntentResult)
    requires NonZeroRoot(sqrt)
    ensures Trim(text) == [] || embed.None? || index.None? ==> r == NoMatch
    ensures r.shortcutId.Some? ==> r.confidence >= Config.MinEmbeddingSimilarity && r.matchedTrigger.Some?
  {
    IntentOfTrimmed(Trim(text), embed, index, sqrt)
  }

  /** The intent of text that has already been trimmed. */
  function IntentOfTrimmed(trimmed: string, embed: Option<Embedder>, index: Option<Index>, sqrt: Sqrt): (r: IntentResult)
    requires NonZeroRoot(sqrt)
    ensures trimmed == [] || embed.None? || index.None? || embed.value(trimmed).Failure? ==> r == NoMatch
    ensures r.shortcutId.None? ==> r == NoMatch
    ensures r.shortcutId.Some? ==> r.confidence >= Config.MinEmbeddingSimilarity && r.matchedTrigger.Some?
  {
    if trimmed == [] || embed.None? || index.None? then NoMatch
    else
      match embed.value(trimmed)
      case Failure(_) => NoMatch
      case Success(query) =>
        var m := MatchOf(index.value, Similarities(index.value, query, sqrt));
        if m.Some? then m.value else NoMatch
  }

  /**
   * An intent names a shortcut only with a similarity at or above the threshold,
   * and then names the id and trigger of an entry of the index whose similarity
   * no other entry exceeds; every other outcome is exactly the empty result.
   */
  lemma IntentSound(text: string, embed: Option<Embedder>, index: Option<Index>, sqrt: Sqrt)
    requires NonZeroRoot(sqrt)
    ensures var r := Intent(text, embed, index, sqrt);
      r.shortcutId.None? ==> r == NoMatch
    ensures var r := Intent(text, embed, index, sqrt);
      r.shortcutId.Some? ==>
        && Trim(text) != [] && embed.Some? && index.Some? && embed.value(Trim(text)).Success?
        && r.confidence >= Config.MinEmbeddingSimilarity
        && exists k :: (
             && 0 <= k < |index.value| && r.shortcutId == Some(index.value[k].1.shortcutId)
             && r.matchedTrigger == Some(index.value[k].1.trigger)
             && r.confidence == Cosine(embed.value(Trim(text)).value, index.value[k].1.embedding, sqrt))
    ensures var r := Intent(text, embed, index, sqrt);
      r.shortcutId.Some? ==>
        forall j :: 0 <= j < |index.value| ==> Cosine(embed.value(Trim(text)).value, index.value[j].1.embedding, sqrt) <= r.confidence
  {
    var r := Intent(text, embed, index, sqrt);
    if r.shortcutId.Some? {
      var sims := Similarities(index.value, embed.value(Trim(text)).value, sqrt);
      assert forall j :: 0 <= j < |index.value| ==> sims[j] <= r.confidence;
    }
  }

  /** Trimming inside `processIntent` makes surrounding whitespace irrelevant. */
  lemma IntentIgnoresSurroundingSpace(text: string, embed: Option<Embedder>, index: Option<Index>, sqrt: Sqrt)
    requires NonZeroRoot(sqrt)
    ensures Intent(Trim(text), embed, index, sqrt) == Intent(text, embed, index, sqrt)
  {
    TrimIdempotent(text);
  }

  /** `processIntent` together with `findEmbeddingMatch`, which catches an embedding failure and reports no match. */
  method ProcessIntent(text: string, embed: Option<Embedder>, index: Option<Index>, sqrt: Sqrt) returns (r: IntentResult)
    requires NonZeroRoot(sqrt)
    ensures r == Intent(text, embed, index, sqrt)
  {
    var trimmed := Trim(text);
    if trimmed == [] {
      return NoMatch;
    }
    if embed.Some? && index.Some? {
      var textEmbedding := embed.value(trimmed);
      if textEmbedding.Success? {
        var embeddingMatch := BestMatch(index.value, textEmbedding.value, sqrt);
        if embeddingMatch.Some? {
          return embeddingMatch.value;
        }
      }
    }
    r := NoMatch;
  }
}
