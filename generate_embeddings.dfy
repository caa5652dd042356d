/**
 * The build-time generator of the trigger-embedding snapshot: it embeds every
 * voice trigger of the catalogue, shortcut by shortcut and trigger by trigger,
 * stores each under its `${shortcutId}:${trigger}` key, reports progress every
 * ten triggers and produces the snapshot object that is written to disk.
 *
 * The embedding model is the `embed` parameter; the timestamp is the
 * `generatedAt` parameter; writing the file is left out.
 */
module GenerateEmbeddings {
  import opened Js
  import opened Catalogue
  import opened OrderedMaps
  import opened EmbeddingIndex

  /** The model the snapshot is computed with. */
  const EmbeddingModel: string := "Xenova/all-MiniLM-L6-v2"

  /** The snapshot object: its model, its creation time, the number of embedded triggers and the entries by key. */
  datatype Snapshot = Snapshot(model: string, generatedAt: string, count: nat, embeddings: Index)

  /** The counts reported by the progress lines after `n` triggers: every positive multiple of ten up to `n`, in order. */
  function ProgressMarks(n: nat): (marks: seq<nat>)
    ensures |marks| == n / 10
  {
    seq(n / 10, k requires 0 <= k < n / 10 => 10 * (k + 1))
  }

  /** Reaching count `n` prints a progress line exactly when `n` is a multiple of ten. */
  lemma ProgressMarksStep(n: nat)
    requires n > 0
    ensures ProgressMarks(n) == ProgressMarks(n - 1) + (if n % 10 == 0 then [n] else [])
  {
    if n % 10 == 0 {
      assert n / 10 == (n - 1) / 10 + 1 && 10 * ((n - 1) / 10 + 1) == n;
    } else {
      assert n / 10 == (n - 1) / 10;
    }
  }

  /** A count is reported exactly when it is a positive multiple of ten reached so far. */
  lemma ProgressMarksMembers(n: nat, x: nat)
    ensures x in ProgressMarks(n) <==> 0 < x <= n && x % 10 == 0
  {
    var marks := ProgressMarks(n);
    if 0 < x <= n && x % 10 == 0 {
      var k := x / 10 - 1;
      assert x == 10 * (k + 1);
      assert k < n / 10;
      assert marks[k] == x;
    }
    if x in marks {
      var k :| 0 <= k < |marks| && marks[k] == x;
      assert 10 * (k + 1) <= 10 * (n / 10) <= n;
    }
  }

  /** After `n` triggers there have been `n / 10` progress lines, in increasing order. */
  lemma ProgressMarksShape(n: nat)
    ensures |ProgressMarks(n)| == n / 10
    ensures forall i, j :: 0 <= i < j < |ProgressMarks(n)| ==> ProgressMarks(n)[i] < ProgressMarks(n)[j]
    ensures forall i :: 0 <= i < |ProgressMarks(n)| ==> ProgressMarks(n)[i] <= n
  {
    forall i | 0 <= i < |ProgressMarks(n)|
      ensures ProgressMarks(n)[i] <= n
    {
      assert ProgressMarks(n)[i] == 10 * (i + 1) <= 10 * (n / 10) <= n;
    }
  }

  /**
   * The state of the nested loop once the pairs before trigger `j` of
   * shortcut `i` are visited: the index built from them and their number.
   */
  predicate Reached(shortcuts: seq<Shortcut>, i: nat, j: nat, embed: Embedder, embeddings: Index, count: nat)
    requires i < |shortcuts| && j <= |shortcuts[i].voiceTriggers|
  {
    && Build(Visited(shortcuts, i, j), embed) == Success(embeddings)
    && count == |Visited(shortcuts, i, j)|
  }

  /**
   * One trigger of the inner loop: embedding it either aborts the run with the
   * model's failure, or adds its entry to the index and counts it.
   */
  lemma NextTrigger(shortcuts: seq<Shortcut>, i: nat, j: nat, embed: Embedder, embeddings: Index, count: nat)
    requires i < |shortcuts| && j < |shortcuts[i].voiceTriggers|
    requires Reached(shortcuts, i, j, embed, embeddings, count)
    ensures var trigger := shortcuts[i].voiceTriggers[j];
      embed(trigger).Failure? ==> Build(Pairs(shortcuts), embed) == Failure(embed(trigger).error)
    ensures var trigger := shortcuts[i].voiceTriggers[j];
      embed(trigger).Success? ==>
        Reached(shortcuts, i, j + 1, embed,
                Set(embeddings, Key(shortcuts[i].id, trigger), EntryFor(TriggerPair(shortcuts[i].id, trigger), embed(trigger).value)),
                count + 1)
  {
    BuildVisitsNext(shortcuts, i, j, embed, embeddings);
  }

  /** The loop state before the first trigger of shortcut `i` and after its last. */
  lemma ReachedBounds(shortcuts: seq<Shortcut>, i: nat)
    requires i < |shortcuts|
    ensures Visited(shortcuts, i, 0) == Pairs(shortcuts[..i])
    ensures Visited(shortcuts, i, |shortcuts[i].voiceTriggers|) == Pairs(shortcuts[..i + 1])
  {
    assert TriggersOf(shortcuts[i])[..0] == [];
    VisitedShortcut(shortcuts, i);
  }

  /**
   * The inner loop of `generateEmbeddings()` over the triggers of shortcut
   * `i`, entered with the index, count and progress lines of the shortcuts
   * before it: either all its triggers are added, or the first one the model
   * fails on aborts the whole run with that failure.
   */
  method EmbedShortcut(shortcuts: seq<Shortcut>, i: nat, embed: Embedder, before: Index, counted: nat, reported: seq<nat>)
    returns (failure: Option<Thrown>, embeddings: Index, count: nat, progress: seq<nat>)
    requires i < |shortcuts| && Reached(shortcuts, i, 0, embed, before, counted) && reported == ProgressMarks(counted)
    ensures failure.Some? ==> Build(Pairs(shortcuts), embed) == Failure(failure.value)
    ensures failure.None? ==> Reached(shortcuts, i, |shortcuts[i].voiceTriggers|, embed, embeddings, count)
    ensures failure.None? ==> progress == ProgressMarks(count)
  {
    var shortcut := shortcuts[i];
    embeddings, count, progress := before, counted, reported;
    var j := 0;
    while j < |shortcut.voiceTriggers|
      invariant 0 <= j <= |shortcut.voiceTriggers|
      invariant Reached(shortcuts, i, j, embed, embeddings, count)
      invariant progress == ProgressMarks(count)
    {
      var trigger := shortcut.voiceTriggers[j];
      var result := embed(trigger);
      NextTrigger(shortcuts, i, j, embed, embeddings, count);
      if result.Failure? {
        return Some(result.error), embeddings, count, progress;
      }
      embeddings := Set(embeddings, Key(shortcut.id, trigger), EntryFor(TriggerPair(shortcut.id, trigger), result.value));
      count := count + 1;
      ProgressMarksStep(count);
      if count % 10 == 0 {
        progress := progress + [count];
      }
      j := j + 1;
    }
    failure := None;
  }

  /**
   * `generateEmbeddings()`: on success the snapshot holds the index built from
   * every (shortcut, trigger) pair of the catalogue and counts all of them; the
   * first trigger the model fails on aborts the run with that failure. The
   * progress lines of a successful run report every tenth trigger.
   */
  method GenerateEmbeddings(shortcuts: seq<Shortcut>, embed: Embedder, generatedAt: string)
    returns (output: Result<Snapshot, Thrown>, progress: seq<nat>)
    ensures output.Success? <==> Build(Pairs(shortcuts), embed).Success?
    ensures output.Success? ==>
      output.value == Snapshot(EmbeddingModel, generatedAt, |Pairs(shortcuts)|, Build(Pairs(shortcuts), embed).value)
    ensures output.Failure? ==> output.error == Build(Pairs(shortcuts), embed).error
    ensures output.Success? ==> progress == ProgressMarks(|Pairs(shortcuts)|)
  {
    var embeddings: Index := [];
    var count: nat := 0;
    progress := [];
    var i := 0;
    assert shortcuts[..0] == [];
    while i < |shortcuts|
      invariant 0 <= i <= |shortcuts|
      invariant Build(Pairs(shortcuts[..i]), embed) == Success(embeddings)
      invariant count == |Pairs(shortcuts[..i])|
      invariant progress == ProgressMarks(count)
    {
      ReachedBounds(shortcuts, i);
      var failure;
      failure, embeddings, count, progress := EmbedShortcut(shortcuts, i, embed, embeddings, count, progress);
      if failure.Some? {
        output := Failure(failure.value);
        return;
      }
      i := i + 1;
    }
    assert shortcuts[..i] == shortcuts;
    output := Success(Snapshot(EmbeddingModel, generatedAt, count, embeddings));
  }
}
