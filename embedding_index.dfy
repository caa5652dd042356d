/**
 * The trigger index: one entry per (shortcut, trigger phrase) pair of the
 * catalogue, stored under the key `${shortcutId}:${trigger}` with the trigger's
 * embedding. The same construction builds the index in the offscreen document
 * and the precomputed snapshot written by the generator script.
 */
module EmbeddingIndex {
  import opened Js
  import opened Catalogue
  import opened OrderedMaps

  type Embedding = seq<real>

  datatype IndexEntry = IndexEntry(shortcutId: string, trigger: string, embedding: Embedding)

  /** A `Map` (or record) from keys to entries, in insertion order. */
  type Index = OrderedMap<string, IndexEntry>

  /** The feature-extraction model applied to one text: an embedding, or the value it throws. */
  type Embedder = string -> Result<Embedding, Thrown>

  /** `${shortcutId}:${trigger}` */
  function Key(shortcutId: string, trigger: string): string {
    shortcutId + ":" + trigger
  }

  /** As long as shortcut ids contain no colon, a key determines the pair it was built from. */
  lemma KeyInjective(a: string, t: string, b: string, u: string)
    requires ':' !in a && ':' !in b
    requires Key(a, t) == Key(b, u)
    ensures a == b && t == u
  {
    var k := Key(a, t);
    assert k[|a|] == ':' && Key(b, u)[|b|] == ':';
    assert |a| == |b| by {
      if |a| < |b| {
        assert false;
      } else if |b| < |a| {
        assert false;
      }
    }
    assert a == k[..|a|] && b == k[..|b|];
    assert t == k[|a| + 1..] && u == Key(b, u)[|b| + 1..];
  }

  datatype TriggerPair = TriggerPair(shortcutId: string, trigger: string)

  /** The pairs contributed by one shortcut: its id with each of its triggers, in order. */
  function TriggersOf(s: Shortcut): (ps: seq<TriggerPair>)
    ensures |ps| == |s.voiceTriggers|
    ensures forall j :: 0 <= j < |ps| ==> ps[j] == TriggerPair(s.id, s.voiceTriggers[j])
  {
    seq(|s.voiceTriggers|, j requires 0 <= j < |s.voiceTriggers| => TriggerPair(s.id, s.voiceTriggers[j]))
  }

  /** Every (shortcut, trigger) pair of a catalogue, shortcut by shortcut and trigger by trigger. */
  function Pairs(catalogue: seq<Shortcut>): (ps: seq<TriggerPair>)
    ensures |ps| == TriggerTotal(catalogue)
  {
    if catalogue == [] then []
    else Pairs(catalogue[..|catalogue| - 1]) + TriggersOf(catalogue[|catalogue| - 1])
  }

  /** The number of voice triggers in a catalogue, over all its shortcuts. */
  function TriggerTotal(catalogue: seq<Shortcut>): nat {
    if catalogue == [] then 0
    else TriggerTotal(catalogue[..|catalogue| - 1]) + |catalogue[|catalogue| - 1].voiceTriggers|
  }

  /** The pairs of a catalogue are exactly its shortcuts' triggers, tagged with the shortcut's id. */
  lemma {:induction false} PairsOfShortcut(catalogue: seq<Shortcut>, p: TriggerPair)
    ensures p in Pairs(catalogue) <==>
      exists s :: s in catalogue && s.id == p.shortcutId && p.trigger in s.voiceTriggers
  {
    if catalogue != [] {
      var init := catalogue[..|catalogue| - 1];
      var last := catalogue[|catalogue| - 1];
      PairsOfShortcut(init, p);
      assert catalogue == init + [last];
      assert p in TriggersOf(last) <==> last.id == p.shortcutId && p.trigger in last.voiceTriggers by {
        if last.id == p.shortcutId && p.trigger in last.voiceTriggers {
          var j :| 0 <= j < |last.voiceTriggers| && last.voiceTriggers[j] == p.trigger;
          assert TriggersOf(last)[j] == p;
        }
      }
    }
  }

  /** The entry stored for a pair. */
  function EntryFor(p: TriggerPair, embedding: Embedding): IndexEntry {
    IndexEntry(p.shortcutId, p.trigger, embedding)
  }

  /**
   * The index obtained by visiting `pairs` in order and setting each pair's key
   * to its entry; the first embedding failure aborts the whole construction.
   */
  function Build(pairs: seq<TriggerPair>, embed: Embedder): (r: Result<Index, Thrown>)
    ensures r.Failure? ==> exists i :: 0 <= i < |pairs| && embed(pairs[i].trigger) == Failure(r.error)
  {
    if pairs == [] then Success([])
    else
      var p := pairs[|pairs| - 1];
      assert forall i :: 0 <= i < |pairs| - 1 ==> pairs[..|pairs| - 1][i] == pairs[i];
      var prefix := Build(pairs[..|pairs| - 1], embed);
      if prefix.Failure? then prefix
      else
        match embed(p.trigger)
        case Failure(e) => Failure(e)
        case Success(v) => Success(Set(prefix.value, Key(p.shortcutId, p.trigger), EntryFor(p, v)))
  }

  lemma BuildSnoc(pairs: seq<TriggerPair>, p: TriggerPair, embed: Embedder)
    ensures Build(pairs + [p], embed) ==
      if Build(pairs, embed).Failure? then Build(pairs, embed)
      else match embed(p.trigger)
        case Failure(e) => Failure(e)
        case Success(v) => Success(Set(Build(pairs, embed).value, Key(p.shortcutId, p.trigger), EntryFor(p, v)))
  {
    assert (pairs + [p])[..|pairs|] == pairs;
  }

  /** The construction fails exactly when some trigger cannot be embedded, and then with the first such failure. */
  lemma {:induction false} BuildFailure(pairs: seq<TriggerPair>, embed: Embedder)
    ensures Build(pairs, embed).Failure? <==> exists i :: 0 <= i < |pairs| && embed(pairs[i].trigger).Failure?
    ensures Build(pairs, embed).Failure? ==>
      exists i :: 0 <= i < |pairs| && embed(pairs[i].trigger) == Failure(Build(pairs, embed).error)
        && (forall j :: 0 <= j < i ==> embed(pairs[j].trigger).Success?)
  {
    if pairs != [] {
      var init := pairs[..|pairs| - 1];
      BuildFailure(init, embed);
      assert forall i :: 0 <= i < |init| ==> init[i] == pairs[i];
    }
  }

  /** Every stored entry sits under the key built from its own id and trigger, and holds that trigger's embedding. */
  predicate Coherent(index: Index, embed: Embedder) {
    forall i :: 0 <= i < |index| ==>
      index[i].0 == Key(index[i].1.shortcutId, index[i].1.trigger) && embed(index[i].1.trigger) == Success(index[i].1.embedding)
  }

  lemma {:induction false} BuildCoherent(pairs: seq<TriggerPair>, embed: Embedder)
    requires Build(pairs, embed).Success?
    ensures Coherent(Build(pairs, embed).value, embed) && DistinctKeys(Build(pairs, embed).value)
    ensures |Build(pairs, embed).value| <= |pairs|
  {
    if pairs != [] {
      var init := pairs[..|pairs| - 1];
      var p := pairs[|pairs| - 1];
      BuildCoherent(init, embed);
      var m := Build(init, embed).value;
      var k := Key(p.shortcutId, p.trigger);
      var e := EntryFor(p, embed(p.trigger).value);
      var r := Set(m, k, e);
      SetKeys(m, k, e);
      SetDistinct(m, k, e);
      forall i | 0 <= i < |r|
        ensures r[i].0 == Key(r[i].1.shortcutId, r[i].1.trigger) && embed(r[i].1.trigger) == Success(r[i].1.embedding)
      {
        GetAt(r, i);
        SetGet(m, k, e, r[i].0);
        if r[i].0 != k {
          var j :| 0 <= j < |m| && m[j] == (r[i].0, r[i].1);
        }
      }
    }
  }

  /** Every visited pair's key is present in the index. */
  lemma {:induction false} BuildComplete(pairs: seq<TriggerPair>, embed: Embedder)
    requires Build(pairs, embed).Success?
    ensures forall p :: p in pairs ==> Key(p.shortcutId, p.trigger) in Keys(Build(pairs, embed).value)
  {
    if pairs != [] {
      var init := pairs[..|pairs| - 1];
      var p := pairs[|pairs| - 1];
      BuildComplete(init, embed);
      var m := Build(init, embed).value;
      var k := Key(p.shortcutId, p.trigger);
      assert Build(pairs, embed).value == Set(m, k, EntryFor(p, embed(p.trigger).value));
      SetKeys(m, k, EntryFor(p, embed(p.trigger).value));
      assert forall q :: q in pairs ==> q in init || q == p;
    }
  }

  /**
   * When no shortcut id contains a colon, looking up any visited pair's key finds
   * an entry for exactly that pair, holding its trigger's embedding.
   */
  lemma BuildLookup(pairs: seq<TriggerPair>, embed: Embedder, p: TriggerPair)
    requires Build(pairs, embed).Success?
    requires forall q :: q in pairs ==> ':' !in q.shortcutId
    requires p in pairs
    ensures embed(p.trigger).Success?
    ensures Get(Build(pairs, embed).value, Key(p.shortcutId, p.trigger)) == Some(EntryFor(p, embed(p.trigger).value))
  {
    var index := Build(pairs, embed).value;
    BuildFailure(pairs, embed);
    BuildCoherent(pairs, embed);
    BuildComplete(pairs, embed);
    var k := Key(p.shortcutId, p.trigger);
    var i :| 0 <= i < |index| && index[i].0 == k;
    GetAt(index, i);
    var v := index[i].1;
    assert ':' !in v.shortcutId by {
      BuildIds(pairs, embed);
    }
    KeyInjective(v.shortcutId, v.trigger, p.shortcutId, p.trigger);
  }

  /** Every entry of the index comes from a visited pair. */
  lemma {:induction false} BuildIds(pairs: seq<TriggerPair>, embed: Embedder)
    requires Build(pairs, embed).Success?
    ensures forall i :: 0 <= i < |Build(pairs, embed).value| ==>
      TriggerPair(Build(pairs, embed).value[i].1.shortcutId, Build(pairs, embed).value[i].1.trigger) in pairs
  {
    if pairs != [] {
      var init := pairs[..|pairs| - 1];
      var p := pairs[|pairs| - 1];
      BuildIds(init, embed);
      var m := Build(init, embed).value;
      var k := Key(p.shortcutId, p.trigger);
      var e := EntryFor(p, embed(p.trigger).value);
      var r := Set(m, k, e);
      BuildCoherent(init, embed);
      SetDistinct(m, k, e);
      forall i | 0 <= i < |r|
        ensures TriggerPair(r[i].1.shortcutId, r[i].1.trigger) in pairs
      {
        GetAt(r, i);
        SetGet(m, k, e, r[i].0);
        if r[i].0 != k {
          var j :| 0 <= j < |m| && m[j] == (r[i].0, r[i].1);
          assert TriggerPair(m[j].1.shortcutId, m[j].1.trigger) in init;
        }
      }
    }
  }

  lemma {:induction false} PairsAppend(a: seq<Shortcut>, b: seq<Shortcut>)
    ensures Pairs(a + b) == Pairs(a) + Pairs(b)
  {
    if b == [] {
      assert a + b == a;
    } else {
      var b' := b[..|b| - 1];
      PairsAppend(a, b');
      assert (a + b)[..|a + b| - 1] == a + b';
      assert (a + b)[|a + b| - 1] == b[|b| - 1];
      assert Pairs(a + b) == Pairs(a + b') + TriggersOf(b[|b| - 1]);
      assert Pairs(b) == Pairs(b') + TriggersOf(b[|b| - 1]);
    }
  }

  /** Once a prefix of the pairs fails to embed, visiting more pairs keeps that failure. */
  lemma {:induction false} BuildFailurePersists(p: seq<TriggerPair>, q: seq<TriggerPair>, embed: Embedder)
    requires Build(p, embed).Failure?
    ensures Build(p + q, embed) == Build(p, embed)
  {
    if q == [] {
      assert p + q == p;
    } else {
      var q' := q[..|q| - 1];
      BuildFailurePersists(p, q', embed);
      assert (p + q)[..|p + q| - 1] == p + q';
    }
  }

  /**
   * The pairs visited before trigger `j` of shortcut `i`, in the nested
   * shortcut-then-trigger loop over a catalogue.
   */
  function Visited(catalogue: seq<Shortcut>, i: nat, j: nat): seq<TriggerPair>
    requires i < |catalogue| && j <= |catalogue[i].voiceTriggers|
  {
    Pairs(catalogue[..i]) + TriggersOf(catalogue[i])[..j]
  }

  /** One step of the nested loop visits the next pair. */
  lemma VisitedNext(catalogue: seq<Shortcut>, i: nat, j: nat)
    requires i < |catalogue| && j < |catalogue[i].voiceTriggers|
    ensures Visited(catalogue, i, j + 1) == Visited(catalogue, i, j) + [TriggerPair(catalogue[i].id, catalogue[i].voiceTriggers[j])]
  {
    assert TriggersOf(catalogue[i])[..j + 1] == TriggersOf(catalogue[i])[..j] + [TriggersOf(catalogue[i])[j]];
  }

  /** Finishing the triggers of shortcut `i` has visited the pairs of the first `i + 1` shortcuts. */
  lemma VisitedShortcut(catalogue: seq<Shortcut>, i: nat)
    requires i < |catalogue|
    ensures Visited(catalogue, i, |catalogue[i].voiceTriggers|) == Pairs(catalogue[..i + 1])
  {
    assert catalogue[..i + 1][..i] == catalogue[..i];
    assert TriggersOf(catalogue[i])[..|catalogue[i].voiceTriggers|] == TriggersOf(catalogue[i]);
  }

  /** The visited pairs are a prefix of all the catalogue's pairs. */
  lemma VisitedPrefix(catalogue: seq<Shortcut>, i: nat, j: nat)
    requires i < |catalogue| && j <= |catalogue[i].voiceTriggers|
    ensures Visited(catalogue, i, j) <= Pairs(catalogue)
  {
    var t := TriggersOf(catalogue[i]);
    var before := catalogue[..i];
    var after := catalogue[i + 1..];
    assert catalogue == before + [catalogue[i]] + after;
    PairsAppend(before + [catalogue[i]], after);
    PairsAppend(before, [catalogue[i]]);
    assert Pairs([catalogue[i]]) == t by {
      assert [catalogue[i]][..0] == [];
    }
    assert Pairs(catalogue) == Pairs(before) + t + Pairs(after);
    assert t[..j] <= t;
  }

  /** A failure within the visited pairs is the failure of the whole catalogue's construction. */
  lemma VisitedFailure(catalogue: seq<Shortcut>, i: nat, j: nat, embed: Embedder)
    requires i < |catalogue| && j <= |catalogue[i].voiceTriggers|
    requires Build(Visited(catalogue, i, j), embed).Failure?
    ensures Build(Pairs(catalogue), embed) == Build(Visited(catalogue, i, j), embed)
  {
    VisitedPrefix(catalogue, i, j);
    var visited := Visited(catalogue, i, j);
    var all := Pairs(catalogue);
    assert all == visited + all[|visited|..];
    BuildFailurePersists(visited, all[|visited|..], embed);
  }

  /** Visiting the next pair either extends the index by that pair's entry or makes the whole construction fail with its error. */
  lemma BuildVisitsNext(catalogue: seq<Shortcut>, i: nat, j: nat, embed: Embedder, embeddings: Index)
    requires i < |catalogue| && j < |catalogue[i].voiceTriggers|
    requires Build(Visited(catalogue, i, j), embed) == Success(embeddings)
    ensures var p := TriggerPair(catalogue[i].id, catalogue[i].voiceTriggers[j]);
      && |Visited(catalogue, i, j + 1)| == |Visited(catalogue, i, j)| + 1
      && (embed(p.trigger).Failure? ==> Build(Pairs(catalogue), embed) == Failure(embed(p.trigger).error))
      && (embed(p.trigger).Success? ==>
            Build(Visited(catalogue, i, j + 1), embed) == Success(Set(embeddings, Key(p.shortcutId, p.trigger), EntryFor(p, embed(p.trigger).value))))
  {
    var p := TriggerPair(catalogue[i].id, catalogue[i].voiceTriggers[j]);
    VisitedNext(catalogue, i, j);
    BuildSnoc(Visited(catalogue, i, j), p, embed);
    if embed(p.trigger).Failure? {
      VisitedFailure(catalogue, i, j + 1, embed);
    }
  }
}
