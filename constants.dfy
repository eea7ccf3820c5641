/** The model catalog derived from one table of model specifications
    (config/constants.py): the keyed catalog, the list of model names, the
    precisions offered per name and the set of distilled models. */
module Constants {
  import opened Common

  /** One row of the specification table: display name, repository slug,
      precision, approximate throughput, suggested batch size, approximate
      memory use. */
  datatype ModelSpec = ModelSpec(
    name: string,
    slug: string,
    precision: string,
    tokensPerSecond: int,
    optimalBatchSize: int,
    avgVramUsage: string)

  /** A catalog entry, as stored under its key. */
  datatype ModelInfo = ModelInfo(
    name: string,
    precision: string,
    repoId: string,
    tokensPerSecond: int,
    optimalBatchSize: int,
    avgVramUsage: string)

  /** A dictionary in insertion order: the pairs that `dict.items()` yields. */
  type Catalog = seq<(string, ModelInfo)>

  const ModelSpecs: seq<ModelSpec> := [
      ModelSpec("Whisper large-v3 turbo", "whisper-large-v3-turbo", "float32", 155, 4, "3.2 GB"),
      ModelSpec("Whisper large-v3 turbo", "whisper-large-v3-turbo", "bfloat16", 160, 4, "3.0 GB"),
      ModelSpec("Whisper large-v3 turbo", "whisper-large-v3-turbo", "float16", 165, 4, "2.8 GB"),
      ModelSpec("Distil Whisper large-v3", "distil-whisper-large-v3", "float32", 160, 4, "3.0 GB"),
      ModelSpec("Distil Whisper large-v3", "distil-whisper-large-v3", "bfloat16", 160, 4, "3.0 GB"),
      ModelSpec("Distil Whisper large-v3", "distil-whisper-large-v3", "float16", 160, 4, "3.0 GB"),
      ModelSpec("Whisper large-v3", "whisper-large-v3", "float32", 85, 2, "5.5 GB"),
      ModelSpec("Whisper large-v3", "whisper-large-v3", "bfloat16", 95, 3, "3.8 GB"),
      ModelSpec("Whisper large-v3", "whisper-large-v3", "float16", 100, 3, "3.3 GB"),
      ModelSpec("Distil Whisper medium.en", "distil-whisper-medium.en", "float32", 160, 4, "3.0 GB"),
      ModelSpec("Distil Whisper medium.en", "distil-whisper-medium.en", "bfloat16", 160, 4, "3.0 GB"),
      ModelSpec("Distil Whisper medium.en", "distil-whisper-medium.en", "float16", 160, 4, "3.0 GB"),
      ModelSpec("Whisper medium", "whisper-medium", "float32", 125, 5, "2.8 GB"),
      ModelSpec("Whisper medium", "whisper-medium", "bfloat16", 135, 6, "2.2 GB"),
      ModelSpec("Whisper medium", "whisper-medium", "float16", 140, 6, "2.0 GB"),
      ModelSpec("Whisper medium.en", "whisper-medium.en", "float32", 130, 6, "2.5 GB"),
      ModelSpec("Whisper medium.en", "whisper-medium.en", "bfloat16", 140, 7, "2.0 GB"),
      ModelSpec("Whisper medium.en", "whisper-medium.en", "float16", 145, 7, "1.8 GB"),
      ModelSpec("Distil Whisper small.en", "distil-whisper-small.en", "float32", 160, 4, "3.0 GB"),
      ModelSpec("Distil Whisper small.en", "distil-whisper-small.en", "bfloat16", 160, 4, "3.0 GB"),
      ModelSpec("Distil Whisper small.en", "distil-whisper-small.en", "float16", 160, 4, "3.0 GB"),
      ModelSpec("Whisper small", "whisper-small", "float32", 175, 12, "1.8 GB"),
      ModelSpec("Whisper small", "whisper-small", "bfloat16", 185, 13, "1.4 GB"),
      ModelSpec("Whisper small", "whisper-small", "float16", 190, 13, "1.3 GB"),
      ModelSpec("Whisper small.en", "whisper-small.en", "float32", 180, 14, "1.5 GB"),
      ModelSpec("Whisper small.en", "whisper-small.en", "bfloat16", 190, 15, "1.2 GB"),
      ModelSpec("Whisper small.en", "whisper-small.en", "float16", 195, 15, "1.1 GB"),
      ModelSpec("Whisper base", "whisper-base", "float32", 225, 20, "1.1 GB"),
      ModelSpec("Whisper base", "whisper-base", "bfloat16", 235, 21, "0.9 GB"),
      ModelSpec("Whisper base", "whisper-base", "float16", 240, 21, "0.85 GB"),
      ModelSpec("Whisper base.en", "whisper-base.en", "float32", 230, 22, "1.0 GB"),
      ModelSpec("Whisper base.en", "whisper-base.en", "bfloat16", 240, 23, "0.85 GB"),
      ModelSpec("Whisper base.en", "whisper-base.en", "float16", 245, 23, "0.8 GB"),
      ModelSpec("Whisper tiny", "whisper-tiny", "float32", 275, 28, "0.75 GB"),
      ModelSpec("Whisper tiny", "whisper-tiny", "bfloat16", 285, 29, "0.65 GB"),
      ModelSpec("Whisper tiny", "whisper-tiny", "float16", 290, 29, "0.6 GB"),
      ModelSpec("Whisper tiny.en", "whisper-tiny.en", "float32", 280, 30, "0.7 GB"),
      ModelSpec("Whisper tiny.en", "whisper-tiny.en", "bfloat16", 290, 31, "0.6 GB"),
      ModelSpec("Whisper tiny.en", "whisper-tiny.en", "float16", 295, 31, "0.55 GB")
  ]

  const Organization: string := "ctranslate2-4you/"

  /** The catalog key of a name/precision pair: "{name} - {precision}". */
  function ModelKey(name: string, precision: string): string
  {
    name + " - " + precision
  }

  /** The repository of a converted model: "ctranslate2-4you/{slug}-ct2-{precision}". */
  function RepoId(slug: string, precision: string): string
  {
    Organization + slug + "-ct2-" + precision
  }

  function InfoOf(s: ModelSpec): ModelInfo
  {
    ModelInfo(s.name, s.precision, RepoId(s.slug, s.precision),
              s.tokensPerSecond, s.optimalBatchSize, s.avgVramUsage)
  }

  function KeyOf(s: ModelSpec): string
  {
    ModelKey(s.name, s.precision)
  }

  function SpecKeys(specs: seq<ModelSpec>): (keys: seq<string>)
    ensures |keys| == |specs|
    ensures forall i :: 0 <= i < |specs| ==> keys[i] == KeyOf(specs[i])
  {
    if specs == [] then [] else [KeyOf(specs[0])] + SpecKeys(specs[1..])
  }

  function Names(specs: seq<ModelSpec>): (names: seq<string>)
    ensures |names| == |specs|
    ensures forall i :: 0 <= i < |specs| ==> names[i] == specs[i].name
  {
    if specs == [] then [] else [specs[0].name] + Names(specs[1..])
  }

  function Keys<K, V>(c: seq<(K, V)>): (keys: seq<K>)
    ensures |keys| == |c|
    ensures forall i :: 0 <= i < |c| ==> keys[i] == c[i].0
  {
    if c == [] then [] else [c[0].0] + Keys(c[1..])
  }

  /** `d[k]` on a dictionary: the value stored under `k`, or None where
      Python raises KeyError. */
  function Lookup<K(==), V>(c: seq<(K, V)>, k: K): (r: Option<V>)
    ensures r.Some? <==> k in Keys(c)
    ensures r.Some? ==> (k, r.value) in c
  {
    if c == [] then None
    else if c[0].0 == k then Some(c[0].1)
    else Lookup(c[1..], k)
  }

  /** `d[k] = v` on a dictionary: a new key goes to the end; an existing
      key keeps its place and takes the new value. */
  function Insert<K(==), V>(c: seq<(K, V)>, k: K, v: V): (r: seq<(K, V)>)
    ensures (k, v) in r
  {
    if c == [] then [(k, v)]
    else if c[0].0 == k then [(k, v)] + c[1..]
    else [c[0]] + Insert(c[1..], k, v)
  }

  /** Inserting leaves the key order alone, or appends a new key. */
  lemma {:induction false} InsertKeys<K, V>(c: seq<(K, V)>, k: K, v: V)
    ensures Keys(Insert(c, k, v)) == if k in Keys(c) then Keys(c) else Keys(c) + [k]
  {
    if c != [] {
      assert Keys(c) == [c[0].0] + Keys(c[1..]);
      if c[0].0 != k {
        InsertKeys(c[1..], k, v);
        assert Keys(Insert(c, k, v)) == [c[0].0] + Keys(Insert(c[1..], k, v));
      } else {
        assert Keys(Insert(c, k, v)) == [k] + Keys(c[1..]);
      }
    }
  }

  /** In a dictionary (no repeated key) an insertion overwrites the entry for
      `k` and keeps every other entry. */
  lemma {:induction false} InsertEntries<K, V>(c: seq<(K, V)>, k: K, v: V)
    requires Distinct(Keys(c))
    ensures forall e :: e in Insert(c, k, v) ==> e == (k, v) || (e in c && e.0 != k)
  {
    if c != [] {
      var tail := c[1..];
      assert Keys(c) == [c[0].0] + Keys(tail);
      if c[0].0 == k {
        forall e | e in tail ensures e.0 != k {
          var i :| 0 <= i < |tail| && tail[i] == e;
          assert Keys(c)[i + 1] == e.0;
        }
      } else {
        InsertEntries(tail, k, v);
      }
    }
  }

  /** A dictionary comprehension: `{k: v for (k, v) in pairs}`, filled
      pair by pair. */
  function FillDict<K(==), V>(pairs: seq<(K, V)>): (d: seq<(K, V)>)
    decreases |pairs|
  {
    if pairs == [] then []
    else
      var n := |pairs| - 1;
      Insert(FillDict(pairs[..n]), pairs[n].0, pairs[n].1)
  }

  /** The dictionary's keys are the pairs' keys without repetition, in
      order of first appearance. */
  lemma {:induction false} FillDictKeys<K(!new), V>(pairs: seq<(K, V)>)
    ensures Keys(FillDict(pairs)) == Dedup(Keys(pairs))
    decreases |pairs|
  {
    if pairs != [] {
      var n := |pairs| - 1;
      var before := FillDict(pairs[..n]);
      FillDictKeys(pairs[..n]);
      InsertKeys(before, pairs[n].0, pairs[n].1);
      KeysSnoc(pairs);
      DedupSnoc(Keys(pairs[..n]), pairs[n].0);
    }
  }

  /** The keys of a non-empty list are the keys of all but its last pair,
      then the last pair's key. */
  lemma KeysSnoc<K, V>(pairs: seq<(K, V)>)
    requires pairs != []
    ensures Keys(pairs) == Keys(pairs[..|pairs| - 1]) + [pairs[|pairs| - 1].0]
  {
  }

  /** Deduplicating one more element keeps the earlier result and adds the
      element only when it is new. */
  lemma DedupSnoc<T(!new)>(s: seq<T>, x: T)
    ensures Dedup(s + [x]) == if x in Dedup(s) then Dedup(s) else Dedup(s) + [x]
  {
    assert (s + [x])[..|s|] == s;
  }

  /** Every entry of the dictionary is one of the pairs. */
  lemma {:induction false} FillDictEntries<K(!new), V>(pairs: seq<(K, V)>)
    ensures forall e :: e in FillDict(pairs) ==> e in pairs
    decreases |pairs|
  {
    if pairs != [] {
      var n := |pairs| - 1;
      var before := FillDict(pairs[..n]);
      FillDictEntries(pairs[..n]);
      FillDictKeys(pairs[..n]);
      InsertEntries(before, pairs[n].0, pairs[n].1);
      assert FillDict(pairs) == Insert(before, pairs[n].0, pairs[n].1);
      forall e | e in FillDict(pairs) ensures e in pairs {
        if e != pairs[n] {
          assert e in before;
          assert e in pairs[..n];
        }
      }
    }
  }

  /** The rows of the table as (key, info) pairs. */
  function Rows(specs: seq<ModelSpec>): (rows: seq<(string, ModelInfo)>)
    ensures |rows| == |specs|
    ensures forall i :: 0 <= i < |specs| ==> rows[i] == (KeyOf(specs[i]), InfoOf(specs[i]))
  {
    if specs == [] then [] else [(KeyOf(specs[0]), InfoOf(specs[0]))] + Rows(specs[1..])
  }

  /** WHISPER_MODELS: the dictionary comprehension over the table. */
  function WhisperModels(specs: seq<ModelSpec>): (cat: Catalog)
  {
    FillDict(Rows(specs))
  }

  /** The catalog's keys are the table's keys without repetition, in order
      of first appearance, so every row of the table has an entry. */
  lemma WhisperModelsKeys(specs: seq<ModelSpec>)
    ensures Keys(WhisperModels(specs)) == Dedup(SpecKeys(specs))
    ensures Distinct(Keys(WhisperModels(specs)))
    ensures forall s :: s in specs ==> KeyOf(s) in Keys(WhisperModels(specs))
  {
    var rows := Rows(specs);
    FillDictKeys(rows);
    assert Keys(rows) == SpecKeys(specs);
    forall s | s in specs ensures KeyOf(s) in Keys(WhisperModels(specs)) {
      var i :| 0 <= i < |specs| && specs[i] == s;
      assert SpecKeys(specs)[i] == KeyOf(s);
    }
  }

  /** Every catalog entry is the key and the info of some row of the table. */
  lemma WhisperModelsEntries(specs: seq<ModelSpec>)
    ensures forall e :: e in WhisperModels(specs) ==>
              exists s :: s in specs && e == (KeyOf(s), InfoOf(s))
  {
    var rows := Rows(specs);
    FillDictEntries(rows);
    forall e | e in WhisperModels(specs)
      ensures exists s :: s in specs && e == (KeyOf(s), InfoOf(s))
    {
      var i :| 0 <= i < |rows| && rows[i] == e;
      assert specs[i] in specs;
    }
  }

  /** Each catalog entry is stored under "{name} - {precision}" of its own
      name and precision, and points at the repository converted for that
      precision. */
  lemma CatalogEntryShape(specs: seq<ModelSpec>, e: (string, ModelInfo))
    requires e in WhisperModels(specs)
    ensures e.0 == ModelKey(e.1.name, e.1.precision)
    ensures exists slug :: e.1.repoId == RepoId(slug, e.1.precision)
  {
    WhisperModelsEntries(specs);
    var s :| s in specs && e == (KeyOf(s), InfoOf(s));
    assert e.1.repoId == RepoId(s.slug, e.1.precision);
  }

  /** MODEL_NAMES: the table's names without repetition, in order of first appearance. */
  function ModelNames(specs: seq<ModelSpec>): (names: seq<string>)
    ensures Distinct(names)
    ensures forall n :: n in names <==> exists s :: s in specs && s.name == n
    ensures InFirstAppearanceOrder(Names(specs), names)
  {
    var all := Names(specs);
    DedupFirstAppearanceOrder(all);
    assert forall s :: s in specs ==> s.name in all by {
      forall s | s in specs ensures s.name in all {
        var i :| 0 <= i < |specs| && specs[i] == s;
        assert all[i] == s.name;
      }
    }
    Dedup(all)
  }

  /** The precisions listed for `name`, in table order. */
  function PrecisionsOf(specs: seq<ModelSpec>, name: string): (precs: seq<string>)
    ensures forall p :: p in precs ==> exists s :: s in specs && s.name == name && s.precision == p
    decreases |specs|
  {
    if specs == [] then []
    else
      var n := |specs| - 1;
      PrecisionsOf(specs[..n], name) + (if specs[n].name == name then [specs[n].precision] else [])
  }

  /** No precision is lost: every row with that name contributes its precision. */
  lemma {:induction false} PrecisionsComplete(specs: seq<ModelSpec>, name: string)
    ensures forall s :: s in specs && s.name == name ==> s.precision in PrecisionsOf(specs, name)
    decreases |specs|
  {
    if specs != [] {
      var n := |specs| - 1;
      PrecisionsComplete(specs[..n], name);
      assert specs == specs[..n] + [specs[n]];
    }
  }

  /** MODEL_PRECISIONS, built as the source builds it: one pass over the
      table, appending each row's precision under its name
      (`setdefault(name, []).append(prec)`). */
  method ModelPrecisions(specs: seq<ModelSpec>) returns (m: map<string, seq<string>>)
    ensures forall n :: n in m <==> exists s :: s in specs && s.name == n
    ensures forall n :: n in m ==> m[n] == PrecisionsOf(specs, n) && m[n] != []
  {
    m := map[];
    var i := 0;
    while i < |specs|
      invariant 0 <= i <= |specs|
      invariant forall n :: n in m <==> exists s :: s in specs[..i] && s.name == n
      invariant forall n :: n in m ==> m[n] == PrecisionsOf(specs[..i], n) && m[n] != []
      invariant forall n :: n !in m ==> PrecisionsOf(specs[..i], n) == []
    {
      var s := specs[i];
      assert specs[..i + 1][..i] == specs[..i];
      assert specs[..i + 1] == specs[..i] + [s];
      if s.name in m {
        m := m[s.name := m[s.name] + [s.precision]];
      } else {
        m := m[s.name := [s.precision]];
      }
      i := i + 1;
    }
    assert specs[..i] == specs;
  }

  /** DISTIL_MODELS: the names that start with "Distil". */
  function DistilModels(specs: seq<ModelSpec>): (distil: set<string>)
    ensures forall n :: n in distil <==> n in ModelNames(specs) && StartsWith(n, "Distil")
  {
    set s | s in specs && StartsWith(s.name, "Distil") :: s.name
  }
}
