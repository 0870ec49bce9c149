/** Which file's word counts in a loaded configuration, and in which order its files and override lists come. */
module ConfigurationOutcomes {
  import opened Common
  import opened Configuration

  // ---- the order of the sources ----

  /** A file's own payload comes after everything it includes. */
  lemma OwnComesLast(files: Files, path: string, stack: set<string>)
    requires Load(files, path, stack).Ok?
    ensures path !in stack && path in files && files[path].Config? && LoadAll(files, files[path].includes, stack + {path}).Ok?
    ensures Load(files, path, stack).value.sources == LoadAll(files, files[path].includes, stack + {path}).value.sources + [path]
  {
    hide Merge;
  }

  /** One include contributes exactly its own sources. */
  lemma OneInclude(files: Files, p: string, stack: set<string>)
    requires LoadAll(files, [p], stack).Ok?
    ensures Load(files, p, stack).Ok? && LoadAll(files, [p], stack).value.sources == Load(files, p, stack).value.sources
  {
    hide Merge;
    assert [p][..0] == [];
    assert LoadAll(files, [p][..0], stack) == Ok(Loaded(map[], []));
  }

  /** Earlier includes come before later ones. */
  lemma {:induction false} IncludesInOrder(files: Files, xs: seq<string>, ys: seq<string>, stack: set<string>)
    requires LoadAll(files, xs + ys, stack).Ok? && LoadAll(files, ys, stack).Ok?
    ensures LoadAll(files, xs, stack).Ok?
    ensures LoadAll(files, xs + ys, stack).value.sources == LoadAll(files, xs, stack).value.sources + LoadAll(files, ys, stack).value.sources
  {
    hide Merge, Load;
    if ys == [] {
      assert xs + ys == xs;
    } else {
      var n := |ys| - 1;
      assert (xs + ys)[..|xs + ys| - 1] == xs + ys[..n];
      IncludesInOrder(files, xs, ys[..n], stack);
    }
  }

  // ---- override lists ----

  function OverrideItems(m: Mapping): seq<Value> {
    if OVERRIDES in m && m[OVERRIDES].List? then m[OVERRIDES].items else []
  }

  ghost predicate OverridesListed(m: Mapping) {
    OVERRIDES in m ==> m[OVERRIDES].List?
  }

  /** The override lists of the sources, one after the other. */
  function AllOverrides(files: Files, sources: seq<string>): seq<Value> {
    if sources == [] then []
    else
      var last := sources[|sources| - 1];
      AllOverrides(files, sources[..|sources| - 1]) + if Healthy(files, last) then OverrideItems(files[last].payload) else []
  }

  lemma MergeOverrides(base: Mapping, update: Mapping)
    requires Merge(base, update).Ok? && OverridesListed(base) && OverridesListed(update)
    ensures OverridesListed(Merge(base, update).value)
    ensures OverrideItems(Merge(base, update).value) == OverrideItems(base) + OverrideItems(update)
  {
    if OVERRIDES in update {
      assert MergeValue(OVERRIDES, At(base, OVERRIDES), update[OVERRIDES]).Ok?;
    }
  }

  /** The override list of a fold is its sources' override lists, in source order. */
  lemma {:induction false} OverridesInOrder(files: Files, sources: seq<string>)
    requires Fold(files, sources).Ok?
    requires forall p :: p in sources && Healthy(files, p) ==> OverridesListed(files[p].payload)
    ensures OverridesListed(Fold(files, sources).value)
    ensures OverrideItems(Fold(files, sources).value) == AllOverrides(files, sources)
  {
    if sources != [] {
      var n := |sources| - 1;
      hide Merge, OverridesListed, OverrideItems;
      OverridesInOrder(files, sources[..n]);
      MergeOverrides(Fold(files, sources[..n]).value, files[sources[n]].payload);
    } else {
      hide Merge;
    }
  }

  // ---- the last word ----

  /** What a file itself says about a key. */
  function Word(files: Files, p: string, key: string): Option<Value> {
    if Healthy(files, p) && key in files[p].payload then Some(files[p].payload[key]) else None
  }

  /** Source `k` says `v`, and no later source mentions the key. */
  ghost predicate LastWord(files: Files, sources: seq<string>, k: nat, key: string, v: Value) {
    && k < |sources| && Word(files, sources[k], key) == Some(v)
    && forall j :: k < j < |sources| ==> Word(files, sources[j], key) == None
  }

  lemma MergeWord(base: Mapping, update: Mapping, key: string)
    requires Merge(base, update).Ok?
    ensures key !in update && key in base ==> key in Merge(base, update).value && Merge(base, update).value[key] == base[key]
    ensures key in update && !update[key].Dict? && key != OVERRIDES ==>
      key in Merge(base, update).value && Merge(base, update).value[key] == update[key]
    ensures key !in update && key !in base ==> key !in Merge(base, update).value
  {
    if key in update {
      assert MergeValue(key, At(base, key), update[key]).Ok?;
    }
  }

  /** A plain value is the one of the last source that mentions its key. */
  lemma {:induction false} LastWordWins(files: Files, sources: seq<string>, k: nat, key: string, v: Value)
    requires Fold(files, sources).Ok? && LastWord(files, sources, k, key, v) && !v.Dict? && key != OVERRIDES
    ensures key in Fold(files, sources).value && Fold(files, sources).value[key] == v
  {
    hide Merge;
    var n := |sources| - 1;
    MergeWord(Fold(files, sources[..n]).value, files[sources[n]].payload, key);
    if k < n {
      LastWordWins(files, sources[..n], k, key, v);
    }
  }

  /** A file's own plain values are the loaded ones. */
  lemma OwnWordWins(files: Files, path: string, stack: set<string>, key: string, v: Value)
    requires Load(files, path, stack).Ok? && Word(files, path, key) == Some(v) && !v.Dict? && key != OVERRIDES
    ensures key in Load(files, path, stack).value.data && Load(files, path, stack).value.data[key] == v
  {
    hide Merge;
    MergeWord(LoadAll(files, files[path].includes, stack + {path}).value.data, files[path].payload, key);
  }

  /** The loaded override list is that of the sources, in their order. */
  lemma LoadedOverrides(files: Files, path: string, stack: set<string>, kind: seq<string> -> bool)
    requires ReachConforms(files, path, kind) && Load(files, path, stack).Ok?
    ensures OverrideItems(Load(files, path, stack).value.data) == AllOverrides(files, Load(files, path, stack).value.sources)
  {
    LoadIsFold(files, path, stack, kind);
    var sources := Load(files, path, stack).value.sources;
    hide Load, ReachConforms, Fold;
    forall p | p in sources && Healthy(files, p) ensures OverridesListed(files[p].payload) {
      assert Conforms(files[p].payload, [], kind);
    }
    OverridesInOrder(files, sources);
  }
}
