/** `deepMerge(target, source)` of the configuration service: the target is copied with a spread,
    then every key of the source is visited in order; a source value that is an object (truthy,
    `typeof 'object'`, not an array) is merged recursively into the copy's value (or into `{}` when
    that value is falsy), anything else (an array, a primitive, `null`) replaces it outright. */
module DeepMerge {
  import opened Wrappers
  import opened JsValues

  /** `result[key] || {}`: the value a nested merge starts from. */
  function MergeBase(current: Option<Value>): Value {
    if Present(current) then current.value else Obj([])
  }

  /** The specification of `deepMerge`: the merge always yields an object. */
  function Merge(target: Value, source: Value): (r: Value)
    ensures r.Obj?
    decreases Depth(source), 1
  {
    SpreadNestedBelow(source);
    Obj(MergeEntries(Spread(target), Spread(source), Depth(source)))
  }

  /** Every nested object among `entries` is shallower than `bound`. */
  predicate NestedBelow(entries: seq<Field>, bound: nat) {
    forall i :: 0 <= i < |entries| && entries[i].val.Obj? ==> Depth(entries[i].val) < bound
  }

  lemma NestedBelowPrefix(entries: seq<Field>, bound: nat, n: nat)
    requires NestedBelow(entries, bound) && n <= |entries|
    ensures NestedBelow(entries[..n], bound)
  {
    assert forall i :: 0 <= i < n ==> entries[..n][i] == entries[i];
  }

  lemma SpreadNestedBelow(v: Value)
    ensures NestedBelow(Spread(v), Depth(v))
  {
  }

  /** The key of a field with distinct keys does not occur before it. */
  lemma KeyNotInPrefix(fs: seq<Field>, n: nat)
    requires UniqueKeys(fs) && n < |fs|
    ensures fs[n].key !in Keys(fs[..n])
  {
    forall i | 0 <= i < n ensures Keys(fs[..n])[i] != fs[n].key {
      assert Keys(fs[..n])[i] == fs[..n][i].key == fs[i].key;
    }
  }

  /** The loop of `deepMerge` after visiting `entries`, starting from the fields `acc`; `bound`
      bounds the depth of the nested objects still to be merged. */
  function MergeEntries(acc: seq<Field>, entries: seq<Field>, bound: nat): seq<Field>
    requires NestedBelow(entries, bound)
    decreases bound, 0, |entries|
  {
    if entries == [] then acc
    else
      NestedBelowPrefix(entries, bound, |entries| - 1);
      MergeEntry(MergeEntries(acc, entries[..|entries| - 1], bound), entries[|entries| - 1], bound)
  }

  /** One iteration of the loop: the entry `e` of the source visited with the fields `fields`. */
  function MergeEntry(fields: seq<Field>, e: Field, bound: nat): seq<Field>
    requires e.val.Obj? ==> Depth(e.val) < bound
    decreases bound, 0, 0
  {
    if e.val.Obj? then Put(fields, e.key, Merge(MergeBase(Find(fields, e.key)), e.val))
    else Put(fields, e.key, e.val)
  }

  /** The loop as the source runs it, recursing for nested objects. */
  method DeepMergeValues(target: Value, source: Value) returns (result: Value)
    ensures result == Merge(target, source)
    decreases Depth(source)
  {
    var fields := Spread(target);
    var entries := Spread(source);
    SpreadNestedBelow(source);
    var i := 0;
    while i < |entries|
      invariant 0 <= i <= |entries|
      invariant NestedBelow(entries[..i], Depth(source))
      invariant fields == MergeEntries(Spread(target), entries[..i], Depth(source))
    {
      var e := entries[i];
      NestedBelowPrefix(entries, Depth(source), i + 1);
      EntriesStep(Spread(target), entries, Depth(source), i);
      ghost var before := fields;
      if e.val.Obj? {
        var current := Find(fields, e.key);
        var base := if Present(current) then current.value else Obj([]);
        assert base == MergeBase(current);
        var merged := DeepMergeValues(base, e.val);
        fields := Put(fields, e.key, merged);
      } else {
        fields := Put(fields, e.key, e.val);
      }
      assert fields == MergeEntry(before, e, Depth(source));
      i := i + 1;
    }
    assert entries[..|entries|] == entries;
    result := Obj(fields);
  }

  // ---------------------------------------------------------------------------------------------
  // The loop, entry by entry

  /** One more entry of the loop. */
  lemma EntriesStep(acc: seq<Field>, entries: seq<Field>, bound: nat, i: nat)
    requires NestedBelow(entries, bound) && i < |entries|
    ensures NestedBelow(entries[..i], bound) && NestedBelow(entries[..i + 1], bound)
    ensures MergeEntries(acc, entries[..i + 1], bound)
            == MergeEntry(MergeEntries(acc, entries[..i], bound), entries[i], bound)
  {
    NestedBelowPrefix(entries, bound, i);
    NestedBelowPrefix(entries, bound, i + 1);
    assert entries[..i + 1][..i] == entries[..i];
  }

  lemma {:induction false} EntriesKeepAbsent(acc: seq<Field>, entries: seq<Field>, bound: nat, k: string)
    requires NestedBelow(entries, bound)
    requires k !in Keys(entries)
    ensures Find(MergeEntries(acc, entries, bound), k) == Find(acc, k)
    decreases |entries|
  {
    if entries != [] {
      var n := |entries| - 1;
      assert Keys(entries) == Keys(entries[..n]) + [entries[n].key];
      NestedBelowPrefix(entries, bound, n);
      EntriesKeepAbsent(acc, entries[..n], bound, k);
    }
  }

  lemma {:induction false} EntriesKeysPrefix(acc: seq<Field>, entries: seq<Field>, bound: nat)
    requires NestedBelow(entries, bound)
    ensures |Keys(MergeEntries(acc, entries, bound))| >= |acc|
    ensures Keys(MergeEntries(acc, entries, bound))[..|acc|] == Keys(acc)
    decreases |entries|
  {
    if entries != [] {
      var n := |entries| - 1;
      NestedBelowPrefix(entries, bound, n);
      EntriesKeysPrefix(acc, entries[..n], bound);
      var prefix := MergeEntries(acc, entries[..n], bound);
      var e := entries[n];
      var v := if e.val.Obj? then Merge(MergeBase(Find(prefix, e.key)), e.val) else e.val;
      assert MergeEntries(acc, entries, bound) == Put(prefix, e.key, v);
      PutKeepsKeysPrefix(prefix, e.key, v, |acc|);
    }
  }

  lemma {:induction false} EntriesSetKey(acc: seq<Field>, entries: seq<Field>, bound: nat, j: nat)
    requires NestedBelow(entries, bound)
    requires UniqueKeys(entries) && j < |entries|
    ensures var e := entries[j];
            Find(MergeEntries(acc, entries, bound), e.key)
            == Some(if e.val.Obj? then Merge(MergeBase(Find(acc, e.key)), e.val) else e.val)
    decreases |entries|
  {
    var n := |entries| - 1;
    var prefix := entries[..n];
    assert UniqueKeys(prefix);
    NestedBelowPrefix(entries, bound, n);
    if j == n {
      KeyNotInPrefix(entries, n);
      EntriesKeepAbsent(acc, prefix, bound, entries[n].key);
    } else {
      assert prefix[j] == entries[j];
      EntriesSetKey(acc, prefix, bound, j);
    }
  }

  // ---------------------------------------------------------------------------------------------
  // Properties of deepMerge

  /** A key the source does not have keeps the value the target had. */
  lemma MergeKeepsAbsentKeys(target: Value, source: Value, k: string)
    requires k !in Keys(Spread(source))
    ensures Find(Merge(target, source).fields, k) == Find(Spread(target), k)
  {
    SpreadNestedBelow(source);
    EntriesKeepAbsent(Spread(target), Spread(source), Depth(source), k);
  }

  /** A source value that is not an object (an array, a primitive, `null`) replaces the target's
      value outright: no concatenation, no element-wise merge. */
  lemma MergeReplacesNonObjects(target: Value, source: Value, j: nat)
    requires UniqueKeys(Spread(source)) && j < |Spread(source)|
    requires !Spread(source)[j].val.Obj?
    ensures Find(Merge(target, source).fields, Spread(source)[j].key) == Some(Spread(source)[j].val)
  {
    SpreadNestedBelow(source);
    EntriesSetKey(Spread(target), Spread(source), Depth(source), j);
  }

  /** A source value that is an object is merged into the target's value, or into `{}` when the
      target's value is missing or falsy. */
  lemma MergeRecursesIntoObjects(target: Value, source: Value, j: nat)
    requires UniqueKeys(Spread(source)) && j < |Spread(source)|
    requires Spread(source)[j].val.Obj?
    ensures var e := Spread(source)[j];
            Find(Merge(target, source).fields, e.key) == Some(Merge(MergeBase(Find(Spread(target), e.key)), e.val))
  {
    SpreadNestedBelow(source);
    EntriesSetKey(Spread(target), Spread(source), Depth(source), j);
  }

  /** The position of a key a lookup finds among fields with distinct keys. */
  lemma FoundAt(fs: seq<Field>, k: string) returns (j: nat)
    requires UniqueKeys(fs) && Find(fs, k).Some?
    ensures j < |fs| && fs[j].key == k && fs[j].val == Find(fs, k).value
  {
    FindKeys(fs, k);
    j :| 0 <= j < |fs| && Keys(fs)[j] == k;
    FindUnique(fs, j);
  }

  /** Read by key: a source value that is not an object is what the merge holds under its key. */
  lemma MergeReadsSource(target: Value, source: Value, k: string)
    requires UniqueKeys(Spread(source))
    requires Find(Spread(source), k).Some? && !Find(Spread(source), k).value.Obj?
    ensures Find(Merge(target, source).fields, k) == Find(Spread(source), k)
  {
    var j := FoundAt(Spread(source), k);
    MergeReplacesNonObjects(target, source, j);
  }

  /** Read by key: a source object is merged into the target's value under its key, or into `{}`. */
  lemma MergeReadsMerged(target: Value, source: Value, k: string)
    requires UniqueKeys(Spread(source))
    requires Find(Spread(source), k).Some? && Find(Spread(source), k).value.Obj?
    ensures Find(Merge(target, source).fields, k)
            == Some(Merge(MergeBase(Find(Spread(target), k)), Find(Spread(source), k).value))
  {
    var j := FoundAt(Spread(source), k);
    MergeRecursesIntoObjects(target, source, j);
  }

  /** Read by key: a key the source lacks reads the target's value. */
  lemma MergeReadsTarget(target: Value, source: Value, k: string)
    requires Find(Spread(source), k).None?
    ensures Find(Merge(target, source).fields, k) == Find(Spread(target), k)
  {
    FindKeys(Spread(source), k);
    MergeKeepsAbsentKeys(target, source, k);
  }

  /** The target's keys come first in the result, in their original order. */
  lemma MergeKeepsTargetKeyOrder(target: Value, source: Value)
    ensures |Keys(Merge(target, source).fields)| >= |Spread(target)|
    ensures Keys(Merge(target, source).fields)[..|Spread(target)|] == Keys(Spread(target))
  {
    SpreadNestedBelow(source);
    EntriesKeysPrefix(Spread(target), Spread(source), Depth(source));
  }

  /** The result never repeats a key when the target's own keys are distinct. */
  lemma MergeUniqueKeys(target: Value, source: Value)
    requires UniqueKeys(Spread(target))
    ensures UniqueKeys(Merge(target, source).fields)
  {
    SpreadNestedBelow(source);
    EntriesUniqueKeys(Spread(target), Spread(source), Depth(source));
  }

  lemma {:induction false} EntriesUniqueKeys(acc: seq<Field>, entries: seq<Field>, bound: nat)
    requires NestedBelow(entries, bound) && UniqueKeys(acc)
    ensures UniqueKeys(MergeEntries(acc, entries, bound))
    decreases |entries|
  {
    if entries != [] {
      var n := |entries| - 1;
      NestedBelowPrefix(entries, bound, n);
      EntriesUniqueKeys(acc, entries[..n], bound);
      var prefix := MergeEntries(acc, entries[..n], bound);
      var e := entries[n];
      if e.val.Obj? {
        PutKeepsUniqueKeys(prefix, e.key, Merge(MergeBase(Find(prefix, e.key)), e.val));
      } else {
        PutKeepsUniqueKeys(prefix, e.key, e.val);
      }
    }
  }

  /** `deepMerge(D, {})` is a copy of `D`. */
  lemma MergeEmptySource(d: Value)
    requires d.Obj?
    ensures Merge(d, Obj([])) == d
  {
  }

  /** `deepMerge({}, D)` rebuilds a well-formed object `D` exactly. */
  lemma {:induction false} MergeIntoEmpty(d: Value)
    requires WellFormed(d) && d.Obj?
    ensures Merge(Obj([]), d) == d
    decreases Depth(d), 1
  {
    SpreadNestedBelow(d);
    EntriesIntoEmpty(d.fields, |d.fields|, Depth(d));
    assert d.fields[..|d.fields|] == d.fields;
  }

  lemma {:induction false} EntriesIntoEmpty(fs: seq<Field>, n: nat, bound: nat)
    requires n <= |fs| && UniqueKeys(fs)
    requires forall i :: 0 <= i < |fs| ==> WellFormed(fs[i].val)
    requires NestedBelow(fs, bound)
    ensures NestedBelow(fs[..n], bound)
    ensures MergeEntries([], fs[..n], bound) == fs[..n]
    decreases bound, 0, n, 1
  {
    if n == 0 {
      NestedBelowPrefix(fs, bound, 0);
    } else {
      EntriesIntoEmpty(fs, n - 1, bound);
      EntriesStep([], fs, bound, n - 1);
      AppendFreshEntry(fs, n, bound);
    }
  }

  /** The `n`-th entry of a well-formed object merged into the copy of the entries before it
      extends that copy by itself. */
  lemma AppendFreshEntry(fs: seq<Field>, n: nat, bound: nat)
    requires 0 < n <= |fs| && UniqueKeys(fs)
    requires forall i :: 0 <= i < |fs| ==> WellFormed(fs[i].val)
    requires NestedBelow(fs, bound)
    ensures MergeEntry(fs[..n - 1], fs[n - 1], bound) == fs[..n]
    decreases bound, 0, n, 0
  {
    var e := fs[n - 1];
    KeyNotInPrefix(fs, n - 1);
    assert WellFormed(e.val) && (e.val.Obj? ==> Depth(e.val) < bound);
    EntryIntoEmpty(fs[..n - 1], e, bound);
    assert fs[..n - 1] + [e] == fs[..n];
  }

  /** A well-formed entry whose key is new is appended unchanged. */
  lemma {:induction false} EntryIntoEmpty(prefix: seq<Field>, e: Field, bound: nat)
    requires e.key !in Keys(prefix) && WellFormed(e.val)
    requires e.val.Obj? ==> Depth(e.val) < bound
    ensures MergeEntry(prefix, e, bound) == prefix + [e]
    decreases bound, 0, 0
  {
    FindKeys(prefix, e.key);
    if e.val.Obj? {
      MergeIntoEmpty(e.val);
    }
    PutNewKey(prefix, e.key, e.val);
  }

  /** Merging a well-formed object into itself changes nothing. */
  lemma {:induction false} MergeSelf(d: Value)
    requires WellFormed(d) && d.Obj?
    ensures Merge(d, d) == d
    decreases Depth(d), 1
  {
    SpreadNestedBelow(d);
    EntriesSelf(d.fields, |d.fields|, Depth(d));
    assert d.fields[..|d.fields|] == d.fields;
  }

  lemma {:induction false} EntriesSelf(fs: seq<Field>, n: nat, bound: nat)
    requires n <= |fs| && UniqueKeys(fs)
    requires forall i :: 0 <= i < |fs| ==> WellFormed(fs[i].val)
    requires NestedBelow(fs, bound)
    ensures NestedBelow(fs[..n], bound)
    ensures MergeEntries(fs, fs[..n], bound) == fs
    decreases bound, 0, n
  {
    NestedBelowPrefix(fs, bound, n);
    if n > 0 {
      var e := fs[n - 1];
      EntriesSelf(fs, n - 1, bound);
      EntriesStep(fs, fs, bound, n - 1);
      FindUnique(fs, n - 1);
      if e.val.Obj? {
        MergeSelf(e.val);
      }
      PutExisting(fs, e.key, e.val);
    }
  }
}
