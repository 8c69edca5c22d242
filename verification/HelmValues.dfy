/** internal/render: the merge of Helm values files, with the type tag that decides whether a map merges again. */
module HelmValues {
  import opened Outcomes
  import opened Paths

  /** A decoded value. `merged` marks a map stored as chartutil.Values, which the map[string]any assertion refuses. */
  datatype Value =
    | Leaf(text: string)
    | Map(merged: bool, entries: map<string, Value>)

  type Tree = v: Value | v.Map? witness Map(false, map[])

  predicate Mergeable(v: Value) {
    v.Map? && !v.merged
  }

  /** What the destination of a merge holds afterwards. */
  function Merge(dst: map<string, Value>, src: Tree): map<string, Value>
    decreases src, 1
  {
    map key | key in dst.Keys + src.entries.Keys :: MergedEntry(dst, src, key)
  }

  function MergedEntry(dst: map<string, Value>, src: Tree, key: string): Value
    requires key in dst || key in src.entries
    decreases src, 0
  {
    if key in src.entries then Incoming(Held(dst, key), src.entries[key]) else dst[key]
  }

  function Held(dst: map<string, Value>, key: string): Option<Value> {
    if key in dst then Some(dst[key]) else None
  }

  function Incoming(existing: Option<Value>, value: Value): Value
    decreases value, 2
  {
    if existing.Some? && Mergeable(existing.value) && Mergeable(value)
    then Map(true, Merge(existing.value.entries, value))
    else value
  }

  lemma MergeAt(dst: map<string, Value>, src: Tree, key: string)
    requires key in dst || key in src.entries
    ensures key in Merge(dst, src)
    ensures Merge(dst, src)[key] ==
            if key !in src.entries then dst[key]
            else if key in dst && Mergeable(dst[key]) && Mergeable(src.entries[key])
            then Map(true, Merge(dst[key].entries, src.entries[key]))
            else src.entries[key]
  {
    if key in src.entries {
      assert MergedEntry(dst, src, key) == Incoming(Held(dst, key), src.entries[key]);
    }
  }

  /** The state of the loop in DeepMerge: the keys in `left` are still to come. */
  ghost predicate MergedBut(dst: map<string, Value>, src: Tree, left: set<string>, now: map<string, Value>) {
    && left <= src.entries.Keys
    && now.Keys == dst.Keys + (src.entries.Keys - left)
    && (forall key :: key in left ==> Held(now, key) == Held(dst, key))
    && (forall key :: key in now && key !in left ==> now[key] == MergedEntry(dst, src, key))
  }

  lemma MergedNext(dst: map<string, Value>, src: Tree, left: set<string>, now: map<string, Value>, key: string)
    requires MergedBut(dst, src, left, now) && key in left
    ensures MergedBut(dst, src, left - {key}, now[key := Incoming(Held(now, key), src.entries[key])])
  {
    hide Incoming;
  }

  lemma MergedWhole(dst: map<string, Value>, src: Tree, now: map<string, Value>)
    requires MergedBut(dst, src, {}, now)
    ensures now == Merge(dst, src)
  {
    hide MergedEntry;
  }

  /** A chartutil.Values map, changed in place. */
  class Values {
    var entries: map<string, Value>

    constructor (entries: map<string, Value>)
      ensures this.entries == entries
    {
      this.entries := entries;
    }

    /** deepMerge, ranging over the keys of `src` in whatever order they come. */
    method DeepMerge(src: Tree)
      modifies this
      ensures entries == Merge(old(entries), src)
      decreases src, 0
    {
      var left := src.entries.Keys;
      assert MergedBut(old(entries), src, left, entries);
      hide MergedBut, Merge, Incoming;
      while left != {}
        invariant MergedBut(old(entries), src, left, entries) && left <= src.entries.Keys
        decreases |left|
      {
        var key :| key in left;
        MergedNext(old(entries), src, left, entries, key);
        MergeKey(key, src.entries[key]);
        left := left - {key};
      }
      MergedWhole(old(entries), src, entries);
    }

    method MergeKey(key: string, value: Value)
      modifies this
      ensures entries == old(entries)[key := Incoming(Held(old(entries), key), value)]
      decreases value, 1
    {
      if key !in entries {
        entries := entries[key := value];
        return;
      }
      var existing := entries[key];
      if Mergeable(existing) && Mergeable(value) {
        var merged := new Values(existing.entries);
        merged.DeepMerge(value);
        entries := entries[key := Map(true, merged.entries)];
        return;
      }
      entries := entries[key := value];
    }
  }

  // What a reader of the values sees

  /** Blocked: the path runs through a leaf. */
  datatype Reading = Absent | Blocked | Text(text: string) | Inner

  function At(t: map<string, Value>, path: seq<string>): Reading
    requires path != []
    decreases |path|
  {
    if path[0] !in t then Absent
    else
      var v := t[path[0]];
      if v.Leaf? then if |path| == 1 then Text(v.text) else Blocked
      else if |path| == 1 then Inner
      else At(v.entries, path[1..])
  }

  function Visible(r: Reading): Reading {
    if r.Blocked? then Absent else r
  }

  /** Some map on the way down to the path is replaced by a map instead of being merged with it. */
  predicate Cut(dst: map<string, Value>, src: map<string, Value>, path: seq<string>)
    requires path != []
    decreases |path|
  {
    && |path| > 1 && path[0] in dst && path[0] in src
    && var (d, s) := (dst[path[0]], src[path[0]]);
    && d.Map? && s.Map? && (d.merged || s.merged || Cut(d.entries, s.entries, path[1..]))
  }

  /** Every path of a merge, for any tags: the source decides where it says something, the destination elsewhere, except
      below a cut, where the destination is lost. */
  lemma {:induction false} MergeAtEveryPath(dst: map<string, Value>, src: Tree, path: seq<string>)
    requires path != []
    ensures Visible(At(Merge(dst, src), path)) ==
            Visible(if At(src.entries, path) == Absent && !Cut(dst, src.entries, path) then At(dst, path)
                    else At(src.entries, path))
    decreases |path|
  {
    var key := path[0];
    if key in dst || key in src.entries {
      MergeAt(dst, src, key);
    }
    if key in dst && key in src.entries && Mergeable(dst[key]) && Mergeable(src.entries[key]) && |path| > 1 {
      MergeAtEveryPath(dst[key].entries, src.entries[key], path[1..]);
    }
  }

  predicate Plain(v: Value) {
    v.Map? ==> !v.merged && forall key :: key in v.entries ==> Plain(v.entries[key])
  }

  lemma {:induction false} PlainIsUncut(dst: Tree, src: Tree, path: seq<string>)
    requires Plain(dst) && Plain(src) && path != []
    ensures !Cut(dst.entries, src.entries, path)
    decreases |path|
  {
    if |path| > 1 && path[0] in dst.entries && path[0] in src.entries {
      var (d, s) := (dst.entries[path[0]], src.entries[path[0]]);
      if d.Map? && s.Map? {
        PlainIsUncut(d, s, path[1..]);
      }
    }
  }

  /** Merging one freshly decoded file into another is the recursive override, read at any path. */
  lemma PlainMergeOverrides(dst: Tree, src: Tree, path: seq<string>)
    requires Plain(dst) && Plain(src) && path != []
    ensures Visible(At(Merge(dst.entries, src), path)) ==
            Visible(if At(src.entries, path) == Absent then At(dst.entries, path) else At(src.entries, path))
  {
    MergeAtEveryPath(dst.entries, src, path);
    PlainIsUncut(dst, src, path);
  }

  // When a merge is the recursive override

  function Erase(v: Value): (r: Value)
    ensures Plain(r) && r.Map? == v.Map?
  {
    match v
    case Leaf(_) => v
    case Map(_, entries) => Map(false, map key | key in entries :: Erase(entries[key]))
  }

  function EraseAll(t: map<string, Value>): (r: map<string, Value>)
    ensures r.Keys == t.Keys && forall key :: key in r ==> r[key] == Erase(t[key])
  {
    map key | key in t :: Erase(t[key])
  }

  lemma EraseMap(v: Tree)
    ensures Erase(v) == Map(false, EraseAll(v.entries))
  {
    assert Erase(v).entries == EraseAll(v.entries);
  }

  /** The override one would write down: maps merge at every depth, whatever merged before. */
  function Override(dst: map<string, Value>, src: Tree): map<string, Value>
    decreases src, 1
  {
    map key | key in dst.Keys + src.entries.Keys :: OverrideEntry(dst, src, key)
  }

  function OverrideEntry(dst: map<string, Value>, src: Tree, key: string): Value
    requires key in dst || key in src.entries
    decreases src, 0
  {
    if key !in src.entries then dst[key]
    else if key in dst && dst[key].Map? && src.entries[key].Map?
    then Map(false, Override(dst[key].entries, src.entries[key]))
    else src.entries[key]
  }

  lemma OverrideAt(dst: map<string, Value>, src: Tree, key: string)
    requires key in dst || key in src.entries
    ensures key in Override(dst, src)
    ensures Override(dst, src)[key] ==
            if key !in src.entries then dst[key]
            else if key in dst && dst[key].Map? && src.entries[key].Map?
            then Map(false, Override(dst[key].entries, src.entries[key]))
            else src.entries[key]
  {
    assert Override(dst, src)[key] == OverrideEntry(dst, src, key);
  }

  /** At every path the later side decides where it says something, the earlier side elsewhere. */
  lemma {:induction false} OverrideAtEveryPath(dst: map<string, Value>, src: Tree, path: seq<string>)
    requires path != []
    ensures Visible(At(Override(dst, src), path)) ==
            Visible(if At(src.entries, path) == Absent then At(dst, path) else At(src.entries, path))
    decreases |path|
  {
    var key := path[0];
    if key in dst && key in src.entries && dst[key].Map? && src.entries[key].Map? && |path| > 1 {
      OverrideAtEveryPath(dst[key].entries, src.entries[key], path[1..]);
    }
  }

  /** Everything in the destination is overridden by the source anyway. */
  predicate Covers(dst: map<string, Value>, src: Tree)
    decreases src
  {
    forall key :: key in dst ==>
      && key in src.entries
      && (dst[key].Map? && src.entries[key].Map? ==> Covers(dst[key].entries, src.entries[key]))
  }

  /** Where a merged map meets a map, nothing of it has to survive. */
  predicate Lossless(dst: map<string, Value>, src: Tree)
    decreases src, 1
  {
    forall key :: key in dst && key in src.entries ==> LosslessAt(dst, src, key)
  }

  predicate LosslessAt(dst: map<string, Value>, src: Tree, key: string)
    decreases src, 0
  {
    key in dst && key in src.entries && dst[key].Map? && src.entries[key].Map? ==>
      if dst[key].merged then Covers(dst[key].entries, src.entries[key])
      else Lossless(dst[key].entries, src.entries[key])
  }

  lemma {:induction false} ErasePlain(v: Value)
    requires Plain(v)
    ensures Erase(v) == v
  {
    if v.Map? {
      forall key | key in v.entries
        ensures Erase(v.entries[key]) == v.entries[key]
      {
        ErasePlain(v.entries[key]);
      }
    }
  }

  /** Overriding leaves exactly the source exactly when the source covers the destination. */
  lemma {:induction false} OverrideIsSourceExactly(dst: map<string, Value>, src: Tree)
    requires Plain(src)
    ensures Override(EraseAll(dst), src) == src.entries <==> Covers(dst, src)
    decreases src
  {
    var d := EraseAll(dst);
    forall key | key in dst && key in src.entries && dst[key].Map? && src.entries[key].Map?
      ensures d[key].entries == EraseAll(dst[key].entries)
      ensures Override(d[key].entries, src.entries[key]) == src.entries[key].entries <==> Covers(dst[key].entries, src.entries[key])
    {
      OverrideIsSourceExactly(dst[key].entries, src.entries[key]);
    }
    OverrideByKey(d, src);
  }

  lemma OverrideByKey(d: map<string, Value>, src: Tree)
    requires Plain(src)
    ensures Override(d, src) == src.entries <==>
            forall key :: key in d ==>
              && key in src.entries
              && (d[key].Map? && src.entries[key].Map? ==> Override(d[key].entries, src.entries[key]) == src.entries[key].entries)
  {
    var r := Override(d, src);
    if r == src.entries {
      forall key | key in d
        ensures key in src.entries
        ensures d[key].Map? && src.entries[key].Map? ==> Override(d[key].entries, src.entries[key]) == src.entries[key].entries
      {
        assert key in r;
        assert r[key] == src.entries[key] && r[key] == OverrideEntry(d, src, key);
      }
    }
  }

  /** A merge of a decoded file is the recursive override exactly when no merged map loses anything in it. */
  lemma {:induction false} MergeIsOverrideExactly(dst: map<string, Value>, src: Tree)
    requires Plain(src)
    ensures EraseAll(Merge(dst, src)) == Override(EraseAll(dst), src) <==> Lossless(dst, src)
    decreases src, 1
  {
    var l, r := EraseAll(Merge(dst, src)), Override(EraseAll(dst), src);
    assert l.Keys == r.Keys;
    forall key | key in l
      ensures l[key] == r[key] <==> LosslessAt(dst, src, key)
    {
      EntryIsOverrideExactly(dst, src, key);
    }
    assert l == r <==> forall key :: key in l ==> l[key] == r[key];
    assert Lossless(dst, src) <==> forall key :: key in l ==> LosslessAt(dst, src, key);
  }

  lemma {:induction false} EntryIsOverrideExactly(dst: map<string, Value>, src: Tree, key: string)
    requires Plain(src) && (key in dst || key in src.entries)
    ensures Erase(MergedEntry(dst, src, key)) == OverrideEntry(EraseAll(dst), src, key) <==> LosslessAt(dst, src, key)
    decreases src, 0
  {
    hide Merge, Erase, EraseAll, Override, Covers, Lossless;
    if key in src.entries {
      var s := src.entries[key];
      ErasePlain(s);
      if key in dst && dst[key].Map? && s.Map? {
        EraseMap(dst[key]);
        if dst[key].merged {
          OverrideIsSourceExactly(dst[key].entries, s);
          assert s == Map(false, s.entries);
        } else {
          MergeIsOverrideExactly(dst[key].entries, s);
          EraseMap(Map(true, Merge(dst[key].entries, s)));
        }
      }
    }
  }

  // The fold over the values files

  function MergeAll(files: seq<Tree>): map<string, Value> {
    if files == [] then map[] else Merge(MergeAll(files[..|files| - 1]), files[|files| - 1])
  }

  function OverrideAll(files: seq<Tree>): map<string, Value> {
    if files == [] then map[] else Override(OverrideAll(files[..|files| - 1]), files[|files| - 1])
  }

  ghost predicate AllPlain(files: seq<Tree>) {
    forall i :: 0 <= i < |files| ==> Plain(files[i])
  }

  /** The fold follows the recursive override after every file exactly when each file is merged without loss. */
  lemma EveryPrefixIsOverrideExactly(files: seq<Tree>)
    requires AllPlain(files)
    ensures (forall n :: 0 <= n <= |files| ==> EraseAll(MergeAll(files[..n])) == OverrideAll(files[..n]))
            <==> (forall n :: 0 <= n < |files| ==> Lossless(MergeAll(files[..n]), files[n]))
  {
    if forall n :: 0 <= n < |files| ==> Lossless(MergeAll(files[..n]), files[n]) {
      forall n | 0 <= n <= |files|
        ensures EraseAll(MergeAll(files[..n])) == OverrideAll(files[..n])
      {
        LosslessFold(files, n);
      }
    }
    if forall n :: 0 <= n <= |files| ==> EraseAll(MergeAll(files[..n])) == OverrideAll(files[..n]) {
      forall n | 0 <= n < |files|
        ensures Lossless(MergeAll(files[..n]), files[n])
      {
        assert files[..n + 1][..n] == files[..n];
        assert EraseAll(MergeAll(files[..n + 1])) == OverrideAll(files[..n + 1]);
        MergeIsOverrideExactly(MergeAll(files[..n]), files[n]);
      }
    }
  }

  lemma {:induction false} LosslessFold(files: seq<Tree>, n: nat)
    requires AllPlain(files) && n <= |files|
    requires forall i :: 0 <= i < |files| ==> Lossless(MergeAll(files[..i]), files[i])
    ensures EraseAll(MergeAll(files[..n])) == OverrideAll(files[..n])
    decreases n
  {
    if n != 0 {
      LosslessFold(files, n - 1);
      assert files[..n][..n - 1] == files[..n - 1];
      MergeIsOverrideExactly(MergeAll(files[..n - 1]), files[n - 1]);
    }
  }

  lemma MergeIntoNothing(src: Tree)
    ensures Merge(map[], src) == src.entries
  {
    forall key | key in src.entries
      ensures Merge(map[], src)[key] == src.entries[key]
    {
      MergeAt(map[], src, key);
    }
  }

  lemma {:induction false} PlainLosesNothing(dst: Tree, src: Tree)
    requires Plain(dst)
    ensures Lossless(dst.entries, src)
    decreases src
  {
    forall key | key in dst.entries && key in src.entries
      ensures LosslessAt(dst.entries, src, key)
    {
      if dst.entries[key].Map? && src.entries[key].Map? {
        PlainLosesNothing(dst.entries[key], src.entries[key]);
      }
    }
  }

  /** One or two values files always give the recursive override. */
  lemma TwoFilesOverride(first: Tree, second: Tree)
    requires Plain(first) && Plain(second)
    ensures EraseAll(MergeAll([first])) == OverrideAll([first])
    ensures EraseAll(MergeAll([first, second])) == OverrideAll([first, second])
  {
    var files := [first, second];
    assert files[..0] == [] && files[..1] == [first] && files[..2] == files && [first][..0] == [];
    MergeIntoNothing(first);
    assert first == Map(false, first.entries);
    PlainLosesNothing(first, second);
    assert Lossless(MergeAll(files[..0]), files[0]) && Lossless(MergeAll(files[..1]), files[1]);
    LosslessFold(files, 1);
    LosslessFold(files, 2);
  }

  /** The maps the files hold at a key since the last leaf there, passing over files without the key. */
  function Maps(files: seq<Tree>, key: string): seq<Tree> {
    if files == [] then []
    else
      var front, last := files[..|files| - 1], files[|files| - 1].entries;
      if key !in last then Maps(front, key)
      else if last[key].Leaf? then []
      else Maps(front, key) + [last[key]]
  }

  /** The last of an odd number of maps, the last two of an even number. */
  function Kept(ms: seq<Tree>): seq<Tree> {
    if |ms| % 2 == 1 then ms[|ms| - 1..] else if ms == [] then [] else ms[|ms| - 2..]
  }

  lemma PlainEntry(t: Tree, key: string)
    requires Plain(t) && key in t.entries
    ensures Plain(t.entries[key])
  {
  }

  lemma {:induction false} MapsArePlain(files: seq<Tree>, key: string)
    requires AllPlain(files)
    ensures AllPlain(Maps(files, key))
  {
    hide Plain;
    if files != [] {
      var front, last := files[..|files| - 1], files[|files| - 1];
      assert forall i :: 0 <= i < |front| ==> front[i] == files[i];
      MapsArePlain(front, key);
      assert Plain(last);
      if key in last.entries {
        PlainEntry(last, key);
      }
    }
  }

  lemma KeptArePlain(ms: seq<Tree>)
    requires AllPlain(ms)
    ensures AllPlain(Kept(ms))
  {
    hide Plain;
  }

  lemma OneIsItself(m: Tree)
    ensures MergeAll([m]) == m.entries && OverrideAll([m]) == m.entries
  {
    MergeIntoNothing(m);
    assert [m][..0] == [];
    assert Override(map[], m) == m.entries;
  }

  lemma TwoAreMerged(first: Tree, second: Tree)
    ensures MergeAll([first, second]) == Merge(first.entries, second)
  {
    OneIsItself(first);
    assert [first, second][..1] == [first];
  }

  /** The recursive override at a key is the override of all the maps there. */
  lemma {:induction false} EveryMapCounts(files: seq<Tree>, key: string)
    requires AllPlain(files)
    ensures var ms := Maps(files, key);
            if ms == [] then key in OverrideAll(files) ==> OverrideAll(files)[key].Leaf?
            else key in OverrideAll(files) && OverrideAll(files)[key] == Map(false, OverrideAll(ms))
  {
    if files != [] {
      var front, last := files[..|files| - 1], files[|files| - 1];
      EveryMapCounts(front, key);
      assert Plain(last);
      if key in OverrideAll(front) || key in last.entries {
        OverrideAt(OverrideAll(front), last, key);
      }
      if key in last.entries && last.entries[key].Map? {
        var ms, m := Maps(front, key), last.entries[key];
        assert (ms + [m])[..|ms|] == ms;
        OneIsItself(m);
      }
    }
  }

  /** t holds at the key what these maps make of it: an odd map replaces, an even one merges. Without maps it holds what
      the override o holds, which is a leaf or nothing. */
  predicate ReadFrom(t: map<string, Value>, o: map<string, Value>, key: string, ms: seq<Tree>) {
    if ms == [] then Held(t, key) == Held(o, key) && (key in t ==> t[key].Leaf?)
    else key in t && t[key] == Map(|ms| % 2 == 0, MergeAll(Kept(ms)))
  }

  /** What the fold holds at a key is read from the kept maps there. */
  lemma {:induction false} OnlyTheLastTwoSurvive(files: seq<Tree>, key: string)
    requires AllPlain(files)
    ensures ReadFrom(MergeAll(files), OverrideAll(files), key, Maps(files, key))
  {
    if files != [] {
      var front, last := files[..|files| - 1], files[|files| - 1];
      OnlyTheLastTwoSurvive(front, key);
      assert Plain(last);
      hide ReadFrom, Merge, Override, Plain;
      if key in last.entries {
        ReadFromNext(MergeAll(front), OverrideAll(front), last, key, Maps(front, key));
      } else {
        ReadFromSame(MergeAll(front), OverrideAll(front), last, key, Maps(front, key));
      }
    }
  }

  lemma ReadFromSame(t: map<string, Value>, o: map<string, Value>, last: Tree, key: string, ms: seq<Tree>)
    requires ReadFrom(t, o, key, ms) && key !in last.entries
    ensures ReadFrom(Merge(t, last), Override(o, last), key, ms)
  {
    hide MergeAll, Kept;
    if key in t {
      MergeAt(t, last, key);
    }
    if key in o {
      OverrideAt(o, last, key);
    }
  }

  lemma ReadFromNext(t: map<string, Value>, o: map<string, Value>, last: Tree, key: string, ms: seq<Tree>)
    requires ReadFrom(t, o, key, ms) && key in last.entries && Plain(last)
    ensures ReadFrom(Merge(t, last), Override(o, last), key, if last.entries[key].Leaf? then [] else ms + [last.entries[key]])
  {
    var v := last.entries[key];
    assert Plain(v) && (v.Map? ==> v == Map(false, v.entries));
    hide Merge, Override, MergeAll, Kept, Plain, ReadFrom;
    MergeAt(t, last, key);
    OverrideAt(o, last, key);
    if v.Map? {
      ReadFromMap(t, o, Merge(t, last), Override(o, last), key, ms, v);
    } else {
      ReadFromLeaf(Merge(t, last), Override(o, last), key, v);
    }
  }

  lemma ReadFromLeaf(t: map<string, Value>, o: map<string, Value>, key: string, v: Value)
    requires key in t && key in o && t[key] == o[key] == v && v.Leaf?
    ensures ReadFrom(t, o, key, [])
  {
  }

  lemma ReadFromMap(t: map<string, Value>, o: map<string, Value>, t': map<string, Value>, o': map<string, Value>,
                    key: string, ms: seq<Tree>, v: Tree)
    requires ReadFrom(t, o, key, ms) && !v.merged && key in t'
    requires t'[key] == if key in t && Mergeable(t[key]) then Map(true, Merge(t[key].entries, v)) else v
    ensures ReadFrom(t', o', key, ms + [v])
  {
    hide Merge, MergeAll, Kept;
    KeptGrows(ms, v);
    assert v == Map(false, v.entries);
  }

  lemma KeptEnds(ms: seq<Tree>, m: Tree)
    ensures |ms| % 2 == 0 ==> Kept(ms + [m]) == [m]
    ensures |ms| % 2 == 1 ==> Kept(ms) == [ms[|ms| - 1]] && Kept(ms + [m]) == [ms[|ms| - 1], m]
  {
    LastOf(ms, m);
    if |ms| % 2 == 1 {
      var front, last := ms[..|ms| - 1], ms[|ms| - 1];
      LastOf(front, last);
      assert front + [last] == ms;
      LastTwoOf(front, last, m);
      assert |ms + [m]| % 2 == 0 && ms + [m] != [];
    } else {
      assert |ms + [m]| % 2 == 1;
    }
  }

  lemma LastOf(front: seq<Tree>, last: Tree)
    ensures (front + [last])[|front + [last]| - 1..] == [last]
  {
  }

  lemma LastTwoOf(front: seq<Tree>, last: Tree, m: Tree)
    ensures (front + [last] + [m])[|front + [last] + [m]| - 2..] == [last, m]
  {
  }

  lemma KeptGrows(ms: seq<Tree>, m: Tree)
    ensures MergeAll(Kept(ms + [m])) ==
            if |ms| % 2 == 0 then m.entries else Merge(MergeAll(Kept(ms)), m)
  {
    hide MergeAll, Merge, Kept;
    KeptEnds(ms, m);
    OneIsItself(m);
    if |ms| % 2 == 1 {
      OneIsItself(ms[|ms| - 1]);
      TwoAreMerged(ms[|ms| - 1], m);
    }
  }

  /** Erased, the kept maps are their override: there are at most two of them. */
  lemma KeptOverride(ms: seq<Tree>)
    requires AllPlain(Kept(ms)) && ms != []
    ensures EraseAll(MergeAll(Kept(ms))) == OverrideAll(Kept(ms))
  {
    var kept := Kept(ms);
    assert Plain(kept[0]);
    if |kept| == 1 {
      assert kept == [kept[0]];
      TwoFilesOverride(kept[0], kept[0]);
    } else {
      assert Plain(kept[1]) && kept == [kept[0], kept[1]];
      TwoFilesOverride(kept[0], kept[1]);
    }
  }

  /** At this key the kept maps override to what all the maps override to. */
  predicate NothingLost(files: seq<Tree>, key: string) {
    OverrideAll(Kept(Maps(files, key))) == OverrideAll(Maps(files, key))
  }

  lemma HeldIsOverrideExactly(files: seq<Tree>, key: string)
    requires AllPlain(files)
    ensures Held(EraseAll(MergeAll(files)), key) == Held(OverrideAll(files), key) <==> NothingLost(files, key)
  {
    var ms := Maps(files, key);
    OnlyTheLastTwoSurvive(files, key);
    EveryMapCounts(files, key);
    MapsArePlain(files, key);
    KeptArePlain(ms);
    hide MergeAll, OverrideAll, Maps, AllPlain, Kept;
    if ms == [] {
      KeptNone();
    } else {
      KeptOverride(ms);
      EraseMap(MergeAll(files)[key]);
    }
  }

  lemma KeptNone()
    ensures Kept([]) == []
  {
  }

  /** The values Helm gets are the recursive override of the files exactly when, at every key, the last one or two of the
      maps the files hold there since the last leaf override to what all of them override to. */
  lemma FoldIsOverrideExactly(files: seq<Tree>)
    requires AllPlain(files)
    ensures EraseAll(MergeAll(files)) == OverrideAll(files) <==> forall key :: NothingLost(files, key)
  {
    var x, y := EraseAll(MergeAll(files)), OverrideAll(files);
    forall key
      ensures Held(x, key) == Held(y, key) <==> NothingLost(files, key)
    {
      HeldIsOverrideExactly(files, key);
    }
    hide MergeAll, OverrideAll, EraseAll, AllPlain, Held, NothingLost;
    if forall key :: NothingLost(files, key) {
      forall key
        ensures Held(x, key) == Held(y, key)
      {
        assert NothingLost(files, key);
      }
      SameHeld(x, y);
    }
  }

  lemma SameHeld(x: map<string, Value>, y: map<string, Value>)
    requires forall key :: Held(x, key) == Held(y, key)
    ensures x == y
  {
    forall key
      ensures key in x <==> key in y
      ensures key in x ==> x[key] == y[key]
    {
      assert Held(x, key) == Held(y, key);
    }
  }

  /** A file that says key under "a", and nothing else. */
  function UnderA(key: string, text: string): (t: Tree)
    ensures Plain(t)
  {
    var inner := Map(false, map[key := Leaf(text)]);
    assert Plain(inner);
    Map(false, map["a" := inner])
  }

  lemma ThreeOverride(first: string, second: string, third: string)
    ensures At(OverrideAll([UnderA("x", first), UnderA("y", second), UnderA("z", third)]), ["a", "x"]) == Text(first)
  {
    var one, two, three := UnderA("x", first), UnderA("y", second), UnderA("z", third);
    assert [one, two, three][..2] == [one, two] && [one, two][..1] == [one] && [one][..0] == [];
    assert ["a", "x"][1..] == ["x"];
    assert At(three.entries, ["a", "x"]) == At(two.entries, ["a", "x"]) == Absent && At(one.entries, ["a", "x"]) == Text(first);
    hide At, Override, UnderA;
    OneIsItself(one);
    OverrideAtEveryPath(OverrideAll([one, two]), three, ["a", "x"]);
    OverrideAtEveryPath(OverrideAll([one]), two, ["a", "x"]);
  }

  lemma MapsGrow(files: seq<Tree>, last: Tree, key: string)
    requires key in last.entries && last.entries[key].Map?
    ensures Maps(files + [last], key) == Maps(files, key) + [last.entries[key]]
  {
    assert (files + [last])[..|files|] == files;
  }

  lemma ThreeMaps(one: Tree, two: Tree, three: Tree)
    requires "a" in one.entries && "a" in two.entries && "a" in three.entries
    requires one.entries["a"].Map? && two.entries["a"].Map? && three.entries["a"].Map?
    ensures Kept(Maps([one, two, three], "a")) == [three.entries["a"]]
  {
    MapsGrow([], one, "a");
    assert [] + [one] == [one] && [one] + [two] == [one, two] && [one, two] + [three] == [one, two, three];
    hide Maps;
    MapsGrow([one], two, "a");
    MapsGrow([one, two], three, "a");
  }

  /** With three files the fold and the override part: what the first file says is gone. */
  lemma ThirdFileLosesTheFirst(first: string, second: string, third: string)
    ensures var files := [UnderA("x", first), UnderA("y", second), UnderA("z", third)];
            At(MergeAll(files), ["a", "x"]) == Absent && At(OverrideAll(files), ["a", "x"]) == Text(first)
  {
    var one, two, three := UnderA("x", first), UnderA("y", second), UnderA("z", third);
    var files := [one, two, three];
    ThreeOverride(first, second, third);
    ThreeMaps(one, two, three);
    OnlyTheLastTwoSurvive(files, "a");
    OneIsItself(three.entries["a"]);
    hide MergeAll, OverrideAll, Maps, Kept;
    assert Maps(files, "a") != [] by {
      MapsPresent(files, "a");
    }
    assert ["a", "x"][1..] == ["x"];
  }

  lemma MapsPresent(files: seq<Tree>, key: string)
    requires Kept(Maps(files, key)) != []
    ensures Maps(files, key) != []
  {
    hide Maps;
  }

  // Reading the files

  datatype LoadError = Canceled | BadPath(path: PathError) | Unreadable

  /** Every file resolved and decoded, or what stops the first one that cannot be. `canceled` says of each file whether the
      context has ended when its turn comes. */
  function Load(root: string, files: seq<string>, read: string -> Option<Tree>, canceled: nat -> bool): Result<seq<Tree>, LoadError> {
    if files == [] then Ok([])
    else
      var last := files[|files| - 1];
      var before := Load(root, files[..|files| - 1], read, canceled);
      if before.Err? then before
      else if canceled(|files| - 1) then Err(Canceled)
      else if ResolveWithinRoot(root, last).Err? then Err(BadPath(ResolveWithinRoot(root, last).error))
      else if read(ResolveWithinRoot(root, last).value).None? then Err(Unreadable)
      else Ok(before.value + [read(ResolveWithinRoot(root, last).value).value])
  }

  lemma {:induction false} LoadFailsEarly(root: string, files: seq<string>, read: string -> Option<Tree>, canceled: nat -> bool, n: nat)
    requires n <= |files| && Load(root, files[..n], read, canceled).Err?
    ensures Load(root, files, read, canceled) == Load(root, files[..n], read, canceled)
    decreases |files|
  {
    if n < |files| {
      assert files[..|files| - 1][..n] == files[..n];
      LoadFailsEarly(root, files[..|files| - 1], read, canceled, n);
    } else {
      assert files[..n] == files;
    }
  }

  /** readHelmValues. `read` opens and decodes a file. */
  method ReadHelmValues(root: string, files: seq<string>, read: string -> Option<Tree>, canceled: nat -> bool)
    returns (r: Result<map<string, Value>, LoadError>)
    ensures r == match Load(root, files, read, canceled)
                 case Ok(trees) => Ok(MergeAll(trees))
                 case Err(e) => Err(e)
  {
    hide Load, MergeAll, Merge, ResolveWithinRoot;
    var merged := new Values(map[]);
    ghost var trees: seq<Tree> := [];
    LoadNothing(root, read, canceled);
    for i := 0 to |files|
      invariant Load(root, files[..i], read, canceled) == Ok(trees)
      invariant merged.entries == MergeAll(trees)
      invariant fresh(merged)
    {
      LoadNext(root, files, read, canceled, i, trees);
      if canceled(i) {
        return Err(Canceled);
      }
      var path := ResolveWithinRoot(root, files[i]);
      if path.Err? {
        return Err(BadPath(path.error));
      }
      var decoded := read(path.value);
      if decoded.None? {
        return Err(Unreadable);
      }
      merged.DeepMerge(decoded.value);
      MergeNext(trees, decoded.value);
      trees := trees + [decoded.value];
    }
    assert files[..|files|] == files;
    return Ok(merged.entries);
  }

  lemma LoadNothing(root: string, read: string -> Option<Tree>, canceled: nat -> bool)
    ensures Load(root, [], read, canceled) == Ok([]) && MergeAll([]) == map[]
  {
  }

  lemma MergeNext(trees: seq<Tree>, next: Tree)
    ensures MergeAll(trees + [next]) == Merge(MergeAll(trees), next)
  {
    assert (trees + [next])[..|trees|] == trees;
  }

  /** The first file that cannot be had decides the answer for all of them, and a canceled context comes before the file. */
  lemma LoadNext(root: string, files: seq<string>, read: string -> Option<Tree>, canceled: nat -> bool, i: nat, trees: seq<Tree>)
    requires i < |files| && Load(root, files[..i], read, canceled) == Ok(trees)
    ensures var path := ResolveWithinRoot(root, files[i]);
            if canceled(i) then Load(root, files, read, canceled) == Err(Canceled)
            else if path.Err? then Load(root, files, read, canceled) == Err(BadPath(path.error))
            else if read(path.value).None? then Load(root, files, read, canceled) == Err(Unreadable)
            else Load(root, files[..i + 1], read, canceled) == Ok(trees + [read(path.value).value])
  {
    assert files[..i + 1][..i] == files[..i];
    if Load(root, files[..i + 1], read, canceled).Err? {
      LoadFailsEarly(root, files, read, canceled, i + 1);
    }
  }
}
