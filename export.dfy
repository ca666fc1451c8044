/** The canvas registry and the archive naming of the export (App.js:182-189,
    331-333): every slide's canvas, once drawn, is recorded under its slide
    index; the export takes the recorded canvases in ascending index order
    (the order `Object.values` gives integer keys) and names the image at
    position `i` `slide-<i+1>.png`. */
module Export {
  import opened Text
  import opened Slide

  /** One file of the archive: its name and the canvas its image comes from. */
  datatype Entry = Entry(name: String, canvas: Canvas)

  function EntryName(position: nat): String
  {
    "slide-" + DecimalString(position + 1) + ".png"
  }

  /** File names of different positions differ. */
  lemma EntryNamesDistinct(i: nat, j: nat)
    requires EntryName(i) == EntryName(j)
    ensures i == j
  {
    var a := EntryName(i);
    var b := EntryName(j);
    assert a[6..|a| - 4] == DecimalString(i + 1);
    assert b[6..|b| - 4] == DecimalString(j + 1);
    DecimalInjective(i + 1, j + 1);
  }

  /** The keys are exactly the indices `0 .. n-1`. */
  ghost predicate IsRange(keys: set<nat>, n: nat)
  {
    forall k: nat :: k in keys <==> k < n
  }

  ghost function Least(keys: set<nat>): (m: nat)
    requires keys != {}
    ensures m in keys && forall k :: k in keys ==> m <= k
  {
    var x :| x in keys;
    var rest := keys - {x};
    if rest == {} then
      assert forall k :: k in keys ==> k == x by {
        forall k | k in keys ensures k == x { assert k !in rest; }
      }
      x
    else
      var y := Least(rest);
      assert forall k :: k in keys ==> k == x || k in rest;
      if x < y then x else y
  }

  predicate StrictlyIncreasing(r: seq<nat>)
  {
    forall i, j :: 0 <= i < j < |r| ==> r[i] < r[j]
  }

  /** The keys in ascending order. */
  ghost function SortedKeys(keys: set<nat>): (r: seq<nat>)
    ensures |r| == |keys| && StrictlyIncreasing(r)
    ensures forall i :: 0 <= i < |r| ==> r[i] in keys
    ensures forall k :: k in keys ==> k in r
    decreases |keys|
  {
    if keys == {} then []
    else
      var m := Least(keys);
      var rest := SortedKeys(keys - {m});
      ConsSorted(keys, m, rest);
      [m] + rest
  }

  /** The least key followed by the other keys in ascending order is all
      the keys in ascending order. */
  lemma ConsSorted(keys: set<nat>, m: nat, rest: seq<nat>)
    requires m in keys && forall k :: k in keys ==> m <= k
    requires |rest| == |keys - {m}| && StrictlyIncreasing(rest)
    requires forall i :: 0 <= i < |rest| ==> rest[i] in keys - {m}
    requires forall k :: k in keys - {m} ==> k in rest
    ensures |[m] + rest| == |keys| && StrictlyIncreasing([m] + rest)
    ensures forall i :: 0 <= i < |[m] + rest| ==> ([m] + rest)[i] in keys
    ensures forall k :: k in keys ==> k in [m] + rest
  {
    assert forall i :: 0 <= i < |rest| ==> m < rest[i] by {
      forall i | 0 <= i < |rest| ensures m < rest[i] { assert rest[i] in keys; }
    }
    forall k | k in keys ensures k in [m] + rest {
      if k != m { assert k in keys - {m}; }
    }
  }

  /** The archive of a registry: its canvases in ascending index order, each
      named after its position. */
  ghost function Archive(canvases: map<nat, Canvas>): (entries: seq<Entry>)
    ensures |entries| == |canvases.Keys|
    ensures forall i :: 0 <= i < |entries| ==> entries[i].name == EntryName(i) && entries[i].canvas in canvases.Values
  {
    var keys := SortedKeys(canvases.Keys);
    seq(|keys|, i requires 0 <= i < |keys| => Entry(EntryName(i), canvases[keys[i]]))
  }

  /** The order in which `Object.values` visits integer keys: ascending. */
  method AscendingKeys(keys: set<nat>) returns (ordered: seq<nat>)
    ensures ordered == SortedKeys(keys)
  {
    var remaining := keys;
    ordered := [];
    while remaining != {}
      invariant remaining <= keys
      invariant SortedKeys(keys) == ordered + SortedKeys(remaining)
      decreases |remaining|
    {
      ghost var least := Least(remaining);
      var k :| k in remaining && forall j :: j in remaining ==> k <= j;
      assert k == least by {
        assert k <= least && least <= k;
      }
      NextKey(keys, ordered, remaining);
      ordered := ordered + [k];
      remaining := remaining - {k};
    }
    assert SortedKeys(remaining) == [];
  }

  /** One step of the ordering loop: the least remaining index is the next
      key in ascending order. */
  lemma NextKey(keys: set<nat>, ordered: seq<nat>, remaining: set<nat>)
    requires remaining != {}
    requires SortedKeys(keys) == ordered + SortedKeys(remaining)
    ensures var k := Least(remaining);
            SortedKeys(keys) == (ordered + [k]) + SortedKeys(remaining - {k})
  {
    var k := Least(remaining);
    assert SortedKeys(remaining) == [k] + SortedKeys(remaining - {k});
    AppendAssoc(ordered, [k], SortedKeys(remaining - {k}));
  }

  /** The export loop: the registered canvases visited in key order, each
      image filed under its position in that order. */
  method EntriesOf(canvases: map<nat, Canvas>) returns (entries: seq<Entry>)
    ensures entries == Archive(canvases)
  {
    var keys := AscendingKeys(canvases.Keys);
    ghost var archive := Archive(canvases);
    entries := [];
    for i := 0 to |keys|
      invariant entries == archive[..i]
    {
      PrefixExtend(archive, i);
      entries := entries + [Entry(EntryName(i), canvases[keys[i]])];
    }
    PrefixFull(archive);
  }

  /** `canvasMap`: the canvas of every slide drawn so far, by slide index. */
  class CanvasRegistry {
    var canvases: map<nat, Canvas>

    constructor()
      ensures canvases == map[]
    {
      canvases := map[];
    }

    /** `onCanvasReady`: records (or replaces) the canvas of one slide; no
        other index is touched, and nothing is ever removed. */
    method Register(index: nat, canvas: Canvas)
      modifies this
      ensures canvases == old(canvases)[index := canvas]
    {
      canvases := canvases[index := canvas];
    }

    /** What the export writes into the archive, as the source does it:
        every canvas ever registered. */
    method ExportEntries() returns (entries: seq<Entry>)
      ensures entries == Archive(canvases)
    {
      entries := EntriesOf(canvases);
    }

    /** The export restricted to the slides currently shown. */
    method ExportSlides(slideCount: nat) returns (entries: seq<Entry>)
      ensures entries == CurrentArchive(canvases, slideCount)
    {
      entries := EntriesOf(Shown(canvases, slideCount));
    }
  }

  /** The registry after the canvases `latest` have been registered, one
      after the other, under indices `0 .. |latest|-1`: those indices now
      hold the new canvases, and every other index keeps its old one. */
  function Registered(before: map<nat, Canvas>, latest: seq<Canvas>): (after: map<nat, Canvas>)
    ensures forall k: nat :: k in after <==> k in before || k < |latest|
    ensures forall k: nat :: k < |latest| ==> k in after && after[k] == latest[k]
    ensures forall k: nat :: k in before && |latest| <= k ==> after[k] == before[k]
  {
    if latest == [] then before
    else
      var n := |latest| - 1;
      Registered(before, latest[..n])[n := latest[n]]
  }

  /** The canvases of the slides `0 .. slideCount-1` only. */
  function Shown(canvases: map<nat, Canvas>, slideCount: nat): map<nat, Canvas>
  {
    map k | k in canvases && k < slideCount :: canvases[k]
  }

  ghost function CurrentArchive(canvases: map<nat, Canvas>, slideCount: nat): seq<Entry>
  {
    Archive(Shown(canvases, slideCount))
  }

  /** One render pass: every slide drawn on its own canvas, then registered
      under its index, in slide order. */
  method RenderSlides(registry: CanvasRegistry, surfaces: seq<Canvas>, slides: seq<String>, fontSize: nat,
                      family: String, signature: String, metrics: Metrics, upper: String -> String)
    requires |surfaces| == |slides|
    requires forall i, j :: 0 <= i < j < |surfaces| ==> surfaces[i] != surfaces[j]
    modifies registry, surfaces
    ensures registry.canvases == Registered(old(registry.canvases), surfaces)
    ensures forall i :: 0 <= i < |slides| ==>
              surfaces[i].commands == DisplayList(slides[i], i, fontSize, family, signature, metrics, upper)
  {
    ghost var before := registry.canvases;
    for i := 0 to |slides|
      invariant registry.canvases == Registered(before, surfaces[..i])
      invariant forall j :: 0 <= j < i ==>
                  surfaces[j].commands == DisplayList(slides[j], j, fontSize, family, signature, metrics, upper)
    {
      Draw(surfaces[i], slides[i], i, fontSize, family, signature, metrics, upper);
      registry.Register(i, surfaces[i]);
      RegisteredStep(before, surfaces, i);
    }
    PrefixFull(surfaces);
  }

  /** Registering one more canvas extends the registry by that index. */
  lemma RegisteredStep(before: map<nat, Canvas>, latest: seq<Canvas>, i: nat)
    requires i < |latest|
    ensures Registered(before, latest[..i + 1]) == Registered(before, latest[..i])[i := latest[i]]
  {
    assert latest[..i + 1][..i] == latest[..i];
  }

  lemma {:induction false} IncreasingLower(r: seq<nat>, i: nat)
    requires StrictlyIncreasing(r) && i < |r|
    ensures i <= r[i]
  {
    if i > 0 { IncreasingLower(r, i - 1); }
  }

  lemma {:induction false} IncreasingUpper(r: seq<nat>, n: nat, i: nat)
    requires StrictlyIncreasing(r) && i < |r|
    requires forall j :: 0 <= j < |r| ==> r[j] < n
    ensures r[i] + (|r| - 1 - i) < n
    decreases |r| - i
  {
    if i + 1 < |r| { IncreasingUpper(r, n, i + 1); }
  }

  /** The indices `0 .. n-1` in ascending order are `0, 1, .., n-1`. */
  lemma RangeSorted(keys: set<nat>, n: nat)
    requires IsRange(keys, n)
    ensures |SortedKeys(keys)| == n && forall i :: 0 <= i < n ==> SortedKeys(keys)[i] == i
  {
    var r := SortedKeys(keys);
    RangeSize(keys, n);
    assert forall j :: 0 <= j < |r| ==> r[j] < n by {
      forall j | 0 <= j < |r| ensures r[j] < n { assert r[j] in keys; }
    }
    forall i | 0 <= i < n ensures r[i] == i {
      IncreasingLower(r, i);
      IncreasingUpper(r, n, i);
    }
  }

  lemma {:induction false} RangeSize(keys: set<nat>, n: nat)
    requires IsRange(keys, n)
    ensures |keys| == n
  {
    if n > 0 {
      var smaller := keys - {n - 1};
      RangeSize(smaller, n - 1);
      assert keys == smaller + {n - 1};
    } else {
      assert forall k :: k !in keys;
    }
  }

  /** When the registry holds exactly the slides `0 .. n-1`, the archive is
      `slide-1.png` .. `slide-n.png`, file `i` showing slide `i`. */
  lemma ArchiveOfRange(canvases: map<nat, Canvas>, n: nat)
    requires IsRange(canvases.Keys, n)
    ensures Archive(canvases) == seq(n, i requires 0 <= i < n => Entry(EntryName(i), canvases[i]))
  {
    RangeSorted(canvases.Keys, n);
  }

  /** No two files of an archive share a name. */
  lemma ArchiveNamesDistinct(canvases: map<nat, Canvas>)
    ensures forall i, j :: 0 <= i < j < |Archive(canvases)| ==> Archive(canvases)[i].name != Archive(canvases)[j].name
  {
    forall i, j | 0 <= i < j < |Archive(canvases)| ensures Archive(canvases)[i].name != Archive(canvases)[j].name {
      if EntryName(i) == EntryName(j) { EntryNamesDistinct(i, j); }
    }
  }

  /** The registry is never cleared: after a render of fewer slides than an
      earlier render, the export still writes one file per earlier slide,
      and the files past the current slide count show stale canvases. */
  lemma StaleCanvasesExported(before: map<nat, Canvas>, m: nat, latest: seq<Canvas>)
    requires IsRange(before.Keys, m) && |latest| < m
    ensures |Archive(Registered(before, latest))| == m
    ensures Archive(Registered(before, latest))[|latest|] == Entry(EntryName(|latest|), before[|latest|])
  {
    var after := Registered(before, latest);
    assert IsRange(after.Keys, m);
    ArchiveOfRange(after, m);
  }

  /** Restricted to the slides shown, the export after a render pass holds
      exactly one file per slide, in slide order, each from that render,
      whatever the registry held before. */
  lemma CurrentArchiveExact(before: map<nat, Canvas>, latest: seq<Canvas>)
    ensures CurrentArchive(Registered(before, latest), |latest|) ==
            seq(|latest|, i requires 0 <= i < |latest| => Entry(EntryName(i), latest[i]))
  {
    var shown := Shown(Registered(before, latest), |latest|);
    assert IsRange(shown.Keys, |latest|);
    ArchiveOfRange(shown, |latest|);
  }
}
