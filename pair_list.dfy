/** The pair-list indexer (`MVSDataset.build_list`): turns each scene's pair
    file into the ordered list of evaluation entries and resolves the
    interval scale of every scene.

    A pair file is given already split into lines and each line into numeric
    tokens: line 0 holds the viewpoint count, then every viewpoint takes two
    lines, its reference-view id and its source line
    `count id0 score0 id1 score1 ...`. Reading past the end of the file
    yields an empty line, as Python's `readline` does. */
module PairList {
  import opened Common

  type PairLines = seq<seq<int>>

  /** One evaluation entry: (scan, ref_view, src_views, scene_name). */
  datatype Meta = Meta(scan: string, refView: int, srcViews: seq<int>, sceneKey: string)

  /** The interval scale argument: one float for every scene, or a table. */
  datatype IntervalScale = Uniform(scale: real) | PerScene(table: map<string, real>)

  datatype BuildError =
    | MissingIntervalScale(scan: string)   // KeyError on the per-scene table
    | MissingPairFile(scan: string)        // `open` fails
    | MalformedLine(scan: string, line: nat) // `int(...)` on a line that is not one integer

  /** Line `k` of the file, or the empty line once past its end. */
  function LineAt(lines: PairLines, k: nat): (l: seq<int>)
    ensures k >= |lines| ==> l == []
  {
    if k < |lines| then lines[k] else []
  }

  /** The tokens at odd positions, `tokens[1::2]`: the source-view ids
      without the leading count and without the scores. */
  function OddTokens(t: seq<int>): seq<int>
    decreases |t|
  {
    if |t| < 2 then [] else [t[1]] + OddTokens(t[2..])
  }

  lemma {:induction false} OddTokensAt(t: seq<int>)
    ensures |OddTokens(t)| == |t| / 2
    ensures forall k :: 0 <= k < |t| / 2 ==> OddTokens(t)[k] == t[2 * k + 1]
    decreases |t|
  {
    if |t| >= 2 {
      var rest := OddTokens(t[2..]);
      OddTokensAt(t[2..]);
      assert OddTokens(t) == [t[1]] + rest;
      assert |t[2..]| / 2 == |t| / 2 - 1;
      forall k | 0 < k < |t| / 2
        ensures OddTokens(t)[k] == t[2 * k + 1]
      {
        assert OddTokens(t)[k] == rest[k - 1];
        assert t[2..][2 * (k - 1) + 1] == t[2 * k + 1];
      }
    }
  }

  function Repeat(x: int, n: nat): (r: seq<int>)
    ensures |r| == n && forall k :: 0 <= k < n ==> r[k] == x
  {
    seq(n, _ => x)
  }

  /** `src_views += [src_views[0]] * (nviews - len(src_views))` when the list is
      non-empty and shorter than `nviews`. */
  function PadWithFirst(src: seq<int>, nviews: int): (p: seq<int>)
    ensures src != [] && |src| < nviews ==> |p| == nviews
    ensures src == [] || |src| >= nviews ==> p == src
    ensures |src| <= |p| && p[..|src|] == src
    ensures forall k :: |src| <= k < |p| ==> p[k] == src[0]
  {
    if 0 < |src| < nviews then src + Repeat(src[0], nviews - |src|) else src
  }

  /** The source-view ids listed for viewpoint `j`, before padding. */
  function SourceIds(lines: PairLines, j: nat): seq<int>
  {
    OddTokens(LineAt(lines, 2 + 2 * j))
  }

  /** The entry that viewpoint `j` of `scan` contributes when it has sources. */
  function EntryAt(scan: string, lines: PairLines, nviews: int, j: nat): Meta
    requires |LineAt(lines, 1 + 2 * j)| == 1
  {
    Meta(scan, LineAt(lines, 1 + 2 * j)[0], PadWithFirst(SourceIds(lines, j), nviews), scan)
  }

  /** The entry of viewpoint `j` of `scan`, if any: Err when its reference
      line is not a single integer, Ok([]) when it has no source view. */
  function ViewpointEntry(scan: string, lines: PairLines, nviews: int, j: nat): Result<seq<Meta>, BuildError>
  {
    if |LineAt(lines, 1 + 2 * j)| != 1 then Err(MalformedLine(scan, 1 + 2 * j))
    else if SourceIds(lines, j) == [] then Ok([])
    else Ok([EntryAt(scan, lines, nviews, j)])
  }

  /** The entries of the first `v` viewpoints of `scan`, in file order. */
  function ViewpointEntries(scan: string, lines: PairLines, nviews: int, v: nat): Result<seq<Meta>, BuildError>
  {
    if v == 0 then Ok([])
    else match ViewpointEntries(scan, lines, nviews, v - 1)
      case Err(e) => Err(e)
      case Ok(ms) =>
        match ViewpointEntry(scan, lines, nviews, v - 1)
        case Err(e) => Err(e)
        case Ok(m) => Ok(ms + m)
  }

  /** The viewpoints among the first `v` that list at least one source view,
      in file order. */
  function WithSources(lines: PairLines, v: nat): seq<nat>
  {
    if v == 0 then []
    else WithSources(lines, v - 1) + (if SourceIds(lines, v - 1) == [] then [] else [v - 1])
  }

  lemma {:induction false} WithSourcesSorted(lines: PairLines, v: nat)
    ensures forall i :: 0 <= i < |WithSources(lines, v)| ==> WithSources(lines, v)[i] < v
    ensures forall i, i' :: 0 <= i < i' < |WithSources(lines, v)| ==> WithSources(lines, v)[i] < WithSources(lines, v)[i']
  {
    if v > 0 {
      WithSourcesSorted(lines, v - 1);
    }
  }

  lemma {:induction false} WithSourcesMembers(lines: PairLines, v: nat)
    ensures forall j :: j in WithSources(lines, v) <==> 0 <= j < v && SourceIds(lines, j) != []
  {
    if v > 0 {
      WithSourcesMembers(lines, v - 1);
    }
  }

  /** Reading the first `v` viewpoints succeeds exactly when each of their
      reference lines is one integer. */
  lemma {:induction false} ViewpointEntriesOk(scan: string, lines: PairLines, nviews: int, v: nat)
    ensures ViewpointEntries(scan, lines, nviews, v).Ok? <==> forall j :: 0 <= j < v ==> |LineAt(lines, 1 + 2 * j)| == 1
  {
    if v > 0 {
      ViewpointEntriesOk(scan, lines, nviews, v - 1);
    }
  }

  /** When reading succeeds it yields one entry per viewpoint with sources,
      in file order, and none for the others. */
  lemma {:induction false} ViewpointEntriesInOrder(scan: string, lines: PairLines, nviews: int, v: nat)
    requires ViewpointEntries(scan, lines, nviews, v).Ok?
    ensures var ms := ViewpointEntries(scan, lines, nviews, v).value;
      var js := WithSources(lines, v);
      && |ms| == |js|
      && forall i :: 0 <= i < |ms| ==> |LineAt(lines, 1 + 2 * js[i])| == 1 && ms[i] == EntryAt(scan, lines, nviews, js[i])
  {
    if v > 0 {
      var prev := ViewpointEntries(scan, lines, nviews, v - 1);
      var e := ViewpointEntry(scan, lines, nviews, v - 1);
      assert prev.Ok? && e.Ok?;
      assert ViewpointEntries(scan, lines, nviews, v).value == prev.value + e.value;
      ViewpointEntriesInOrder(scan, lines, nviews, v - 1);
      var js := WithSources(lines, v - 1);
      var js' := WithSources(lines, v);
      if SourceIds(lines, v - 1) != [] {
        assert e.value == [EntryAt(scan, lines, nviews, v - 1)];
        assert js' == js + [v - 1];
      } else {
        assert e.value == [];
        assert js' == js;
      }
    }
  }

  /** Every entry of a scan names that scan twice and lists at least `nviews`
      source views, the listed ids first. */
  lemma EntryShape(scan: string, lines: PairLines, nviews: int, j: nat)
    requires |LineAt(lines, 1 + 2 * j)| == 1 && SourceIds(lines, j) != []
    ensures var m := EntryAt(scan, lines, nviews, j);
      && m.scan == scan && m.sceneKey == scan
      && m.refView == LineAt(lines, 1 + 2 * j)[0]
      && |m.srcViews| >= nviews && |m.srcViews| >= 1
      && m.srcViews[..|SourceIds(lines, j)|] == SourceIds(lines, j)
  {
  }

  /** `range(num_viewpoint)`: a negative count reads no viewpoint. */
  function ViewpointCount(lines: PairLines): (n: nat)
    requires |LineAt(lines, 0)| == 1
  {
    if LineAt(lines, 0)[0] < 0 then 0 else LineAt(lines, 0)[0]
  }

  /** All entries of one scan's pair file. */
  function ScanEntries(scan: string, lines: PairLines, nviews: int): Result<seq<Meta>, BuildError>
  {
    if |LineAt(lines, 0)| != 1 then Err(MalformedLine(scan, 0))
    else ViewpointEntries(scan, lines, nviews, ViewpointCount(lines))
  }

  /** The interval scale resolved for one scan. */
  function ScaleOf(spec: IntervalScale, scan: string): Result<real, BuildError>
  {
    match spec
    case Uniform(s) => Ok(s)
    case PerScene(t) => if scan in t then Ok(t[scan]) else Err(MissingIntervalScale(scan))
  }

  datatype Index = Index(metas: seq<Meta>, scales: map<string, real>)

  /** What `build_list` computes for the first `k` scans. */
  function Build(scans: seq<string>, files: map<string, PairLines>, spec: IntervalScale, nviews: int, k: nat): Result<Index, BuildError>
    requires k <= |scans|
  {
    if k == 0 then Ok(Index([], map[]))
    else match Build(scans, files, spec, nviews, k - 1)
      case Err(e) => Err(e)
      case Ok(ix) =>
        var scan := scans[k - 1];
        match ScaleOf(spec, scan)
        case Err(e) => Err(e)
        case Ok(s) =>
          if scan !in files then Err(MissingPairFile(scan))
          else match ScanEntries(scan, files[scan], nviews)
            case Err(e) => Err(e)
            case Ok(ms) => Ok(Index(ix.metas + ms, ix.scales[scan := s]))
  }

  lemma {:induction false} ViewpointErrorStops(scan: string, lines: PairLines, nviews: int, v: nat, u: nat)
    requires v <= u && ViewpointEntries(scan, lines, nviews, v).Err?
    ensures ViewpointEntries(scan, lines, nviews, u) == ViewpointEntries(scan, lines, nviews, v)
    decreases u - v
  {
    if v < u {
      ViewpointErrorStops(scan, lines, nviews, v + 1, u);
    }
  }

  lemma {:induction false} BuildErrorStops(scans: seq<string>, files: map<string, PairLines>, spec: IntervalScale, nviews: int, k: nat, m: nat)
    requires k <= m <= |scans| && Build(scans, files, spec, nviews, k).Err?
    ensures Build(scans, files, spec, nviews, m) == Build(scans, files, spec, nviews, k)
    decreases m - k
  {
    if k < m {
      BuildErrorStops(scans, files, spec, nviews, k + 1, m);
    }
  }

  /** Every entry read from a scan's pair file names that scan twice and
      carries at least `nviews` source views (and at least one). */
  lemma ScanEntriesShape(scan: string, lines: PairLines, nviews: int)
    requires ScanEntries(scan, lines, nviews).Ok?
    ensures forall m :: m in ScanEntries(scan, lines, nviews).value ==>
      m.scan == scan && m.sceneKey == scan && |m.srcViews| >= nviews && |m.srcViews| >= 1
  {
    var v := ViewpointCount(lines);
    var ms := ViewpointEntries(scan, lines, nviews, v).value;
    assert ScanEntries(scan, lines, nviews).value == ms;
    ViewpointEntriesInOrder(scan, lines, nviews, v);
    WithSourcesMembers(lines, v);
    var js := WithSources(lines, v);
    forall i | 0 <= i < |ms|
      ensures ms[i].scan == scan && ms[i].sceneKey == scan && |ms[i].srcViews| >= nviews && |ms[i].srcViews| >= 1
    {
      assert js[i] in js;
      EntryShape(scan, lines, nviews, js[i]);
    }
  }

  /** What `build_list` leaves behind: a scale for exactly the listed scans,
      each resolved from the interval-scale argument, and entries whose scene
      key has a scale and whose source list is padded to `nviews`. */
  lemma {:induction false} BuildSpec(scans: seq<string>, files: map<string, PairLines>, spec: IntervalScale, nviews: int, k: nat)
    requires k <= |scans| && Build(scans, files, spec, nviews, k).Ok?
    ensures var ix := Build(scans, files, spec, nviews, k).value;
      && (forall s :: s in ix.scales <==> s in scans[..k])
      && (forall s :: s in ix.scales ==> ScaleOf(spec, s) == Ok(ix.scales[s]))
      && (forall m :: m in ix.metas ==>
            m.sceneKey in ix.scales && m.scan == m.sceneKey && |m.srcViews| >= nviews && |m.srcViews| >= 1)
  {
    if k > 0 {
      BuildSpec(scans, files, spec, nviews, k - 1);
      var scan := scans[k - 1];
      ScanEntriesShape(scan, files[scan], nviews);
      assert scans[..k] == scans[..k - 1] + [scan];
    }
  }

  /** Indexing `k` scans succeeds only if indexing the first `k - 1` does
      and scan `k - 1`'s pair file reads; its entries are then appended. */
  lemma BuildStep(scans: seq<string>, files: map<string, PairLines>, spec: IntervalScale, nviews: int, k: nat)
    requires 0 < k <= |scans| && Build(scans, files, spec, nviews, k).Ok?
    ensures Build(scans, files, spec, nviews, k - 1).Ok?
    ensures scans[k - 1] in files && ScanEntries(scans[k - 1], files[scans[k - 1]], nviews).Ok?
    ensures Build(scans, files, spec, nviews, k).value.metas
         == Build(scans, files, spec, nviews, k - 1).value.metas + ScanEntries(scans[k - 1], files[scans[k - 1]], nviews).value
  {
  }

  /** When indexing the first `m` scans succeeds, so does indexing the first
      `k <= m`, and its entries form a prefix. */
  lemma {:induction false} BuildPrefix(scans: seq<string>, files: map<string, PairLines>, spec: IntervalScale, nviews: int, k: nat, m: nat)
    requires k <= m <= |scans| && Build(scans, files, spec, nviews, m).Ok?
    ensures Build(scans, files, spec, nviews, k).Ok?
    ensures Build(scans, files, spec, nviews, k).value.metas <= Build(scans, files, spec, nviews, m).value.metas
    decreases m - k
  {
    if k < m {
      BuildPrefix(scans, files, spec, nviews, k + 1, m);
      BuildStep(scans, files, spec, nviews, k + 1);
      var upTo := Build(scans, files, spec, nviews, k).value.metas;
      var next := Build(scans, files, spec, nviews, k + 1).value.metas;
      PrefixChain(upTo, next, Build(scans, files, spec, nviews, m).value.metas,
                  ScanEntries(scans[k], files[scans[k]], nviews).value);
    }
  }

  /** An extended prefix of a prefix is still a prefix. */
  lemma PrefixChain<T>(a: seq<T>, b: seq<T>, c: seq<T>, x: seq<T>)
    requires b == a + x && b <= c
    ensures a <= c
  {
    assert c[..|a|] == b[..|a|];
  }

  /** Entries are appended scan by scan: when indexing the first `m` scans
      succeeds, scan `k - 1` (for k <= m) contributes exactly its own pair
      file's entries, after those of the scans before it and before those of
      the scans after it. */
  lemma BuildInOrder(scans: seq<string>, files: map<string, PairLines>, spec: IntervalScale, nviews: int, k: nat, m: nat)
    requires 0 < k <= m <= |scans| && Build(scans, files, spec, nviews, m).Ok?
    ensures Build(scans, files, spec, nviews, k).Ok? && Build(scans, files, spec, nviews, k - 1).Ok?
    ensures scans[k - 1] in files && ScanEntries(scans[k - 1], files[scans[k - 1]], nviews).Ok?
    ensures var before := Build(scans, files, spec, nviews, k - 1).value.metas;
      var upTo := Build(scans, files, spec, nviews, k).value.metas;
      && upTo == before + ScanEntries(scans[k - 1], files[scans[k - 1]], nviews).value
      && upTo <= Build(scans, files, spec, nviews, m).value.metas
  {
    BuildPrefix(scans, files, spec, nviews, k, m);
    BuildStep(scans, files, spec, nviews, k);
  }

  /** The body of `build_list`'s loop over one scan's viewpoints: reads the
      count line, then each reference line and source line in turn. */
  method ReadPairFile(scan: string, lines: PairLines, nviews: int) returns (r: Result<seq<Meta>, BuildError>)
    ensures r == ScanEntries(scan, lines, nviews)
  {
    if |LineAt(lines, 0)| != 1 {
      return Err(MalformedLine(scan, 0));
    }
    var count := ViewpointCount(lines);
    var metas: seq<Meta> := [];
    var j := 0;
    while j < count
      invariant 0 <= j <= count
      invariant ViewpointEntries(scan, lines, nviews, j) == Ok(metas)
    {
      var refLine := LineAt(lines, 1 + 2 * j);
      if |refLine| != 1 {
        ViewpointErrorStops(scan, lines, nviews, j + 1, count);
        return Err(MalformedLine(scan, 1 + 2 * j));
      }
      var ids := OddTokens(LineAt(lines, 2 + 2 * j));
      var entry: seq<Meta> := [];
      if |ids| > 0 {
        var src := ids;
        if |src| < nviews {
          src := src + Repeat(src[0], nviews - |src|);
        }
        assert src == PadWithFirst(ids, nviews);
        entry := [Meta(scan, refLine[0], src, scan)];
      }
      assert ViewpointEntry(scan, lines, nviews, j) == Ok(entry);
      metas := metas + entry;
      j := j + 1;
    }
    return Ok(metas);
  }

  /** `build_list`: the scans in order, each scan's viewpoints in file order. */
  method BuildList(scans: seq<string>, files: map<string, PairLines>, spec: IntervalScale, nviews: int)
    returns (r: Result<Index, BuildError>)
    ensures r == Build(scans, files, spec, nviews, |scans|)
  {
    var metas: seq<Meta> := [];
    var scales: map<string, real> := map[];
    var k := 0;
    while k < |scans|
      invariant 0 <= k <= |scans|
      invariant Build(scans, files, spec, nviews, k) == Ok(Index(metas, scales))
    {
      var scan := scans[k];
      match spec {
        case Uniform(s) =>
          scales := scales[scan := s];
        case PerScene(t) =>
          if scan !in t {
            BuildErrorStops(scans, files, spec, nviews, k + 1, |scans|);
            return Err(MissingIntervalScale(scan));
          }
          scales := scales[scan := t[scan]];
      }
      if scan !in files {
        BuildErrorStops(scans, files, spec, nviews, k + 1, |scans|);
        return Err(MissingPairFile(scan));
      }
      var entries := ReadPairFile(scan, files[scan], nviews);
      if entries.Err? {
        BuildErrorStops(scans, files, spec, nviews, k + 1, |scans|);
        return Err(entries.error);
      }
      metas := metas + entries.value;
      k := k + 1;
    }
    return Ok(Index(metas, scales));
  }
}
