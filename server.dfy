/**
 * The preprocessing server (interactive-server/server.js): the session
 * manifest, page images and per-page metadata live in a file system, modelled
 * as a map from path to file. The output root is the directory of the
 * session file and `sessionName` its base name, which holds no '/'.
 *
 * ImageMagick (`applyMask`, `cropColumn`) is the parameter `tool`, which
 * returns `None` when the command fails; socket.io broadcasts are appended
 * to `events`; timestamps are parameters.
 */
module Server {
  import opened Wrappers
  import opened Text
  import opened Types

  /** The session file's JSON; the fields the server writes may be missing from it. */
  datatype Manifest = Manifest(
    chapters: seq<Chapter>,
    currentPage: int,
    status: Status,
    totalPages: Option<int>,
    processedPages: Option<seq<string>>,
    completedAt: Option<string>)

  /** A page's `-metadata.json` record. */
  datatype Metadata = Metadata(
    columns: seq<Column>,
    processed: bool,
    timestamp: Option<string>,
    maskApplied: Option<bool>)

  /** What a path holds: image data, the session manifest, a metadata record. */
  datatype File = Image(content: string) | SessionFile(manifest: Manifest) | MetadataFile(meta: Metadata)

  /** The two ImageMagick invocations. */
  datatype ImageOp = MaskWith(input: File, maskData: string) | CropTo(input: File, column: Column)

  datatype Event =
    | Progress(total: int, processed: int, percentage: int)
    | SessionCompleted(message: string)

  const CompletedMessage := "Preprocessing complete!"

  /** What a page reports before it was ever saved. */
  const DefaultMetadata := Metadata([], false, None, None)

  // ---------------------------------------------------------------------------
  // Paths
  // ---------------------------------------------------------------------------

  function SessionPath(root: string, name: string): string
  {
    root + "/" + name
  }

  /** A page number as text, zero-padded to at least three characters. */
  function Padded(pageNum: string): string
  {
    PadStart(pageNum, 3, '0')
  }

  /** `<chapter>/.temp/page-<padded>`, the page's path below the output root. */
  function RelBase(chapter: string, padded: string): string
  {
    chapter + "/.temp/page-" + padded
  }

  /** The page's path without extension; every file of the page is named from it. */
  function BasePath(root: string, chapter: string, padded: string): string
  {
    root + "/" + RelBase(chapter, padded)
  }

  function PagePath(root: string, chapter: string, padded: string): string
  {
    BasePath(root, chapter, padded) + ".png"
  }

  function CleanedPath(base: string): string
  {
    base + "-cleaned.png"
  }

  function MetadataPath(base: string): string
  {
    base + "-metadata.json"
  }

  /** A crop is numbered by its column's `order`, or by its 1-based position when `order` is 0. */
  function CropNumber(column: Column, i: int): int
  {
    if column.order != 0 then column.order else i + 1
  }

  function CropPath(base: string, column: Column, i: int): string
  {
    base + ("-column-" + IntToString(CropNumber(column, i)) + ".png")
  }

  /** The path of every column's crop, in column order. */
  function CropPaths(base: string, columns: seq<Column>): (r: seq<string>)
    ensures |r| == |columns|
    ensures forall i :: 0 <= i < |columns| ==> r[i] == CropPath(base, columns[i], i)
  {
    seq(|columns|, i requires 0 <= i < |columns| => CropPath(base, columns[i], i))
  }

  /** The paths one save reads and writes. */
  datatype SavePaths = SavePaths(original: string, cleaned: string, crops: seq<string>, metadata: string, session: string)

  /** The paths of a save of page `pageNum` of `chapter`, with the session file `root/name`. */
  function PathsOf(root: string, name: string, chapter: string, pageNum: int, columns: seq<Column>): (ps: SavePaths)
    ensures |ps.crops| == |columns|
  {
    var base := BasePath(root, chapter, Padded(IntToString(pageNum)));
    SavePaths(base + ".png", CleanedPath(base), CropPaths(base, columns), MetadataPath(base), SessionPath(root, name))
  }

  /** The paths a save may write before it touches the session file. */
  predicate IsSaveOutput(ps: SavePaths, p: string)
  {
    p == ps.cleaned || p in ps.crops || p == ps.metadata
  }

  /**
   * No step of a save overwrites what a later step reads or writes: the
   * original image and the session file are none of the outputs, they are
   * different, and neither a crop nor the metadata record is the cleaned image.
   */
  predicate Separate(ps: SavePaths)
  {
    && !IsSaveOutput(ps, ps.original) && !IsSaveOutput(ps, ps.session)
    && ps.original != ps.session
    && ps.cleaned !in ps.crops && ps.cleaned != ps.metadata
  }

  /**
   * The padded page number reads back as the page number: it is at least
   * three digits long and denotes the same value.
   */
  lemma PaddedPageNumber(n: nat)
    ensures |Padded(NatToString(n))| >= 3
    ensures AllDigits(Padded(NatToString(n)))
    ensures DigitsValue(Padded(NatToString(n))) == n
  {
    var s := NatToString(n);
    var p := Padded(s);
    if |s| < 3 {
      assert p == Repeat('0', 3 - |s|) + s;
      LeadingZerosValue(3 - |s|, s);
    }
  }

  /** Different pages of a chapter are stored under different file names. */
  lemma PaddedInjective(m: nat, n: nat)
    requires Padded(NatToString(m)) == Padded(NatToString(n))
    ensures m == n
  {
    PaddedPageNumber(m);
    PaddedPageNumber(n);
  }

  /** Strings that agree up to `base` and then differ somewhere are different. */
  lemma SuffixesDiffer(base: string, s1: string, s2: string, k: nat)
    requires k < |s1| && k < |s2| && s1[k] != s2[k]
    ensures base + s1 != base + s2
  {
    assert (base + s1)[|base| + k] == s1[k];
    assert (base + s2)[|base| + k] == s2[k];
  }

  /** A path with a '/' below the root is not the session file, whose name holds none. */
  lemma NotSessionPath(root: string, name: string, rest: string, k: nat)
    requires '/' !in name
    requires k < |rest| && rest[k] == '/'
    ensures root + "/" + rest != SessionPath(root, name)
  {
    if |rest| == |name| {
      assert (root + "/" + rest)[|root| + 1 + k] == '/';
      assert (root + "/" + name)[|root| + 1 + k] == name[k];
    }
  }

  /** Every file a save writes lies in the chapter's `.temp` directory. */
  lemma PageFileNotSession(root: string, name: string, chapter: string, padded: string, suffix: string)
    requires '/' !in name
    ensures BasePath(root, chapter, padded) + suffix != SessionPath(root, name)
  {
    var rest := RelBase(chapter, padded) + suffix;
    assert rest[|chapter|] == '/';
    assert BasePath(root, chapter, padded) + suffix == root + "/" + rest;
    NotSessionPath(root, name, rest, |chapter|);
  }

  /**
   * With a session name free of '/', the paths of any save are separate:
   * every page file lies in the chapter's `.temp` directory and the page
   * files differ in their suffixes.
   */
  lemma PathsSeparate(root: string, name: string, chapter: string, pageNum: int, columns: seq<Column>)
    requires '/' !in name
    ensures Separate(PathsOf(root, name, chapter, pageNum, columns))
  {
    var padded := Padded(IntToString(pageNum));
    PagePathsApart(root, name, chapter, padded);
    CropsApart(root, name, chapter, padded, columns);
  }

  /** No crop is the session file, the original or the cleaned image. */
  lemma CropsApart(root: string, name: string, chapter: string, padded: string, columns: seq<Column>)
    requires '/' !in name
    ensures var base := BasePath(root, chapter, padded);
      var crops := CropPaths(base, columns);
      SessionPath(root, name) !in crops && base + ".png" !in crops && CleanedPath(base) !in crops
  {
    forall i | 0 <= i < |columns|
    {
      CropPathApart(root, name, chapter, padded, columns[i], i);
    }
  }

  /** The original, the cleaned image, the metadata record and the session file are four different paths. */
  lemma PagePathsApart(root: string, name: string, chapter: string, padded: string)
    requires '/' !in name
    ensures var base := BasePath(root, chapter, padded);
      var session := SessionPath(root, name);
      && base + ".png" != session && CleanedPath(base) != session && MetadataPath(base) != session
      && base + ".png" != CleanedPath(base) && base + ".png" != MetadataPath(base)
      && CleanedPath(base) != MetadataPath(base)
  {
    var base := BasePath(root, chapter, padded);
    PageFileNotSession(root, name, chapter, padded, ".png");
    PageFileNotSession(root, name, chapter, padded, "-cleaned.png");
    PageFileNotSession(root, name, chapter, padded, "-metadata.json");
    SuffixesDiffer(base, ".png", "-cleaned.png", 0);
    SuffixesDiffer(base, ".png", "-metadata.json", 0);
    SuffixesDiffer(base, "-cleaned.png", "-metadata.json", 1);
  }

  /** The metadata record is neither the cleaned image nor a crop, whatever the session name. */
  lemma MetadataApart(root: string, chapter: string, padded: string, columns: seq<Column>)
    ensures var base := BasePath(root, chapter, padded);
      MetadataPath(base) != CleanedPath(base) && MetadataPath(base) !in CropPaths(base, columns)
  {
    var base := BasePath(root, chapter, padded);
    SuffixesDiffer(base, "-cleaned.png", "-metadata.json", 1);
    forall i | 0 <= i < |columns|
      ensures CropPaths(base, columns)[i] != MetadataPath(base)
    {
      var s := "-column-" + IntToString(CropNumber(columns[i], i)) + ".png";
      SuffixesDiffer(base, s, "-metadata.json", 1);
    }
  }

  /** A crop is neither the session file, nor the original, nor the cleaned image. */
  lemma CropPathApart(root: string, name: string, chapter: string, padded: string, column: Column, i: int)
    requires '/' !in name
    ensures var base := BasePath(root, chapter, padded);
      && CropPath(base, column, i) != SessionPath(root, name)
      && CropPath(base, column, i) != base + ".png"
      && CropPath(base, column, i) != CleanedPath(base)
  {
    var base := BasePath(root, chapter, padded);
    var s := "-column-" + IntToString(CropNumber(column, i)) + ".png";
    PageFileNotSession(root, name, chapter, padded, s);
    SuffixesDiffer(base, ".png", s, 0);
    SuffixesDiffer(base, s, "-cleaned.png", 2);
  }

  // ---------------------------------------------------------------------------
  // Reading the file system
  // ---------------------------------------------------------------------------

  /** Both maps hold the same thing at `p`, or both nothing. */
  predicate SameAt(a: map<string, File>, b: map<string, File>, p: string)
  {
    (p in a <==> p in b) && (p in a ==> a[p] == b[p])
  }

  /** The manifest at `path`, or `None` when reading or parsing it fails. */
  function ReadManifest(fs: map<string, File>, path: string): (r: Option<Manifest>)
    ensures r.Some? <==> path in fs && fs[path].SessionFile?
  {
    if path in fs && fs[path].SessionFile? then Some(fs[path].manifest) else None
  }

  /** The metadata record at `path`, or the default when reading or parsing it fails. */
  function StoredMetadata(fs: map<string, File>, path: string): (r: Metadata)
    ensures path !in fs ==> r == DefaultMetadata
  {
    if path in fs && fs[path].MetadataFile? then fs[path].meta else DefaultMetadata
  }

  /**
   * `GET /api/page/:chapter/:pageNum`: the page image (as `encode` renders
   * it) with the columns and the processed flag of its metadata record, the
   * defaults when there is none, and `None` (a 404) when the image is missing.
   * The metadata is looked up where a save writes it.
   */
  function GetPage(fs: map<string, File>, root: string, chapter: string, pageNum: nat, encode: File -> string)
    : (r: Option<Page>)
    ensures r.None? <==> PagePath(root, chapter, Padded(NatToString(pageNum))) !in fs
    ensures r.Some? ==>
      && r.value.chapter == chapter && r.value.pageNum == pageNum
      && r.value.imagePath == PagePath(root, chapter, Padded(NatToString(pageNum)))
      && r.value.imageData == encode(fs[r.value.imagePath])
    ensures r.Some? && MetadataPath(BasePath(root, chapter, Padded(NatToString(pageNum)))) !in fs ==>
      r.value.columns == [] && !r.value.processed
    ensures r.Some? ==>
      var meta := StoredMetadata(fs, MetadataPath(BasePath(root, chapter, Padded(NatToString(pageNum)))));
      r.value.columns == meta.columns && r.value.processed == meta.processed
  {
    var padded := Padded(NatToString(pageNum));
    var path := PagePath(root, chapter, padded);
    if path !in fs then None
    else
      var meta := StoredMetadata(fs, MetadataPath(BasePath(root, chapter, padded)));
      Some(Page(chapter, pageNum, path, encode(fs[path]), meta.columns, meta.processed))
  }

  // ---------------------------------------------------------------------------
  // The metadata path of `GET /api/page`, as written
  // ---------------------------------------------------------------------------

  /** The page fetch derives the metadata path by replacing the FIRST ".png" of the page path. */
  function MetadataPathAsWritten(pagePath: string): string
  {
    ReplaceFirst(pagePath, ".png", "-metadata.json")
  }

  /**
   * When the page path's first ".png" is its extension, the page fetch looks
   * where the save writes.
   */
  lemma MetadataPathAsWrittenAgrees(root: string, chapter: string, padded: string)
    requires var p := PagePath(root, chapter, padded); !OccursBefore(p, ".png", |p| - 4)
    ensures MetadataPathAsWritten(PagePath(root, chapter, padded))
      == MetadataPath(BasePath(root, chapter, padded))
  {
    var base := BasePath(root, chapter, padded);
    assert PagePath(root, chapter, padded) == base + ".png" + "";
    ReplaceFirstAt(base, ".png", "", "-metadata.json");
    assert base + "-metadata.json" + "" == MetadataPath(base);
  }

  /**
   * A chapter directory named "a.png" below the root "out": the page fetch
   * reads "out/a-metadata.json/.temp/page-001.png", while page 1's metadata
   * is saved at "out/a.png/.temp/page-001-metadata.json".
   */
  lemma MetadataPathAsWrittenMisses()
    ensures MetadataPathAsWritten(PagePath("out", "a.png", "001"))
      != MetadataPath(BasePath("out", "a.png", "001"))
  {
    var a := "out/a";
    var b := "/.temp/page-001.png";
    var s := a + ".png" + b;
    assert PagePath("out", "a.png", "001") == s;
    forall i | 0 <= i < |a|
      ensures !OccursAt(s, ".png", i)
    {
      assert s[i] == a[i] != '.';
      if i + 4 <= |s| {
        assert s[i..i + 4][0] == s[i];
      }
    }
    ReplaceFirstAt(a, ".png", b, "-metadata.json");
    var wrong := a + "-metadata.json" + b;
    var right := MetadataPath(BasePath("out", "a.png", "001"));
    assert wrong[5] == '-';
    assert right[5] == '.';
  }

  // ---------------------------------------------------------------------------
  // The save pipeline
  // ---------------------------------------------------------------------------

  /** JavaScript truthiness of `maskData`: present and not the empty string. */
  predicate MaskGiven(maskData: Option<string>)
  {
    maskData.Some? && maskData.value != ""
  }

  /** `session.processedPages.push(key)` unless the key is there already. */
  function AppendOnce(ledger: seq<string>, key: string): (r: seq<string>)
    ensures key in r
    ensures |ledger| <= |r| <= |ledger| + 1 && r[..|ledger|] == ledger
    ensures forall x :: x in r <==> x in ledger || x == key
  {
    if key in ledger then ledger else ledger + [key]
  }

  predicate NoDuplicates(s: seq<string>)
  {
    forall i, j :: 0 <= i < j < |s| ==> s[i] != s[j]
  }

  /** Recording a page twice records it once. */
  lemma AppendOnceIdempotent(ledger: seq<string>, key: string)
    ensures AppendOnce(AppendOnce(ledger, key), key) == AppendOnce(ledger, key)
  {
  }

  /** The ledger gains no duplicate key. */
  lemma AppendOnceNoDuplicates(ledger: seq<string>, key: string)
    requires NoDuplicates(ledger)
    ensures NoDuplicates(AppendOnce(ledger, key))
  {
    var r := AppendOnce(ledger, key);
    if key !in ledger {
      forall i, j | 0 <= i < j < |r|
        ensures r[i] != r[j]
      {
        if j == |ledger| {
          assert r[i] == ledger[i];
        }
      }
    }
  }

  /**
   * `Math.round(processed / total * 100)`, or 0 without a positive total:
   * the whole number nearest to the exact percentage, halves rounded up.
   */
  function Percent(processed: int, total: int): (r: int)
    ensures total <= 0 ==> r == 0
    ensures total > 0 ==> (2 * total) * r <= 200 * processed + total < (2 * total) * r + 2 * total
  {
    if total > 0 then (200 * processed + total) / (2 * total) else 0
  }

  /** Never more pages processed than there are: the percentage lies in 0..100, and is 100 when all are. */
  lemma PercentBounds(processed: int, total: int)
    requires 0 <= processed <= total && total > 0
    ensures 0 <= Percent(processed, total) <= 100
    ensures processed == total ==> Percent(processed, total) == 100
  {
    var r := Percent(processed, total);
    var d := 2 * total;
    if r < 0 {
      MulMonotone(d, r, -1);
    }
    if r > 100 {
      MulMonotone(d, 101, r);
    }
    if processed == total && r < 100 {
      MulMonotone(d, r, 99);
    }
  }

  lemma MulMonotone(d: int, a: int, b: int)
    requires d > 0 && a <= b
    ensures d * a <= d * b
  {
  }

  /** Step 1: the mask applied to the original, or the original copied; `None` when that fails. */
  function CleanedImage(fs: map<string, File>, originalPath: string, maskData: Option<string>, tool: ImageOp -> Option<File>)
    : (r: Option<File>)
    ensures originalPath !in fs ==> r.None?
    ensures !MaskGiven(maskData) ==> (r.Some? <==> originalPath in fs) && (r.Some? ==> r.value == fs[originalPath])
    ensures MaskGiven(maskData) && originalPath in fs ==> r == tool(MaskWith(fs[originalPath], maskData.value))
  {
    if originalPath !in fs then None
    else if MaskGiven(maskData) then tool(MaskWith(fs[originalPath], maskData.value))
    else Some(fs[originalPath])
  }

  /** Step 2 up to the `k`-th column: the crops written, the `i`-th to `paths[i]`; `None` when one fails. */
  function Crops(fs: map<string, File>, cleaned: File, columns: seq<Column>, paths: seq<string>, k: nat,
                 tool: ImageOp -> Option<File>): (r: Option<map<string, File>>)
    requires k <= |columns| && k <= |paths|
    ensures r.Some? <==> forall i :: 0 <= i < k ==> tool(CropTo(cleaned, columns[i])).Some?
    ensures r.Some? ==> (forall p :: p in fs ==> p in r.value) && (forall i :: 0 <= i < k ==> paths[i] in r.value)
    ensures r.Some? && k > 0 ==> r.value[paths[k - 1]] == tool(CropTo(cleaned, columns[k - 1])).value
  {
    if k == 0 then Some(fs)
    else
      match Crops(fs, cleaned, columns, paths, k - 1, tool)
      case None => None
      case Some(written) =>
        match tool(CropTo(cleaned, columns[k - 1]))
        case None => None
        case Some(crop) => Some(written[paths[k - 1] := crop])
  }

  /** Once a crop fails, the remaining ones are never run. */
  lemma {:induction false} CropsFailed(fs: map<string, File>, cleaned: File, columns: seq<Column>, paths: seq<string>,
                                       k: nat, j: nat, tool: ImageOp -> Option<File>)
    requires k <= j <= |columns| && j <= |paths|
    requires Crops(fs, cleaned, columns, paths, k, tool).None?
    ensures Crops(fs, cleaned, columns, paths, j, tool).None?
  {
    if k < j {
      CropsFailed(fs, cleaned, columns, paths, k, j - 1, tool);
    }
  }

  /** The crops touch no path but their own. */
  lemma {:induction false} CropsFrame(fs: map<string, File>, cleaned: File, columns: seq<Column>, paths: seq<string>,
                                      k: nat, tool: ImageOp -> Option<File>, p: string)
    requires k <= |columns| && k <= |paths|
    requires Crops(fs, cleaned, columns, paths, k, tool).Some?
    requires forall i :: 0 <= i < k ==> p != paths[i]
    ensures SameAt(Crops(fs, cleaned, columns, paths, k, tool).value, fs, p)
  {
    if k > 0 {
      CropsFrame(fs, cleaned, columns, paths, k - 1, tool, p);
    }
  }

  /** What a successful save leaves behind: the new file system and the progress broadcast. */
  datatype SaveResult = SaveResult(fs: map<string, File>, progress: Event)

  /** The ledger key of a page: `<chapter>:<pageNum>`. */
  function SaveKey(chapter: string, pageNum: int): string
  {
    chapter + ":" + IntToString(pageNum)
  }

  /** The metadata record a save writes. */
  function SavedMetadata(columns: seq<Column>, maskData: Option<string>, timestamp: string): Metadata
  {
    Metadata(columns, true, Some(timestamp), Some(MaskGiven(maskData)))
  }

  /**
   * Steps 1 to 3 of `POST /api/save` on the paths `ps`: the cleaned image,
   * one crop per column in array order, and the metadata record written;
   * `None` when the clean or a crop fails.
   */
  function BeforeLedger(fs: map<string, File>, ps: SavePaths, columns: seq<Column>, maskData: Option<string>,
                        tool: ImageOp -> Option<File>, timestamp: string): (r: Option<map<string, File>>)
    requires |ps.crops| == |columns|
    ensures r.Some? <==>
      && CleanedImage(fs, ps.original, maskData, tool).Some?
      && forall i :: 0 <= i < |columns| ==> tool(CropTo(CleanedImage(fs, ps.original, maskData, tool).value, columns[i])).Some?
    ensures r.Some? ==> ps.metadata in r.value && r.value[ps.metadata] == MetadataFile(SavedMetadata(columns, maskData, timestamp))
    ensures r.Some? ==> ps.cleaned in r.value && ps.original in fs && forall p :: p in fs ==> p in r.value
  {
    match CleanedImage(fs, ps.original, maskData, tool)
    case None => None
    case Some(cleaned) =>
      match Crops(fs[ps.cleaned := cleaned], cleaned, columns, ps.crops, |columns|, tool)
      case None => None
      case Some(cropped) => Some(cropped[ps.metadata := MetadataFile(SavedMetadata(columns, maskData, timestamp))])
  }

  /**
   * `POST /api/save` step by step on the paths `ps`: steps 1 to 3 as
   * `BeforeLedger`, then (4) the page's `key` added once to the ledger of the
   * session file read back from disk, and (5) the progress broadcast. `None`
   * is the 500 response of a failed step.
   */
  function SaveSteps(fs: map<string, File>, ps: SavePaths, columns: seq<Column>, maskData: Option<string>,
                     tool: ImageOp -> Option<File>, timestamp: string, key: string): (r: Option<SaveResult>)
    requires |ps.crops| == |columns|
    ensures var before := BeforeLedger(fs, ps, columns, maskData, tool, timestamp);
      r.Some? <==> before.Some? && ReadManifest(before.value, ps.session).Some?
    ensures r.Some? ==>
      var before := BeforeLedger(fs, ps, columns, maskData, tool, timestamp).value;
      && ps.session in r.value.fs && r.value.fs[ps.session].SessionFile?
      && key in r.value.fs[ps.session].manifest.processedPages.GetOr([])
      && (forall p :: p != ps.session ==> SameAt(r.value.fs, before, p))
      && r.value.progress.Progress?
      && r.value.progress.processed == |r.value.fs[ps.session].manifest.processedPages.GetOr([])|
  {
    match BeforeLedger(fs, ps, columns, maskData, tool, timestamp)
    case None => None
    case Some(withMeta) =>
      match ReadManifest(withMeta, ps.session)
      case None => None
      case Some(m) =>
        var ledger := AppendOnce(m.processedPages.GetOr([]), key);
        var total := m.totalPages.GetOr(0);
        Some(SaveResult(
          withMeta[ps.session := SessionFile(m.(processedPages := Some(ledger)))],
          Progress(total, |ledger|, Percent(|ledger|, total))))
  }

  /** The save of page `pageNum` of `chapter` with the session file `root/name`. */
  function SaveOutcome(fs: map<string, File>, root: string, name: string, chapter: string, pageNum: int,
                       columns: seq<Column>, maskData: Option<string>, tool: ImageOp -> Option<File>, timestamp: string)
    : Option<SaveResult>
  {
    SaveSteps(fs, PathsOf(root, name, chapter, pageNum, columns), columns, maskData, tool, timestamp, SaveKey(chapter, pageNum))
  }

  /** Before the session update a save changes nothing but its outputs. */
  lemma SaveWrites(fs: map<string, File>, ps: SavePaths, columns: seq<Column>, cleaned: File,
                   tool: ImageOp -> Option<File>, meta: File, p: string)
    requires |ps.crops| == |columns|
    requires Crops(fs[ps.cleaned := cleaned], cleaned, columns, ps.crops, |columns|, tool).Some?
    requires !IsSaveOutput(ps, p)
    ensures SameAt(Crops(fs[ps.cleaned := cleaned], cleaned, columns, ps.crops, |columns|, tool).value[ps.metadata := meta], fs, p)
  {
    forall i | 0 <= i < |columns|
      ensures p != ps.crops[i]
    {
      assert ps.crops[i] in ps.crops;
    }
    CropsFrame(fs[ps.cleaned := cleaned], cleaned, columns, ps.crops, |columns|, tool, p);
  }

  /**
   * A save fails when the page image is missing, or when there is no
   * readable session file.
   */
  lemma SaveNeedsImageAndSession(fs: map<string, File>, ps: SavePaths, columns: seq<Column>, maskData: Option<string>,
                                 tool: ImageOp -> Option<File>, timestamp: string, key: string)
    requires |ps.crops| == |columns| && Separate(ps)
    requires ps.original !in fs || ReadManifest(fs, ps.session).None?
    ensures SaveSteps(fs, ps, columns, maskData, tool, timestamp, key).None?
  {
    var cleaned := CleanedImage(fs, ps.original, maskData, tool);
    if cleaned.Some? {
      var crops := Crops(fs[ps.cleaned := cleaned.value], cleaned.value, columns, ps.crops, |columns|, tool);
      if crops.Some? {
        SaveWrites(fs, ps, columns, cleaned.value, tool, MetadataFile(SavedMetadata(columns, maskData, timestamp)), ps.session);
      }
    }
  }

  /**
   * What a successful save records: the session file is the one read before
   * the save with the page's key added once to its ledger (every other field
   * kept, a completed session stays completed); the metadata record holds the
   * columns as sent, `processed` and whether a mask was applied; without a
   * mask the cleaned image is the original; the original is untouched; the
   * broadcast counts the ledger.
   */
  lemma SaveRecordsPage(fs: map<string, File>, ps: SavePaths, columns: seq<Column>, maskData: Option<string>,
                        tool: ImageOp -> Option<File>, timestamp: string, key: string)
    requires |ps.crops| == |columns| && Separate(ps)
    requires SaveSteps(fs, ps, columns, maskData, tool, timestamp, key).Some?
    ensures ReadManifest(fs, ps.session).Some?
    ensures var m := ReadManifest(fs, ps.session).value;
      var ledger := AppendOnce(m.processedPages.GetOr([]), key);
      var res := SaveSteps(fs, ps, columns, maskData, tool, timestamp, key).value;
      && ReadManifest(res.fs, ps.session) == Some(m.(processedPages := Some(ledger)))
      && key in ledger
      && ps.metadata in res.fs && res.fs[ps.metadata] == MetadataFile(SavedMetadata(columns, maskData, timestamp))
      && ps.original in fs && SameAt(res.fs, fs, ps.original)
      && ps.cleaned in res.fs
      && (!MaskGiven(maskData) ==> res.fs[ps.cleaned] == fs[ps.original])
      && res.progress == Progress(m.totalPages.GetOr(0), |ledger|, Percent(|ledger|, m.totalPages.GetOr(0)))
  {
    var cleaned := CleanedImage(fs, ps.original, maskData, tool).value;
    var fs1 := fs[ps.cleaned := cleaned];
    var meta := MetadataFile(SavedMetadata(columns, maskData, timestamp));
    SaveWrites(fs, ps, columns, cleaned, tool, meta, ps.session);
    SaveWrites(fs, ps, columns, cleaned, tool, meta, ps.original);
    forall i | 0 <= i < |columns|
      ensures ps.cleaned != ps.crops[i]
    {
      assert ps.crops[i] in ps.crops;
    }
    CropsFrame(fs1, cleaned, columns, ps.crops, |columns|, tool, ps.cleaned);
  }

  /** A page's ledger key is the key the client looks for. */
  lemma SaveKeyIsPageKey(chapter: string, n: nat)
    ensures SaveKey(chapter, n) == PageKey(chapter, n)
  {
  }

  /**
   * Round trip: after a successful save of page `n`, the session's ledger
   * holds the key the client looks for, and fetching page `n` finds its
   * image and reports the columns just saved as processed.
   */
  lemma SaveThenGetPage(fs: map<string, File>, root: string, name: string, chapter: string, n: nat,
                        columns: seq<Column>, maskData: Option<string>, tool: ImageOp -> Option<File>, timestamp: string,
                        encode: File -> string)
    requires '/' !in name
    requires SaveOutcome(fs, root, name, chapter, n, columns, maskData, tool, timestamp).Some?
    ensures var after := SaveOutcome(fs, root, name, chapter, n, columns, maskData, tool, timestamp).value.fs;
      var page := GetPage(after, root, chapter, n, encode);
      && ReadManifest(after, SessionPath(root, name)).Some?
      && PageKey(chapter, n) in ReadManifest(after, SessionPath(root, name)).value.processedPages.GetOr([])
      && page.Some?
      && page.value.pageNum == n
      && page.value.columns == columns
      && page.value.processed
      && page.value.imageData == encode(fs[PagePath(root, chapter, Padded(NatToString(n)))])
  {
    var ps := PathsOf(root, name, chapter, n, columns);
    PathsSeparate(root, name, chapter, n, columns);
    SaveKeyIsPageKey(chapter, n);
    SaveRecordsPage(fs, ps, columns, maskData, tool, timestamp, SaveKey(chapter, n));
  }

  // ---------------------------------------------------------------------------
  // The server's state and its handlers
  // ---------------------------------------------------------------------------

  class Server {
    var fs: map<string, File>
    /** Every socket.io broadcast, in order. */
    var events: seq<Event>
    const outputRoot: string
    const sessionName: string

    /** `start(sessionFile)`: the session file is `outputRoot + "/" + sessionName`. */
    constructor (outputRoot: string, sessionName: string, files: map<string, File>)
      ensures this.outputRoot == outputRoot && this.sessionName == sessionName
      ensures fs == files && events == []
    {
      this.outputRoot := outputRoot;
      this.sessionName := sessionName;
      fs := files;
      events := [];
    }

    /**
     * `GET /api/session`: the manifest with `totalPages` recomputed as the
     * page count of all chapters, or `None` (a 500) when the session file
     * cannot be read.
     */
    method GetSession() returns (r: Option<Manifest>)
      ensures r.None? <==> ReadManifest(fs, SessionPath(outputRoot, sessionName)).None?
      ensures r.Some? ==>
        r.value == ReadManifest(fs, SessionPath(outputRoot, sessionName)).value
          .(totalPages := Some(TotalPages(r.value.chapters)))
    {
      var read := ReadManifest(fs, SessionPath(outputRoot, sessionName));
      if read.None? {
        return None;
      }
      var session := read.value;
      var totalPages := 0;
      var i := 0;
      while i < |session.chapters|
        invariant i <= |session.chapters|
        invariant totalPages == TotalPages(session.chapters[..i])
      {
        TotalPagesStep(session.chapters, i);
        totalPages := totalPages + |session.chapters[i].pages|;
        i := i + 1;
      }
      assert session.chapters[..i] == session.chapters;
      return Some(session.(totalPages := Some(totalPages)));
    }

    /**
     * `POST /api/save`. On success the file system and the broadcasts are
     * those of `SaveOutcome`; on failure nothing is broadcast and no path
     * but the cleaned image, the crops and the metadata record has changed.
     * A failed clean or crop leaves the metadata record as it was; a failure
     * at the session file leaves the first three steps' writes in place.
     */
    method Save(chapter: string, pageNum: int, columns: seq<Column>, maskData: Option<string>,
                tool: ImageOp -> Option<File>, timestamp: string) returns (ok: bool)
      modifies this`fs, this`events
      ensures var outcome := SaveOutcome(old(fs), outputRoot, sessionName, chapter, pageNum, columns, maskData, tool, timestamp);
        && (ok <==> outcome.Some?)
        && (ok ==> fs == outcome.value.fs && events == old(events) + [outcome.value.progress])
      ensures !ok ==> events == old(events)
      ensures !ok ==> forall p ::
        (!IsSaveOutput(PathsOf(outputRoot, sessionName, chapter, pageNum, columns), p) ==> SameAt(fs, old(fs), p))
      ensures var ps := PathsOf(outputRoot, sessionName, chapter, pageNum, columns);
        var before := BeforeLedger(old(fs), ps, columns, maskData, tool, timestamp);
        && (!ok && before.None? ==> SameAt(fs, old(fs), ps.metadata))
        && (!ok && before.Some? ==> fs == before.value)
    {
      var paths := PathsOf(outputRoot, sessionName, chapter, pageNum, columns);
      MetadataApart(outputRoot, chapter, Padded(IntToString(pageNum)), columns);
      var pageId := SaveKey(chapter, pageNum);
      ok := SaveTo(paths, columns, maskData, tool, timestamp, pageId);
    }

    /**
     * The five steps of `POST /api/save` once its paths and the page's ledger
     * key are computed.
     */
    method SaveTo(paths: SavePaths, columns: seq<Column>, maskData: Option<string>,
                  tool: ImageOp -> Option<File>, timestamp: string, pageId: string) returns (ok: bool)
      requires |paths.crops| == |columns|
      modifies this`fs, this`events
      ensures var outcome := SaveSteps(old(fs), paths, columns, maskData, tool, timestamp, pageId);
        && (ok <==> outcome.Some?)
        && (ok ==> fs == outcome.value.fs && events == old(events) + [outcome.value.progress])
      ensures !ok ==> events == old(events)
      ensures !ok ==> forall p :: !IsSaveOutput(paths, p) ==> SameAt(fs, old(fs), p)
      ensures var before := BeforeLedger(old(fs), paths, columns, maskData, tool, timestamp);
        && (!ok && before.None? ==> forall p :: p != paths.cleaned && p !in paths.crops ==> SameAt(fs, old(fs), p))
        && (!ok && before.Some? ==> fs == before.value)
    {
      // 1. The mask applied to the original, or the original copied.
      if paths.original !in fs {
        return false;
      }
      var cleaned: File;
      if MaskGiven(maskData) {
        var masked := tool(MaskWith(fs[paths.original], maskData.value));
        if masked.None? {
          return false;
        }
        cleaned := masked.value;
      } else {
        cleaned := fs[paths.original];
      }
      assert CleanedImage(old(fs), paths.original, maskData, tool) == Some(cleaned);
      fs := fs[paths.cleaned := cleaned];

      // 2. One crop per column.
      var cropped := CropColumns(paths, columns, cleaned, tool);
      if !cropped {
        return false;
      }
      assert Crops(old(fs)[paths.cleaned := cleaned], cleaned, columns, paths.crops, |columns|, tool) == Some(fs);

      // 3. The metadata record.
      fs := fs[paths.metadata := MetadataFile(SavedMetadata(columns, maskData, timestamp))];
      assert BeforeLedger(old(fs), paths, columns, maskData, tool, timestamp) == Some(fs);

      // 4. The ledger.
      if paths.session !in fs || !fs[paths.session].SessionFile? {
        return false;
      }
      var session := fs[paths.session].manifest;
      var processedPages := session.processedPages.GetOr([]);
      if pageId !in processedPages {
        processedPages := processedPages + [pageId];
      }
      session := session.(processedPages := Some(processedPages));
      fs := fs[paths.session := SessionFile(session)];

      // 5. Progress.
      var totalPages := session.totalPages.GetOr(0);
      events := events + [Progress(totalPages, |processedPages|, Percent(|processedPages|, totalPages))];
      return true;
    }

    /**
     * Step 2 of `POST /api/save`: crops the cleaned image to each column in
     * array order, stopping at the first crop that fails.
     */
    method CropColumns(paths: SavePaths, columns: seq<Column>, cleaned: File, tool: ImageOp -> Option<File>)
      returns (ok: bool)
      requires |paths.crops| == |columns|
      modifies this`fs
      ensures var written := Crops(old(fs), cleaned, columns, paths.crops, |columns|, tool);
        && (ok <==> written.Some?)
        && (ok ==> fs == written.value)
      ensures forall p :: p !in paths.crops ==> SameAt(fs, old(fs), p)
    {
      var i := 0;
      while i < |columns|
        invariant i <= |columns|
        invariant Crops(old(fs), cleaned, columns, paths.crops, i, tool) == Some(fs)
        invariant forall p :: p !in paths.crops ==> SameAt(fs, old(fs), p)
      {
        var crop := tool(CropTo(cleaned, columns[i]));
        if crop.None? {
          CropsFailed(old(fs), cleaned, columns, paths.crops, i + 1, |columns|, tool);
          return false;
        }
        assert paths.crops[i] in paths.crops;
        fs := fs[paths.crops[i] := crop.value];
        i := i + 1;
      }
      return true;
    }

    /**
     * `POST /api/finish`: marks the session completed, whatever its ledger
     * holds, stamps it and broadcasts the completion; fails (a 500) when the
     * session file cannot be read.
     */
    method Finish(timestamp: string) returns (ok: bool)
      modifies this`fs, this`events
      ensures var path := SessionPath(outputRoot, sessionName);
        && (ok <==> ReadManifest(old(fs), path).Some?)
        && (ok ==>
          && fs == old(fs)[path := SessionFile(ReadManifest(old(fs), path).value
            .(status := Completed, completedAt := Some(timestamp)))]
          && events == old(events) + [SessionCompleted(CompletedMessage)])
        && (!ok ==> fs == old(fs) && events == old(events))
    {
      var sessionPath := SessionPath(outputRoot, sessionName);
      if sessionPath !in fs || !fs[sessionPath].SessionFile? {
        return false;
      }
      var session := fs[sessionPath].manifest;
      session := session.(status := Completed, completedAt := Some(timestamp));
      fs := fs[sessionPath := SessionFile(session)];
      events := events + [SessionCompleted(CompletedMessage)];
      return true;
    }
  }
}
