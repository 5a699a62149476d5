/** The metric-depth evaluation helpers (EyeAICore/metric_depth/src/
    utils.hpp): the dataset's file-name matchers, the data-point key, the
    classification of a scan directory's files and their join, and the
    pairing of relative (model) and absolute (dataset) depths. */
module MetricDepthUtils {
  import opened Wrappers
  import opened Strings

  // ---------------------------------------------------------------------------
  // Data points and file names

  /** A data point of the dataset: scene, scan and image name, and whether
      the scene is indoors. Equality is field by field. */
  datatype DataPoint = DataPoint(indoors: bool, sceneId: string, scanId: string, imgname: string)

  /** The fields of a key that the matchers can produce: the two ids are
      non-empty digit strings and the image name a non-empty `\w+` word. */
  predicate WellFormed(dp: DataPoint) {
    && |dp.sceneId| > 0 && AllDigits(dp.sceneId)
    && |dp.scanId| > 0 && AllDigits(dp.scanId)
    && |dp.imgname| > 0 && AllWordChars(dp.imgname)
  }

  /** The `(outdoor|indoors)` group: either word, in any case. Both have
      seven letters. */
  predicate SceneLabel(sceneWord: string) {
    EqualsIgnoreCase(sceneWord, "outdoor") || EqualsIgnoreCase(sceneWord, "indoors")
  }

  /** `<scene>_<scan>_<label>_<imgname><suffix>`. */
  function FileName(scene: string, scan: string, sceneWord: string, imgname: string, suffix: string): string {
    scene + "_" + scan + "_" + sceneWord + "_" + imgname + suffix
  }

  const IMAGE_SUFFIX: string := ".png"
  const DEPTH_SUFFIX: string := "_depth.npy"
  const DEPTH_MASK_SUFFIX: string := "_depth_mask.npy"

  /** The end of the run of digits that starts at k. */
  function DigitRun(s: string, k: nat): (e: nat)
    requires k <= |s|
    ensures k <= e <= |s|
    ensures forall m :: k <= m < e ==> IsDigit(s[m])
    ensures e < |s| ==> !IsDigit(s[e])
    decreases |s| - k
  {
    if k == |s| || !IsDigit(s[k]) then k else DigitRun(s, k + 1)
  }

  /** A run of digits is determined by where it starts. */
  lemma {:induction false} DigitRunEnds(s: string, k: nat, e: nat)
    requires k <= e <= |s|
    requires forall m :: k <= m < e ==> IsDigit(s[m])
    requires e < |s| ==> !IsDigit(s[e])
    ensures DigitRun(s, k) == e
    decreases e - k
  {
    if k < e {
      DigitRunEnds(s, k + 1, e);
    }
  }

  /** A full match of `(\d+)_(\d+)_(outdoor|indoors)_(\w+)<suffix>`,
      case-insensitively, as std::regex_match with std::regex::icase does
      it. Groups 1, 2 and 4 are the scene, scan and image name; the point is
      indoors only when group 3 is exactly "indoors" (that comparison is
      case-sensitive). Because `\d` excludes `_` and the suffix has a fixed
      length, every group is determined by the input. */
  function MatchDataPoint(filename: string, suffix: string): (r: Option<DataPoint>) {
    var i := DigitRun(filename, 0);
    if i == 0 || i >= |filename| || filename[i] != '_' then None
    else
      var j := DigitRun(filename, i + 1);
      if j == i + 1 || j + 9 + |suffix| >= |filename| || filename[j] != '_' then None
      else MatchAfterIds(filename, i, j, suffix)
  }

  /** The rest of the match once groups 1 and 2 end at i and j. */
  function MatchAfterIds(filename: string, i: nat, j: nat, suffix: string): Option<DataPoint>
    requires 0 < i < j && j + 9 + |suffix| < |filename|
  {
    var sceneWord := filename[j + 1..j + 8];
    var imgname := filename[j + 9..|filename| - |suffix|];
    if && SceneLabel(sceneWord) && filename[j + 8] == '_' && AllWordChars(imgname)
       && EqualsIgnoreCase(filename[|filename| - |suffix|..], suffix)
    then Some(DataPoint(sceneWord == "indoors", filename[..i], filename[i + 1..j], imgname))
    else None
  }

  /** match_image_file. */
  function MatchImageFile(filename: string): Option<DataPoint> {
    MatchDataPoint(filename, IMAGE_SUFFIX)
  }

  /** match_depth_file. */
  function MatchDepthFile(filename: string): Option<DataPoint> {
    MatchDataPoint(filename, DEPTH_SUFFIX)
  }

  /** match_depth_mask_file. */
  function MatchDepthMaskFile(filename: string): Option<DataPoint> {
    MatchDataPoint(filename, DEPTH_MASK_SUFFIX)
  }

  /** Every name a matcher accepts is a dataset file name: a well-formed
      key, a scene label, '_' separators and the suffix in some case; the
      key's indoors flag is whether the label is exactly "indoors". */
  lemma MatchDataPointIsSound(filename: string, suffix: string, dp: DataPoint)
    requires MatchDataPoint(filename, suffix) == Some(dp)
    ensures var n := |dp.sceneId| + |dp.scanId| + 2;
      && WellFormed(dp)
      && |filename| == n + 8 + |dp.imgname| + |suffix|
      && SceneLabel(filename[n..n + 7])
      && dp.indoors == (filename[n..n + 7] == "indoors")
      && EqualsIgnoreCase(filename[|filename| - |suffix|..], suffix)
      && filename == FileName(dp.sceneId, dp.scanId, filename[n..n + 7], dp.imgname, filename[|filename| - |suffix|..])
  {
    var i, j := MatchGroups(filename, suffix);
    KeyOfGroups(filename, suffix, dp, i, j);
  }

  /** The facts of soundness for a name whose ids end at i and j and whose
      key is made of its slices. */
  lemma KeyOfGroups(f: string, suffix: string, dp: DataPoint, i: nat, j: nat)
    requires 0 < i && i + 1 < j && j + 9 + |suffix| < |f| && f[i] == '_' && f[j] == '_' && f[j + 8] == '_'
    requires forall m :: 0 <= m < i ==> IsDigit(f[m])
    requires forall m :: i + 1 <= m < j ==> IsDigit(f[m])
    requires SceneLabel(f[j + 1..j + 8]) && AllWordChars(f[j + 9..|f| - |suffix|])
    requires EqualsIgnoreCase(f[|f| - |suffix|..], suffix)
    requires dp == DataPoint(f[j + 1..j + 8] == "indoors", f[..i], f[i + 1..j], f[j + 9..|f| - |suffix|])
    ensures var n := |dp.sceneId| + |dp.scanId| + 2;
      && WellFormed(dp)
      && |f| == n + 8 + |dp.imgname| + |suffix|
      && SceneLabel(f[n..n + 7])
      && dp.indoors == (f[n..n + 7] == "indoors")
      && EqualsIgnoreCase(f[|f| - |suffix|..], suffix)
      && f == FileName(dp.sceneId, dp.scanId, f[n..n + 7], dp.imgname, f[|f| - |suffix|..])
  {
    assert |dp.sceneId| + |dp.scanId| + 2 == j + 1;
    MatchedKeyIsWellFormed(f, suffix, dp, i, j);
    FileNameOfParts(f, i, j, j + 8, |f| - |suffix|);
  }

  /** The key of an accepted name is well formed. */
  lemma MatchedKeyIsWellFormed(f: string, suffix: string, dp: DataPoint, i: nat, j: nat)
    requires 0 < i && i + 1 < j && j + 9 + |suffix| < |f|
    requires forall m :: 0 <= m < i ==> IsDigit(f[m])
    requires forall m :: i + 1 <= m < j ==> IsDigit(f[m])
    requires AllWordChars(f[j + 9..|f| - |suffix|])
    requires dp == DataPoint(f[j + 1..j + 8] == "indoors", f[..i], f[i + 1..j], f[j + 9..|f| - |suffix|])
    ensures WellFormed(dp)
  {
    assert |dp.sceneId| == i && |dp.scanId| == j - i - 1;
    assert AllDigits(dp.sceneId) by {
      forall m | 0 <= m < i ensures IsDigit(dp.sceneId[m]) {
        assert dp.sceneId[m] == f[m];
      }
    }
    assert AllDigits(dp.scanId) by {
      forall m | 0 <= m < j - i - 1 ensures IsDigit(dp.scanId[m]) {
        assert dp.scanId[m] == f[i + 1 + m];
      }
    }
  }

  /** What an accepted name has, with the ends i and j of its two ids. */
  lemma MatchGroups(f: string, suffix: string) returns (i: nat, j: nat)
    requires MatchDataPoint(f, suffix).Some?
    ensures 0 < i && i + 1 < j && j + 9 + |suffix| < |f| && f[i] == '_' && f[j] == '_' && f[j + 8] == '_'
    ensures forall m :: 0 <= m < i ==> IsDigit(f[m])
    ensures forall m :: i + 1 <= m < j ==> IsDigit(f[m])
    ensures SceneLabel(f[j + 1..j + 8]) && AllWordChars(f[j + 9..|f| - |suffix|])
    ensures EqualsIgnoreCase(f[|f| - |suffix|..], suffix)
    ensures MatchDataPoint(f, suffix).value
         == DataPoint(f[j + 1..j + 8] == "indoors", f[..i], f[i + 1..j], f[j + 9..|f| - |suffix|])
  {
    i := DigitRun(f, 0);
    j := DigitRun(f, i + 1);
  }

  /** A name with '_' at i, j and k is the file name of its slices. */
  lemma FileNameOfParts(f: string, i: nat, j: nat, k: nat, l: nat)
    requires i < j < k < l <= |f| && f[i] == '_' && f[j] == '_' && f[k] == '_'
    ensures f == FileName(f[..i], f[i + 1..j], f[j + 1..k], f[k + 1..l], f[l..])
  {
    assert f == f[..i] + [f[i]] + f[i + 1..j] + [f[j]] + f[j + 1..k] + [f[k]] + f[k + 1..l] + f[l..];
  }

  /** Where each part of a dataset file name lies. */
  lemma FileNameParts(scene: string, scan: string, sceneWord: string, imgname: string, sfx: string)
    requires WellFormed(DataPoint(true, scene, scan, imgname)) && |sceneWord| == 7
    ensures var f := FileName(scene, scan, sceneWord, imgname, sfx);
      var i, j := |scene|, |scene| + 1 + |scan|;
      && |f| == j + 9 + |imgname| + |sfx|
      && f[..i] == scene && f[i] == '_' && f[i + 1..j] == scan && f[j] == '_'
      && f[j + 1..j + 8] == sceneWord && f[j + 8] == '_'
      && f[j + 9..|f| - |sfx|] == imgname && f[|f| - |sfx|..] == sfx
      && (forall m :: 0 <= m < i ==> IsDigit(f[m]))
      && (forall m :: i + 1 <= m < j ==> IsDigit(f[m]))
  {
    var tail := "_" + sceneWord + "_" + imgname + sfx;
    var f := FileName(scene, scan, sceneWord, imgname, sfx);
    assert f == scene + "_" + scan + tail;
    var i := |scene|;
    var j := |scene| + 1 + |scan|;
    assert f[j..] == tail;
    assert tail[1..8] == sceneWord;
    assert tail[9..|tail| - |sfx|] == imgname;
    assert forall m :: 0 <= m < i ==> f[m] == scene[m];
    assert forall m :: i + 1 <= m < j ==> f[m] == scan[m - i - 1];
  }

  /** The matcher on a name whose groups lie where they should: the ids end
      at i and j, and the rest is a label, '_', a word and the suffix. */
  lemma {:induction false} MatchOfParts(
    f: string, i: nat, j: nat, suffix: string, scene: string, scan: string, sceneWord: string, imgname: string)
    requires 0 < i && i + 1 < j && j + 9 + |suffix| < |f|
    requires forall m :: 0 <= m < i ==> IsDigit(f[m])
    requires forall m :: i + 1 <= m < j ==> IsDigit(f[m])
    requires f[i] == '_' && f[j] == '_' && f[j + 8] == '_'
    requires f[..i] == scene && f[i + 1..j] == scan && f[j + 1..j + 8] == sceneWord
    requires f[j + 9..|f| - |suffix|] == imgname
    requires SceneLabel(sceneWord) && AllWordChars(imgname)
    requires EqualsIgnoreCase(f[|f| - |suffix|..], suffix)
    ensures MatchDataPoint(f, suffix) == Some(DataPoint(sceneWord == "indoors", scene, scan, imgname))
  {
    DigitRunEnds(f, 0, i);
    DigitRunEnds(f, i + 1, j);
  }

  /** Every dataset file name is accepted, with the key it spells. */
  lemma {:induction false} MatchDataPointIsComplete(scene: string, scan: string, sceneWord: string, imgname: string, sfx: string, suffix: string)
    requires WellFormed(DataPoint(true, scene, scan, imgname)) && SceneLabel(sceneWord)
    requires EqualsIgnoreCase(sfx, suffix)
    ensures MatchDataPoint(FileName(scene, scan, sceneWord, imgname, sfx), suffix)
         == Some(DataPoint(sceneWord == "indoors", scene, scan, imgname))
  {
    FileNameParts(scene, scan, sceneWord, imgname, sfx);
    MatchOfParts(FileName(scene, scan, sceneWord, imgname, sfx), |scene|, |scene| + 1 + |scan|, suffix,
                 scene, scan, sceneWord, imgname);
  }

  /** The image of a point as the dataset names it, round-tripping through
      match_image_file. */
  lemma ImageFileNameRoundTrip(dp: DataPoint)
    requires WellFormed(dp)
    ensures MatchImageFile(FileName(dp.sceneId, dp.scanId, if dp.indoors then "indoors" else "outdoor", dp.imgname, IMAGE_SUFFIX))
         == Some(dp)
  {
    MatchDataPointIsComplete(dp.sceneId, dp.scanId, if dp.indoors then "indoors" else "outdoor", dp.imgname, IMAGE_SUFFIX, IMAGE_SUFFIX);
  }

  /** The scene word is matched in any case, but only the exact lower-case
      "indoors" makes an indoors point: an upper-case INDOORS file is keyed
      as outdoor. */
  lemma MatchLabelIsCaseSensitive()
    ensures MatchImageFile(FileName("1", "2", "INDOORS", "a", ".png")) == Some(DataPoint(false, "1", "2", "a"))
    ensures MatchImageFile(FileName("1", "2", "indoors", "a", ".png")) == Some(DataPoint(true, "1", "2", "a"))
  {
    assert EqualsIgnoreCase("INDOORS", "indoors");
    MatchDataPointIsComplete("1", "2", "INDOORS", "a", ".png", IMAGE_SUFFIX);
    MatchDataPointIsComplete("1", "2", "indoors", "a", ".png", IMAGE_SUFFIX);
  }

  /** An accepted name ends with the suffix, in some case. */
  lemma MatchHasSuffix(filename: string, suffix: string)
    requires MatchDataPoint(filename, suffix).Some?
    ensures |filename| > |suffix| && EqualsIgnoreCase(filename[|filename| - |suffix|..], suffix)
  {
  }

  /** The three suffixes differ in some character under any case: a name
      ends with at most one of them. */
  lemma SuffixesDisagree(f: string)
    requires |f| >= 15
    ensures var n := |f|;
      && !(EqualsIgnoreCase(f[n - 4..], IMAGE_SUFFIX) && EqualsIgnoreCase(f[n - 10..], DEPTH_SUFFIX))
      && !(EqualsIgnoreCase(f[n - 4..], IMAGE_SUFFIX) && EqualsIgnoreCase(f[n - 15..], DEPTH_MASK_SUFFIX))
      && !(EqualsIgnoreCase(f[n - 10..], DEPTH_SUFFIX) && EqualsIgnoreCase(f[n - 15..], DEPTH_MASK_SUFFIX))
  {
    var n := |f|;
    if EqualsIgnoreCase(f[n - 4..], IMAGE_SUFFIX) {
      assert ToLower(f[n - 4..][1]) == ToLower(IMAGE_SUFFIX[1]);
      assert ToLower(f[n - 3]) == 'p';
    }
    if EqualsIgnoreCase(f[n - 10..], DEPTH_SUFFIX) {
      assert ToLower(f[n - 10..][7]) == ToLower(DEPTH_SUFFIX[7]);
      assert ToLower(f[n - 10..][0]) == ToLower(DEPTH_SUFFIX[0]);
      assert ToLower(f[n - 3]) == 'n' && ToLower(f[n - 10]) == '_';
    }
    if EqualsIgnoreCase(f[n - 15..], DEPTH_MASK_SUFFIX) {
      assert ToLower(f[n - 15..][12]) == ToLower(DEPTH_MASK_SUFFIX[12]);
      assert ToLower(f[n - 15..][5]) == ToLower(DEPTH_MASK_SUFFIX[5]);
      assert ToLower(f[n - 3]) == 'n' && ToLower(f[n - 10]) == 'h';
    }
  }

  /** No file name is accepted by two matchers, so the order in which a
      scan's files are tried does not matter. */
  lemma {:induction false} MatchersAreExclusive(filename: string)
    ensures !(MatchImageFile(filename).Some? && MatchDepthFile(filename).Some?)
    ensures !(MatchImageFile(filename).Some? && MatchDepthMaskFile(filename).Some?)
    ensures !(MatchDepthFile(filename).Some? && MatchDepthMaskFile(filename).Some?)
  {
    var image, depth, mask := MatchImageFile(filename), MatchDepthFile(filename), MatchDepthMaskFile(filename);
    if image.Some? {
      MatchHasSuffix(filename, IMAGE_SUFFIX);
    }
    if depth.Some? {
      MatchHasSuffix(filename, DEPTH_SUFFIX);
    }
    if mask.Some? {
      MatchHasSuffix(filename, DEPTH_MASK_SUFFIX);
    }
    if |filename| >= 15 {
      SuffixesDisagree(filename);
    }
  }

  /** match_scan_directory: the digits of `scan_(\d+)`, matched
      case-insensitively. */
  function MatchScanDirectory(directory: string): (r: Option<string>)
    ensures r.Some? ==> |r.value| > 0 && AllDigits(r.value)
    ensures r.Some? ==> |directory| > 5 && EqualsIgnoreCase(directory[..5], "scan_") && directory == directory[..5] + r.value
  {
    if |directory| > 5 && EqualsIgnoreCase(directory[..5], "scan_") && AllDigits(directory[5..])
    then Some(directory[5..])
    else None
  }

  /** Any spelling of "scan_" followed by a scan id is accepted, and gives
      the id back. */
  lemma ScanDirectoryRoundTrip(prefix: string, scanId: string)
    requires EqualsIgnoreCase(prefix, "scan_") && |scanId| > 0 && AllDigits(scanId)
    ensures MatchScanDirectory(prefix + scanId) == Some(scanId)
  {
    assert (prefix + scanId)[..5] == prefix;
    assert (prefix + scanId)[5..] == scanId;
  }

  /** DataPoint::to_string. */
  function DataPointToString(dp: DataPoint): (s: string)
    ensures |s| > 7 && s[..7] == if dp.indoors then "indoors" else "outdoor"
  {
    (if dp.indoors then "indoors" else "outdoor") + " scene " + dp.sceneId + ", scan " + dp.scanId + ", image " + dp.imgname
  }

  /** Two well-formed points with the same text are the same point, so the
      skip messages identify the point they are about. */
  lemma {:induction false} DataPointToStringIsInjective(a: DataPoint, b: DataPoint)
    requires WellFormed(a) && WellFormed(b)
    requires DataPointToString(a) == DataPointToString(b)
    ensures a == b
  {
    ToStringParts(a);
    ToStringParts(b);
  }

  /** Where the fields lie in the text of a well-formed point: the scene id
      is the run of digits at 14, the scan id the run of digits seven
      characters after it, and the image name the rest after ", image ". */
  lemma ToStringParts(dp: DataPoint)
    requires WellFormed(dp)
    ensures var s := DataPointToString(dp);
      var p := 14 + |dp.sceneId| + 7;
      && s[..7] == (if dp.indoors then "indoors" else "outdoor")
      && DigitRun(s, 14) == 14 + |dp.sceneId| && s[14..14 + |dp.sceneId|] == dp.sceneId
      && DigitRun(s, p) == p + |dp.scanId| && s[p..p + |dp.scanId|] == dp.scanId
      && s[p + |dp.scanId| + 8..] == dp.imgname
  {
    var sceneWord := if dp.indoors then "indoors" else "outdoor";
    SceneIdAt(sceneWord, dp);
    ScanIdAt(sceneWord, dp);
  }

  lemma SceneIdAt(sceneWord: string, dp: DataPoint)
    requires |sceneWord| == 7 && WellFormed(dp)
    ensures var s := sceneWord + " scene " + dp.sceneId + ", scan " + dp.scanId + ", image " + dp.imgname;
      && DigitRun(s, 14) == 14 + |dp.sceneId|
      && s[14..14 + |dp.sceneId|] == dp.sceneId
      && s[14 + |dp.sceneId|..] == ", scan " + dp.scanId + ", image " + dp.imgname
  {
    var s := sceneWord + " scene " + dp.sceneId + ", scan " + dp.scanId + ", image " + dp.imgname;
    assert s[14..14 + |dp.sceneId|] == dp.sceneId;
    assert s[14 + |dp.sceneId|] == ',';
    DigitRunEnds(s, 14, 14 + |dp.sceneId|);
    assert s[14 + |dp.sceneId|..] == ", scan " + dp.scanId + ", image " + dp.imgname;
  }

  lemma ScanIdAt(sceneWord: string, dp: DataPoint)
    requires |sceneWord| == 7 && WellFormed(dp)
    ensures var s := sceneWord + " scene " + dp.sceneId + ", scan " + dp.scanId + ", image " + dp.imgname;
      var p := 14 + |dp.sceneId| + 7;
      && DigitRun(s, p) == p + |dp.scanId|
      && s[p..p + |dp.scanId|] == dp.scanId
      && s[p + |dp.scanId| + 8..] == dp.imgname
  {
    var s := sceneWord + " scene " + dp.sceneId + ", scan " + dp.scanId + ", image " + dp.imgname;
    var p := 14 + |dp.sceneId| + 7;
    assert s[p..p + |dp.scanId|] == dp.scanId;
    assert s[p + |dp.scanId|] == ',';
    DigitRunEnds(s, p, p + |dp.scanId|);
    assert s[p + |dp.scanId| + 8..] == dp.imgname;
  }

  // ---------------------------------------------------------------------------
  // Classifying a scan directory and joining its files

  /** A filesystem path, as text. */
  type Path = string

  /** An entry of a scan directory as the directory iterator yields it: its
      path, the path's last component, and whether it is a regular file. */
  datatype DirEntry = DirEntry(path: Path, filename: string, isRegularFile: bool)

  /** The three kinds of dataset file. */
  datatype FileKind = ImageFile | DepthFile | DepthMaskFile

  /** DatasetPointPaths. */
  datatype DatasetPointPaths = DatasetPointPaths(imageFilepath: Path, depthFilepath: Path, depthMaskFilepath: Path)

  /** DatasetScan: the scan directory and the complete data points found in it. */
  datatype DatasetScan = DatasetScan(directory: Path, paths: map<DataPoint, DatasetPointPaths>)

  /** The three maps search_for_images_in_scan fills, one per kind. */
  datatype Classified = Classified(
    images: map<DataPoint, Path>, depths: map<DataPoint, Path>, depthMasks: map<DataPoint, Path>)

  function MatchKind(kind: FileKind, filename: string): Option<DataPoint> {
    match kind
    case ImageFile => MatchImageFile(filename)
    case DepthFile => MatchDepthFile(filename)
    case DepthMaskFile => MatchDepthMaskFile(filename)
  }

  function MapOf(c: Classified, kind: FileKind): map<DataPoint, Path> {
    match kind
    case ImageFile => c.images
    case DepthFile => c.depths
    case DepthMaskFile => c.depthMasks
  }

  /** The entry is a regular file that the matcher of its kind keys as dp. */
  predicate IsEntryOf(e: DirEntry, kind: FileKind, dp: DataPoint) {
    e.isRegularFile && MatchKind(kind, e.filename) == Some(dp)
  }

  /** One step of the classification loop: a regular file goes into the
      map of the first matcher that accepts it (image, then depth, then
      mask), replacing what that key held; anything else is skipped. */
  function ClassifyEntry(c: Classified, e: DirEntry): Classified {
    if !e.isRegularFile then c
    else match MatchImageFile(e.filename)
      case Some(dp) => c.(images := c.images[dp := e.path])
      case None =>
        match MatchDepthFile(e.filename)
        case Some(dp) => c.(depths := c.depths[dp := e.path])
        case None =>
          match MatchDepthMaskFile(e.filename)
          case Some(dp) => c.(depthMasks := c.depthMasks[dp := e.path])
          case None => c
  }

  /** The classification of the entries in iteration order. */
  function Classify(entries: seq<DirEntry>): Classified {
    if |entries| == 0 then Classified(map[], map[], map[])
    else ClassifyEntry(Classify(entries[..|entries| - 1]), entries[|entries| - 1])
  }

  /** A classification step only touches the key the entry has, in the map
      of its kind; since the matchers are exclusive, the order in which
      they are tried does not decide the kind. */
  lemma {:induction false} ClassifyEntryEffect(c: Classified, e: DirEntry, kind: FileKind, dp: DataPoint)
    ensures IsEntryOf(e, kind, dp) ==> MapOf(ClassifyEntry(c, e), kind) == MapOf(c, kind)[dp := e.path]
    ensures !IsEntryOf(e, kind, dp) ==>
      (dp in MapOf(ClassifyEntry(c, e), kind) <==> dp in MapOf(c, kind))
      && (dp in MapOf(c, kind) ==> MapOf(ClassifyEntry(c, e), kind)[dp] == MapOf(c, kind)[dp])
  {
    MatchersAreExclusive(e.filename);
  }

  /** The last entry that is a file of the kind keyed as dp decides dp's
      path: later files overwrite earlier ones. */
  lemma {:induction false} ClassifyLastEntryWins(entries: seq<DirEntry>, kind: FileKind, dp: DataPoint, k: nat)
    requires k < |entries| && IsEntryOf(entries[k], kind, dp)
    requires forall m :: k < m < |entries| ==> !IsEntryOf(entries[m], kind, dp)
    ensures dp in MapOf(Classify(entries), kind) && MapOf(Classify(entries), kind)[dp] == entries[k].path
  {
    var n := |entries|;
    var init := entries[..n - 1];
    ClassifyEntryEffect(Classify(init), entries[n - 1], kind, dp);
    if k < n - 1 {
      ClassifyLastEntryWins(init, kind, dp, k);
    }
  }

  /** A key is in the map of a kind exactly when some entry is a file of
      that kind keyed as it. */
  lemma {:induction false} ClassifyHasKeyIff(entries: seq<DirEntry>, kind: FileKind, dp: DataPoint)
    ensures dp in MapOf(Classify(entries), kind) <==> exists m :: 0 <= m < |entries| && IsEntryOf(entries[m], kind, dp)
  {
    if |entries| > 0 {
      var n := |entries|;
      var init := entries[..n - 1];
      ClassifyEntryEffect(Classify(init), entries[n - 1], kind, dp);
      ClassifyHasKeyIff(init, kind, dp);
      if exists m :: 0 <= m < n - 1 && IsEntryOf(init[m], kind, dp) {
        var m :| 0 <= m < n - 1 && IsEntryOf(init[m], kind, dp);
        assert entries[m] == init[m];
      }
      if exists m :: 0 <= m < n && IsEntryOf(entries[m], kind, dp) {
        var m :| 0 <= m < n && IsEntryOf(entries[m], kind, dp);
        if m < n - 1 {
          assert init[m] == entries[m];
        }
      }
    }
  }

  /** The join: a data point with an image, a depth and a mask, with their
      three paths. */
  function Join(c: Classified): (joined: map<DataPoint, DatasetPointPaths>)
    ensures forall dp :: dp in joined <==> dp in c.images && dp in c.depths && dp in c.depthMasks
  {
    map dp | dp in c.images && dp in c.depths && dp in c.depthMasks
      :: DatasetPointPaths(c.images[dp], c.depths[dp], c.depthMasks[dp])
  }

  /** search_for_images_in_scan over the directory's entries: classify every
      entry, then keep the image keys that also have a depth and a mask. */
  method SearchForImagesInScan(scanDirectory: Path, entries: seq<DirEntry>) returns (scan: DatasetScan)
    ensures scan == DatasetScan(scanDirectory, Join(Classify(entries)))
  {
    var images: map<DataPoint, Path> := map[];
    var depths: map<DataPoint, Path> := map[];
    var depthMasks: map<DataPoint, Path> := map[];
    var i := 0;
    while i < |entries|
      invariant 0 <= i <= |entries|
      invariant Classified(images, depths, depthMasks) == Classify(entries[..i])
    {
      assert entries[..i + 1][..i] == entries[..i];
      var e := entries[i];
      i := i + 1;
      if !e.isRegularFile {
        continue;
      }
      var image := MatchImageFile(e.filename);
      if image.Some? {
        images := images[image.value := e.path];
        continue;
      }
      var depth := MatchDepthFile(e.filename);
      if depth.Some? {
        depths := depths[depth.value := e.path];
        continue;
      }
      var depthMask := MatchDepthMaskFile(e.filename);
      if depthMask.Some? {
        depthMasks := depthMasks[depthMask.value := e.path];
      }
    }
    assert entries[..i] == entries;
    var paths: map<DataPoint, DatasetPointPaths> := map[];
    var remaining := images.Keys;
    while remaining != {}
      invariant remaining <= images.Keys
      invariant forall dp :: dp in paths <==> dp in images && dp !in remaining && dp in depths && dp in depthMasks
      invariant forall dp :: dp in paths ==> paths[dp] == DatasetPointPaths(images[dp], depths[dp], depthMasks[dp])
      decreases |remaining|
    {
      var dp :| dp in remaining;
      if dp in depths && dp in depthMasks {
        paths := paths[dp := DatasetPointPaths(images[dp], depths[dp], depthMasks[dp])];
      }
      remaining := remaining - {dp};
    }
    assert paths == Join(Classified(images, depths, depthMasks));
    return DatasetScan(scanDirectory, paths);
  }

  /** A key with files of all three kinds is a data point of the scan, with
      the paths of the last image, depth and mask files keyed as it. */
  lemma {:induction false} ScanPointsAreLastMatches(
    entries: seq<DirEntry>, dp: DataPoint, ki: nat, kd: nat, km: nat)
    requires ki < |entries| && IsEntryOf(entries[ki], ImageFile, dp)
    requires forall m :: ki < m < |entries| ==> !IsEntryOf(entries[m], ImageFile, dp)
    requires kd < |entries| && IsEntryOf(entries[kd], DepthFile, dp)
    requires forall m :: kd < m < |entries| ==> !IsEntryOf(entries[m], DepthFile, dp)
    requires km < |entries| && IsEntryOf(entries[km], DepthMaskFile, dp)
    requires forall m :: km < m < |entries| ==> !IsEntryOf(entries[m], DepthMaskFile, dp)
    ensures var joined := Join(Classify(entries));
      dp in joined && joined[dp] == DatasetPointPaths(entries[ki].path, entries[kd].path, entries[km].path)
  {
    ClassifyLastEntryWins(entries, ImageFile, dp, ki);
    ClassifyLastEntryWins(entries, DepthFile, dp, kd);
    ClassifyLastEntryWins(entries, DepthMaskFile, dp, km);
  }

  /** A data point is in the scan exactly when files of all three kinds are
      keyed as it. */
  lemma {:induction false} ScanHasPointIff(entries: seq<DirEntry>, dp: DataPoint)
    ensures dp in Join(Classify(entries)) <==>
      && (exists m :: 0 <= m < |entries| && IsEntryOf(entries[m], ImageFile, dp))
      && (exists m :: 0 <= m < |entries| && IsEntryOf(entries[m], DepthFile, dp))
      && (exists m :: 0 <= m < |entries| && IsEntryOf(entries[m], DepthMaskFile, dp))
  {
    ClassifyHasKeyIff(entries, ImageFile, dp);
    ClassifyHasKeyIff(entries, DepthFile, dp);
    ClassifyHasKeyIff(entries, DepthMaskFile, dp);
  }
}
