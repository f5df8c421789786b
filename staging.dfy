/**
  The shapes of the file names the uploader writes into the editor's temporary
  cache: the staged copy of an asset bundle or unity package, and a saved image.
 */
module Staging {
  import opened Strings
  import opened Versioning

  /** A wall-clock reading, as `DateTime.Now` gives it. */
  datatype Clock = Clock(year: nat, month: nat, day: nat, hour: nat, minute: nat, second: nat)

  type Moment = c: Clock
    | 1 <= c.year <= 9999 && 1 <= c.month <= 12 && 1 <= c.day <= 31
      && c.hour < 24 && c.minute < 60 && c.second < 60
    witness Clock(1, 1, 1, 0, 0, 0)

  /** What the editor, the SDK and the file system supply to one upload:
      `Application.temporaryCachePath`, `Application.unityVersion`, the API
      server environment, `CurrentPlatform().ToApiString()`, the `ApiVersion`
      of `ApiWorld.VERSION` and `ApiAvatar.VERSION`, `File.Exists`, and the
      clock reading `DateTime.Now`. */
  datatype Editor = Editor(
    cachePath: string,
    unityVersion: string,
    serverEnvironment: string,
    platform: string,
    worldAssetVersion: string,
    avatarAssetVersion: string,
    fileExists: string -> bool,
    now: Moment)

  // ---------------------------------------------------------------------------
  // Path.GetExtension
  // ---------------------------------------------------------------------------

  /** The directory, alternative directory and volume separators of a Windows editor. */
  predicate IsSeparator(c: char) {
    c == '\\' || c == '/' || c == ':'
  }

  /** An extension as `Path.GetExtension` returns it: a dot, then at least one
      character that is neither a dot nor a separator. */
  predicate IsExtension(ext: string) {
    2 <= |ext| && ext[0] == '.'
    && forall k :: 1 <= k < |ext| ==> ext[k] != '.' && !IsSeparator(ext[k])
  }

  /** The backward scan of `Path.GetExtension`, having passed `path[i..]`. */
  function ExtensionFrom(path: string, i: nat): (ext: string)
    requires i <= |path|
    requires forall k :: i <= k < |path| ==> path[k] != '.' && !IsSeparator(path[k])
    ensures ext == "" || (IsExtension(ext) && |ext| <= |path| && ext == path[|path| - |ext|..])
    decreases i
  {
    if i == 0 then ""
    else if path[i - 1] == '.' then (if i == |path| then "" else path[i - 1..])
    else if IsSeparator(path[i - 1]) then ""
    else ExtensionFrom(path, i - 1)
  }

  /** `Path.GetExtension(path)`: from the last dot of the last path segment to
      the end, or nothing when that segment has no dot or ends in one. */
  function Extension(path: string): (ext: string)
    ensures ext == "" || (IsExtension(ext) && |ext| <= |path| && ext == path[|path| - |ext|..])
  {
    ExtensionFrom(path, |path|)
  }

  lemma {:induction false} ScanPassesOver(path: string, j: nat, i: nat)
    requires j <= i <= |path|
    requires forall k :: j <= k < |path| ==> path[k] != '.' && !IsSeparator(path[k])
    ensures ExtensionFrom(path, i) == ExtensionFrom(path, j)
    decreases i - j
  {
    if j < i {
      assert path[i - 1] != '.' && !IsSeparator(path[i - 1]);
      ScanPassesOver(path, j, i - 1);
    }
  }

  /** Whatever precedes it, a path ending in an extension has that extension. */
  lemma ExtensionOfSuffix(stem: string, ext: string)
    requires IsExtension(ext)
    ensures Extension(stem + ext) == ext
  {
    var path := stem + ext;
    ScanPassesOver(path, |stem| + 1, |path|);
    assert path[|stem|] == '.';
    assert path[|stem|..] == ext;
  }

  // ---------------------------------------------------------------------------
  // Staged copies: FormatAssetBundle and FormatUnityPackage
  // ---------------------------------------------------------------------------

  /** The pieces of `{cache}/{id}_{version}_{unity}_{apiVersion}_{platform}_{server}{ext}`,
      the name both staged copies share up to their extension. */
  function StagingPieces(editor: Editor, blueprintId: Str, version: int32, platform: string,
                         assetVersion: string, ext: string): seq<string>
  {
    [editor.cachePath, "/", Show(blueprintId), "_", IntToString(version as int), "_", editor.unityVersion,
     "_", assetVersion, "_", platform, "_", editor.serverEnvironment, ext]
  }

  /** The staged asset bundle keeps the source bundle's extension. */
  function StagedBundlePath(editor: Editor, assetBundlePath: string, blueprintId: Str, version: int32,
                            platform: string, assetVersion: string): string
  {
    Concat(StagingPieces(editor, blueprintId, version, platform, assetVersion, Extension(assetBundlePath)))
  }

  /** The staged unity package always ends in `.unitypackage`. */
  function StagedPackagePath(editor: Editor, blueprintId: Str, version: int32,
                             platform: string, assetVersion: string): string
  {
    Concat(StagingPieces(editor, blueprintId, version, platform, assetVersion, ".unitypackage"))
  }

  /** A staged name is the cache directory, then `{id}_{version}`, then the rest,
      and it is its stem followed by the extension. */
  lemma StagingLayout(editor: Editor, blueprintId: Str, version: int32, platform: string,
                      assetVersion: string, ext: string)
    ensures var ps := StagingPieces(editor, blueprintId, version, platform, assetVersion, ext);
            Concat(ps) == editor.cachePath + "/" + (Show(blueprintId) + "_" + IntToString(version as int))
                          + Concat(ps[5..])
            && Concat(ps) == Concat(ps[..13]) + ext
  {
    var ps := StagingPieces(editor, blueprintId, version, platform, assetVersion, ext);
    ConcatSplit(ps, 2);
    assert ps[..2] == [editor.cachePath, "/"];
    Concat2(editor.cachePath, "/");
    ConcatSplit(ps[2..], 3);
    assert ps[2..][..3] == [Show(blueprintId), "_", IntToString(version as int)];
    Concat3(Show(blueprintId), "_", IntToString(version as int));
    assert ps[2..][3..] == ps[5..];
    assert ps[..|ps| - 1] == ps[..13];
  }

  /** Interpolated pieces whose last piece is an extension have that extension. */
  lemma ConcatExtension(pieces: seq<string>)
    requires |pieces| > 0 && IsExtension(pieces[|pieces| - 1])
    ensures Extension(Concat(pieces)) == pieces[|pieces| - 1]
  {
    ExtensionOfSuffix(Concat(pieces[..|pieces| - 1]), pieces[|pieces| - 1]);
  }

  /** Interpolated pieces starting with a directory and "/" lie in that directory. */
  lemma ConcatInDirectory(pieces: seq<string>)
    requires |pieces| >= 2 && pieces[1] == "/"
    ensures var s := Concat(pieces);
            |pieces[0]| < |s| && s[..|pieces[0]| + 1] == pieces[0] + "/"
  {
    ConcatSplit(pieces, 2);
    assert pieces[..2] == [pieces[0], "/"];
    Concat2(pieces[0], "/");
  }

  /** Both staged copies go into the editor's temporary cache directory. */
  lemma StagedUnderCache(editor: Editor, assetBundlePath: string, blueprintId: Str, version: int32,
                         platform: string, assetVersion: string)
    ensures var path := StagedBundlePath(editor, assetBundlePath, blueprintId, version, platform, assetVersion);
            |editor.cachePath| < |path| && path[..|editor.cachePath| + 1] == editor.cachePath + "/"
    ensures var path := StagedPackagePath(editor, blueprintId, version, platform, assetVersion);
            |editor.cachePath| < |path| && path[..|editor.cachePath| + 1] == editor.cachePath + "/"
  {
    ConcatInDirectory(StagingPieces(editor, blueprintId, version, platform, assetVersion, Extension(assetBundlePath)));
    ConcatInDirectory(StagingPieces(editor, blueprintId, version, platform, assetVersion, ".unitypackage"));
  }

  /** A staged copy has the type of what it copies: the bundle's extension, or `.unitypackage`. */
  lemma StagedCopyKeepsExtension(editor: Editor, assetBundlePath: string, blueprintId: Str, version: int32,
                                 platform: string, assetVersion: string)
    requires Extension(assetBundlePath) != ""
    ensures Extension(StagedBundlePath(editor, assetBundlePath, blueprintId, version, platform, assetVersion))
            == Extension(assetBundlePath)
    ensures Extension(StagedPackagePath(editor, blueprintId, version, platform, assetVersion)) == ".unitypackage"
  {
    ConcatExtension(StagingPieces(editor, blueprintId, version, platform, assetVersion, Extension(assetBundlePath)));
    ConcatExtension(StagingPieces(editor, blueprintId, version, platform, assetVersion, ".unitypackage"));
  }

  lemma CancelAround(p: string, a: string, b: string, t: string)
    requires p + a + t == p + b + t
    ensures a == b
  {
    assert |a| == |b|;
    assert a == (p + a + t)[|p|..|p| + |a|];
    assert b == (p + b + t)[|p|..|p| + |b|];
  }

  /** Cutting at the last occurrence of a separator character. */
  lemma SplitAtLast(a1: string, b1: string, a2: string, b2: string, c: char)
    requires a1 + [c] + b1 == a2 + [c] + b2
    requires c !in b1 && c !in b2
    ensures a1 == a2 && b1 == b2
  {
    var s := a1 + [c] + b1;
    assert s[|a1|] == c;
    assert s[|a2|] == c;
    assert |a1| == |a2|;
    assert a1 == s[..|a1|];
    assert a2 == s[..|a2|];
    assert b1 == s[|a1| + 1..];
    assert b2 == s[|a2| + 1..];
  }

  /** Cutting at the first occurrence of a separator character. */
  lemma SplitAtFirst(a1: string, b1: string, a2: string, b2: string, c: char)
    requires a1 + [c] + b1 == a2 + [c] + b2
    requires c !in a1 && c !in a2
    ensures a1 == a2 && b1 == b2
  {
    var s := a1 + [c] + b1;
    assert s[|a1|] == c;
    assert s[|a2|] == c;
    assert forall k :: 0 <= k < |a1| ==> s[k] == a1[k];
    assert forall k :: 0 <= k < |a2| ==> s[k] == a2[k];
    assert |a1| == |a2|;
    assert a1 == s[..|a1|];
    assert a2 == s[..|a2|];
    assert b1 == s[|a1| + 1..];
    assert b2 == s[|a2| + 1..];
  }

  lemma NoUnderscoreInNumber(n: int)
    ensures '_' !in IntToString(n) && 'x' !in IntToString(n)
  {
    var s := IntToString(n);
    forall i | 0 <= i < |s| ensures s[i] != '_' && s[i] != 'x' {
      assert IsDigit(s[i]) || s[i] == '-';
    }
  }

  /** Staged names do not collide: under one editor, platform and asset
      version, the staged file name determines the blueprint id and version. */
  lemma StagedNamesDetermineIdAndVersion(editor: Editor, platform: string, assetVersion: string,
                                         path1: string, id1: Str, v1: int32,
                                         path2: string, id2: Str, v2: int32)
    requires Extension(path1) == Extension(path2)
    requires StagedBundlePath(editor, path1, id1, v1, platform, assetVersion)
             == StagedBundlePath(editor, path2, id2, v2, platform, assetVersion)
             || StagedPackagePath(editor, id1, v1, platform, assetVersion)
             == StagedPackagePath(editor, id2, v2, platform, assetVersion)
    ensures Show(id1) == Show(id2) && v1 == v2
  {
    var ext := if StagedBundlePath(editor, path1, id1, v1, platform, assetVersion)
                  == StagedBundlePath(editor, path2, id2, v2, platform, assetVersion)
               then Extension(path1) else ".unitypackage";
    var ps1 := StagingPieces(editor, id1, v1, platform, assetVersion, ext);
    var ps2 := StagingPieces(editor, id2, v2, platform, assetVersion, ext);
    assert Concat(ps1) == Concat(ps2);
    StagingLayout(editor, id1, v1, platform, assetVersion, ext);
    StagingLayout(editor, id2, v2, platform, assetVersion, ext);
    assert ps1[5..] == ps2[5..];
    var d1 := IntToString(v1 as int);
    var d2 := IntToString(v2 as int);
    CancelAround(editor.cachePath + "/", Show(id1) + "_" + d1, Show(id2) + "_" + d2, Concat(ps1[5..]));
    NoUnderscoreInNumber(v1 as int);
    NoUnderscoreInNumber(v2 as int);
    SplitAtLast(Show(id1), d1, Show(id2), d2, '_');
    IntToStringInjective(v1 as int, v2 as int);
  }

  // ---------------------------------------------------------------------------
  // ImageName
  // ---------------------------------------------------------------------------

  /** A number below 10^width written with exactly `width` digits, zero-padded on the left. */
  function Fixed(n: nat, width: nat): (s: string)
    requires 1 <= width && n < Pow10(width)
    ensures |s| == width
    ensures forall i :: 0 <= i < |s| ==> IsDigit(s[i])
    ensures DigitsValue(s) == n
    decreases width
  {
    if width == 1 then
      assert [DigitChar(n)][..0] == [];
      [DigitChar(n)]
    else
      var s := Fixed(n / 10, width - 1) + [DigitChar(n % 10)];
      assert s[..|s| - 1] == Fixed(n / 10, width - 1);
      s
  }

  /** A zero-padded field of one width is written by one number only. */
  lemma FixedInjective(a: nat, b: nat, width: nat)
    requires 1 <= width && a < Pow10(width) && b < Pow10(width)
    requires Fixed(a, width) == Fixed(b, width)
    ensures a == b
  {
  }

  /** The pieces of `{DateTime.Now:yyyy-MM-dd_HH-mm-ss}`. */
  function StampPieces(m: Moment): seq<string> {
    assert Pow10(2) == 100 && Pow10(4) == 10000;
    [Fixed(m.year, 4), "-", Fixed(m.month, 2), "-", Fixed(m.day, 2), "_",
     Fixed(m.hour, 2), "-", Fixed(m.minute, 2), "-", Fixed(m.second, 2)]
  }

  /** `{DateTime.Now:yyyy-MM-dd_HH-mm-ss}` */
  function Stamp(m: Moment): string {
    Concat(StampPieces(m))
  }

  /** A timestamp is written by one clock reading only. */
  lemma StampDeterminesMoment(m1: Moment, m2: Moment)
    requires Stamp(m1) == Stamp(m2)
    ensures m1 == m2
  {
    assert Pow10(2) == 100 && Pow10(4) == 10000;
    var p1, p2 := StampPieces(m1), StampPieces(m2);
    assert forall i :: 0 <= i < |p1| ==> |p1[i]| == |p2[i]|;
    ConcatSameShape(p1, p2);
    assert p1[0] == p2[0] && p1[2] == p2[2] && p1[4] == p2[4];
    assert p1[6] == p2[6] && p1[8] == p2[8] && p1[10] == p2[10];
    FixedInjective(m1.year, m2.year, 4);
    FixedInjective(m1.month, m2.month, 2);
    FixedInjective(m1.day, m2.day, 2);
    FixedInjective(m1.hour, m2.hour, 2);
    FixedInjective(m1.minute, m2.minute, 2);
    FixedInjective(m1.second, m2.second, 2);
  }

  /** The pieces of `{savePath}/{name}_{width}x{height}_{timestamp}.png`. */
  function ImagePieces(width: int, height: int, name: string, savePath: string, now: Moment): seq<string> {
    [savePath, "/", name, "_", IntToString(width), "x", IntToString(height), "_", Stamp(now), ".png"]
  }

  /** `ImageName` */
  function ImageName(width: int, height: int, name: string, savePath: string, now: Moment): string {
    Concat(ImagePieces(width, height, name, savePath, now))
  }

  /** An image name is its directory and base name, then the size, then the timestamp and `.png`. */
  lemma ImageLayout(width: int, height: int, name: string, savePath: string, now: Moment)
    ensures var ps := ImagePieces(width, height, name, savePath, now);
            ImageName(width, height, name, savePath, now)
            == Concat(ps[..4]) + (IntToString(width) + "x" + (IntToString(height) + "_" + (Stamp(now) + ".png")))
  {
    var ps := ImagePieces(width, height, name, savePath, now);
    ConcatSplit(ps, 4);
    var rest := ps[4..];
    ConcatSplit(rest, 2);
    assert rest[..2] == [IntToString(width), "x"];
    Concat2(IntToString(width), "x");
    ConcatSplit(rest[2..], 2);
    assert rest[2..][..2] == [IntToString(height), "_"];
    Concat2(IntToString(height), "_");
    assert rest[2..][2..] == [Stamp(now), ".png"];
    Concat2(Stamp(now), ".png");
  }

  /** Every saved image is a `.png`. */
  lemma ImageNameIsPng(width: int, height: int, name: string, savePath: string, now: Moment)
    ensures Extension(ImageName(width, height, name, savePath, now)) == ".png"
  {
    ConcatExtension(ImagePieces(width, height, name, savePath, now));
  }

  /** An image name records the image's size and the second it was saved:
      names alike for one prefix mean the same size and the same clock reading. */
  lemma ImageNameDeterminesSizeAndTime(name: string, savePath: string,
                                       w1: int, h1: int, t1: Moment,
                                       w2: int, h2: int, t2: Moment)
    requires ImageName(w1, h1, name, savePath, t1) == ImageName(w2, h2, name, savePath, t2)
    ensures w1 == w2 && h1 == h2 && t1 == t2
  {
    ImageLayout(w1, h1, name, savePath, t1);
    ImageLayout(w2, h2, name, savePath, t2);
    var p := Concat(ImagePieces(w1, h1, name, savePath, t1)[..4]);
    assert ImagePieces(w1, h1, name, savePath, t1)[..4] == ImagePieces(w2, h2, name, savePath, t2)[..4];
    var full := ImageName(w1, h1, name, savePath, t1);
    var r1 := IntToString(h1) + "_" + (Stamp(t1) + ".png");
    var r2 := IntToString(h2) + "_" + (Stamp(t2) + ".png");
    assert IntToString(w1) + "x" + r1 == full[|p|..];
    assert IntToString(w2) + "x" + r2 == full[|p|..];
    NoUnderscoreInNumber(w1);
    NoUnderscoreInNumber(w2);
    SplitAtFirst(IntToString(w1), r1, IntToString(w2), r2, 'x');
    NoUnderscoreInNumber(h1);
    NoUnderscoreInNumber(h2);
    SplitAtFirst(IntToString(h1), Stamp(t1) + ".png", IntToString(h2), Stamp(t2) + ".png", '_');
    assert Stamp(t1) == (Stamp(t1) + ".png")[..|Stamp(t1) + ".png"| - 4];
    assert Stamp(t2) == (Stamp(t2) + ".png")[..|Stamp(t2) + ".png"| - 4];
    StampDeterminesMoment(t1, t2);
    IntToStringInjective(w1, w2);
    IntToStringInjective(h1, h2);
  }
}
