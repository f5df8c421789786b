/**
  What the upload sessions guarantee, proved about the functions of `Session`
  (and so, through the methods' contracts, about `Uploader`). Each step is
  first described by the exact events it appends; the session-level
  properties are then derived from those descriptions.
 */
module SessionProperties {
  import opened Strings
  import opened Versioning
  import opened Staging
  import opened Records
  import opened Session

  /** `u` is `t` with events appended: nothing already visible is rewritten. */
  predicate Extends(t: seq<Event>, u: seq<Event>) {
    |t| <= |u| && u[..|t|] == t
  }

  lemma CountOne(k: Tally, e: Event)
    ensures Count(k, [e]) == if Counts(k, e) then 1 else 0
  {
  }

  // ---------------------------------------------------------------------------
  // UploadFile and UploadImage
  // ---------------------------------------------------------------------------

  /** A null or empty path never reaches the file helper: `UploadFile` gives ""
      and `UploadImage` gives null, and nothing is appended. Any other path is
      uploaded exactly once. */
  lemma EmptyPathSkipsHelper(remote: Remote, path: Str, existingUrl: Str, fileType: FileType, t: seq<Event>)
    ensures IsNullOrEmpty(path) ==> FileUpload(remote, path, existingUrl, fileType, t) == Upload(Empty, t)
    ensures IsNullOrEmpty(path) ==> ImageUpload(remote, existingUrl, path, t) == Upload(Null, t)
    ensures var u := FileUpload(remote, path, existingUrl, fileType, t);
            Extends(t, u.trace)
            && Count(Uploads(fileType), u.trace) == Count(Uploads(fileType), t) + (if IsNullOrEmpty(path) then 0 else 1)
            && Count(PersistCalls, u.trace) == Count(PersistCalls, t)
            && Count(Terminals, u.trace) == Count(Terminals, t)
  {
    var u := FileUpload(remote, path, existingUrl, fileType, t);
    if !IsNullOrEmpty(path) {
      var e := FileUploaded(path.chars, existingUrl, fileType);
      assert u.trace[..|t|] == t;
      CountAppend(Uploads(fileType), t, [e]);
      CountAppend(PersistCalls, t, [e]);
      CountAppend(Terminals, t, [e]);
      CountOne(Uploads(fileType), e);
      CountOne(PersistCalls, e);
      CountOne(Terminals, e);
    }
  }

  // ---------------------------------------------------------------------------
  // UpdateWorldBlueprint / UpdateAvatarBlueprint
  // ---------------------------------------------------------------------------

  /** The update branch applies the info, uploads a new image only when a new
      image path is given, then saves once; `Save`'s answer is the result. A
      null image path is not "" and so clears the image URL without an upload. */
  lemma UpdateSteps(remote: Remote, kind: Kind, r: Record, info: Info, t: seq<Event>)
    ensures var p := Update(remote, kind, r, Some(info), t);
            var applied := WithInfo(kind, r, info);
            p.ok == remote.saveOk
            && (info.newImagePath == Empty ==> p.rec == applied && p.trace == t + [Saved(kind, applied)])
            && (info.newImagePath == Null ==> p.rec == applied.(imageUrl := Null) && p.trace == t + [Saved(kind, p.rec)])
            && (!IsNullOrEmpty(info.newImagePath) ==>
                  p.rec == applied.(imageUrl := remote.upload(info.newImagePath.chars, r.imageUrl, Image))
                  && p.trace == t + [FileUploaded(info.newImagePath.chars, r.imageUrl, Image), Saved(kind, p.rec)])
  {
  }

  /** Without an info the record is saved as it is. */
  lemma UpdateWithoutInfo(remote: Remote, kind: Kind, r: Record, t: seq<Event>)
    ensures Update(remote, kind, r, None, t) == Persisting(r, remote.saveOk, t + [Saved(kind, r)])
  {
  }

  // ---------------------------------------------------------------------------
  // CreateWorldBlueprint / CreateAvatarBlueprint
  // ---------------------------------------------------------------------------

  /** The image URL the create branch has before its placeholder check. */
  function ChosenImage(remote: Remote, r: Record, info: Info): Str {
    if info.newImagePath == Empty then r.imageUrl
    else if info.newImagePath == Null then Null
    else remote.upload(info.newImagePath.chars, r.imageUrl, Image)
  }

  /** The placeholder is a `.png` of 1200x900 in the editor's cache. */
  lemma PlaceholderIsPng(editor: Editor)
    ensures Extension(PlaceholderPath(editor)) == ".png"
    ensures !IsNullOrEmpty(Str(PlaceholderPath(editor)))
  {
    ImageNameIsPng(1200, 900, "image", editor.cachePath, editor.now);
  }

  /** The create branch copies the info's metadata, uploads the requested image,
      and when the image URL is still blank saves and uploads a 1200x900
      placeholder instead; then it posts once, and `Post`'s answer is the result. */
  lemma CreateSteps(remote: Remote, editor: Editor, kind: Kind, r: Record, info: Info, t: seq<Event>)
    ensures var p := Create(remote, editor, kind, r, info, t);
            var chosen := ChosenImage(remote, r, info);
            var placeholder := PlaceholderPath(editor);
            var requested := if IsNullOrEmpty(info.newImagePath) then []
                             else [FileUploaded(info.newImagePath.chars, r.imageUrl, Image)];
            var fallback := if IsNullOrWhiteSpace(chosen)
                            then [ImageSaved(placeholder), FileUploaded(placeholder, chosen, Image)] else [];
            p.ok == remote.postedId.Some?
            && p.rec == WithInfo(kind, r, info).(imageUrl := p.rec.imageUrl)
            && p.rec.imageUrl == (if IsNullOrWhiteSpace(chosen) then remote.upload(placeholder, chosen, Image) else chosen)
            && p.trace == t + requested + fallback + [Posted(kind, p.rec)]
  {
  }

  /** The success callback of `Post` writes the saved id into the info's
      `blueprintID`; on failure the info is left alone. */
  lemma PostWritesBlueprintId(remote: Remote, info: Info)
    ensures remote.postedId.Some? ==> AfterPost(remote, info).blueprintID == remote.postedId.value
    ensures AfterPost(remote, info) == info.(blueprintID := AfterPost(remote, info).blueprintID)
    ensures remote.postedId.None? ==> AfterPost(remote, info) == info
  {
  }

  // ---------------------------------------------------------------------------
  // UploadWorldData / UploadAvatarData
  // ---------------------------------------------------------------------------

  /** The package and bundle uploads of a data pass, in order. The existing
      file URLs are passed only on update; a new blueprint passes "". */
  function DataUploadEvents(r: Record, bundle: Str, package: Str, isUpdate: bool): seq<Event> {
    (if IsNullOrEmpty(package) then []
     else [FileUploaded(package.chars, if isUpdate then r.unityPackageUrl else Empty, UnityPackage)])
    + (if IsNullOrEmpty(bundle) then []
       else [FileUploaded(bundle.chars, if isUpdate then r.assetUrl else Empty, AssetBundle)])
  }

  /** The record after the data uploads: a URL changes only for a file given. */
  function Uploaded(remote: Remote, r: Record, bundle: Str, package: Str, isUpdate: bool): Record {
    r.(unityPackageUrl := if IsNullOrEmpty(package) then r.unityPackageUrl
                          else remote.upload(package.chars, if isUpdate then r.unityPackageUrl else Empty, UnityPackage),
       assetUrl := if IsNullOrEmpty(bundle) then r.assetUrl
                   else remote.upload(bundle.chars, if isUpdate then r.assetUrl else Empty, AssetBundle))
  }

  /** A data pass is the uploads, then the asset URL check, then one persist
      step and its upload state. */
  lemma DataPassShape(remote: Remote, editor: Editor, kind: Kind, r: Record, bundle: Str, package: Str,
                      isUpdate: bool, info: Info, t: seq<Event>)
    ensures var r2 := Uploaded(remote, r, bundle, package, isUpdate);
            var u := t + DataUploadEvents(r, bundle, package, isUpdate);
            DataPass(remote, editor, kind, r, bundle, package, isUpdate, info, t)
            == if IsNullOrWhiteSpace(r2.assetUrl) then Pass(r2, info, u + [FailedStatus])
               else if isUpdate then
                 var s := Update(remote, kind, r2, Some(info), u);
                 Pass(s.rec, info, s.trace + [StateEmitted(StateOf(s.ok))])
               else
                 var c := Create(remote, editor, kind, r2, info, u);
                 Pass(c.rec, AfterPost(remote, info), c.trace + [StateEmitted(StateOf(c.ok))])
  {
    var a := if IsNullOrEmpty(package) then []
             else [FileUploaded(package.chars, if isUpdate then r.unityPackageUrl else Empty, UnityPackage)];
    var b := if IsNullOrEmpty(bundle) then []
             else [FileUploaded(bundle.chars, if isUpdate then r.assetUrl else Empty, AssetBundle)];
    assert t + a + b == t + (a + b);
    assert t + [] == t;
    assert t + a + [] == t + a;
  }

  /** Events that are neither a persist call nor an upload state. */
  predicate Quiet(e: Event) {
    e.FileUploaded? || e.ImageSaved? || e.Copied? || e.IdAssigned?
  }

  lemma CountQuiet(s: seq<Event>)
    requires forall i :: 0 <= i < |s| ==> Quiet(s[i])
    ensures Count(PersistCalls, s) == 0 && Count(Terminals, s) == 0
  {
    CountNone(PersistCalls, s);
    CountNone(Terminals, s);
  }

  /** The data uploads are neither persist calls nor upload states. */
  lemma UploadsCountNothing(r: Record, bundle: Str, package: Str, isUpdate: bool, t: seq<Event>)
    ensures var u := t + DataUploadEvents(r, bundle, package, isUpdate);
            Count(PersistCalls, u) == Count(PersistCalls, t) && Count(Terminals, u) == Count(Terminals, t)
  {
    var q := DataUploadEvents(r, bundle, package, isUpdate);
    assert forall i :: 0 <= i < |q| ==> Quiet(q[i]);
    CountQuiet(q);
    CountAppend(PersistCalls, t, q);
    CountAppend(Terminals, t, q);
  }

  /** Quiet events, then one persist call, add exactly one persist call and no upload state. */
  lemma {:induction false} QuietThenPersist(t: seq<Event>, q: seq<Event>, q2: seq<Event>, e: Event)
    requires forall i :: 0 <= i < |q| ==> Quiet(q[i])
    requires forall i :: 0 <= i < |q2| ==> Quiet(q2[i])
    requires e.Saved? || e.Posted?
    ensures Count(PersistCalls, t + q + q2 + [e]) == Count(PersistCalls, t) + 1
    ensures Count(Terminals, t + q + q2 + [e]) == Count(Terminals, t)
  {
    CountQuiet(q);
    CountQuiet(q2);
    CountOne(PersistCalls, e);
    CountOne(Terminals, e);
    CountAppend(PersistCalls, t, q);
    CountAppend(PersistCalls, t + q, q2);
    CountAppend(PersistCalls, t + q + q2, [e]);
    CountAppend(Terminals, t, q);
    CountAppend(Terminals, t + q, q2);
    CountAppend(Terminals, t + q + q2, [e]);
  }

  /** The update branch makes one persist call and emits no upload state. */
  lemma UpdateCounts(remote: Remote, kind: Kind, r: Record, info: Info, t: seq<Event>)
    ensures var p := Update(remote, kind, r, Some(info), t);
            Count(PersistCalls, p.trace) == Count(PersistCalls, t) + 1 && Count(Terminals, p.trace) == Count(Terminals, t)
  {
    UpdateSteps(remote, kind, r, info, t);
    var p := Update(remote, kind, r, Some(info), t);
    var x := if IsNullOrEmpty(info.newImagePath) then []
             else [FileUploaded(info.newImagePath.chars, r.imageUrl, Image)];
    assert p.trace == t + x + [] + [Saved(kind, p.rec)];
    QuietThenPersist(t, x, [], Saved(kind, p.rec));
  }

  /** The create branch makes one persist call and emits no upload state. */
  lemma CreateCounts(remote: Remote, editor: Editor, kind: Kind, r: Record, info: Info, t: seq<Event>)
    ensures var p := Create(remote, editor, kind, r, info, t);
            Count(PersistCalls, p.trace) == Count(PersistCalls, t) + 1 && Count(Terminals, p.trace) == Count(Terminals, t)
  {
    CreateSteps(remote, editor, kind, r, info, t);
    var p := Create(remote, editor, kind, r, info, t);
    var chosen := ChosenImage(remote, r, info);
    var placeholder := PlaceholderPath(editor);
    var requested := if IsNullOrEmpty(info.newImagePath) then []
                     else [FileUploaded(info.newImagePath.chars, r.imageUrl, Image)];
    var fallback := if IsNullOrWhiteSpace(chosen)
                    then [ImageSaved(placeholder), FileUploaded(placeholder, chosen, Image)] else [];
    QuietThenPersist(t, requested, fallback, Posted(kind, p.rec));
  }

  /** Fail fast: when the asset bundle leaves no asset URL, a data pass ends
      with the "Failed" status right after the uploads: it calls neither `Save`
      nor `Post`, emits no upload state and leaves the info alone. */
  lemma DataPassFailsFast(remote: Remote, editor: Editor, kind: Kind, r: Record, bundle: Str, package: Str,
                          isUpdate: bool, info: Info, t: seq<Event>)
    requires IsNullOrWhiteSpace(Uploaded(remote, r, bundle, package, isUpdate).assetUrl)
    ensures var d := DataPass(remote, editor, kind, r, bundle, package, isUpdate, info, t);
            d.trace == t + DataUploadEvents(r, bundle, package, isUpdate) + [FailedStatus] && d.info == info
            && Count(PersistCalls, d.trace) == Count(PersistCalls, t)
            && Count(Terminals, d.trace) == Count(Terminals, t)
  {
    DataPassShape(remote, editor, kind, r, bundle, package, isUpdate, info, t);
    var u := t + DataUploadEvents(r, bundle, package, isUpdate);
    UploadsCountNothing(r, bundle, package, isUpdate, t);
    CountOne(PersistCalls, FailedStatus);
    CountOne(Terminals, FailedStatus);
    CountAppend(PersistCalls, u, [FailedStatus]);
    CountAppend(Terminals, u, [FailedStatus]);
  }

  /** On update, an asset URL leads to exactly one `Save` and one upload state,
      `finished` exactly when `Save` succeeded. */
  lemma UpdatePassEnds(remote: Remote, editor: Editor, kind: Kind, r: Record, bundle: Str, package: Str,
                       info: Info, t: seq<Event>)
    requires !IsNullOrWhiteSpace(Uploaded(remote, r, bundle, package, true).assetUrl)
    ensures var d := DataPass(remote, editor, kind, r, bundle, package, true, info, t);
            |d.trace| > 0 && d.trace[|d.trace| - 1] == StateEmitted(StateOf(remote.saveOk)) && d.info == info
            && Count(PersistCalls, d.trace) == Count(PersistCalls, t) + 1
            && Count(Terminals, d.trace) == Count(Terminals, t) + 1
  {
    DataPassShape(remote, editor, kind, r, bundle, package, true, info, t);
    var r2 := Uploaded(remote, r, bundle, package, true);
    var u := t + DataUploadEvents(r, bundle, package, true);
    UploadsCountNothing(r, bundle, package, true, t);
    UpdateCounts(remote, kind, r2, info, u);
    UpdateSteps(remote, kind, r2, info, u);
    var s := Update(remote, kind, r2, Some(info), u);
    var e := StateEmitted(StateOf(s.ok));
    CountOne(PersistCalls, e);
    CountOne(Terminals, e);
    CountAppend(PersistCalls, s.trace, [e]);
    CountAppend(Terminals, s.trace, [e]);
  }

  /** On create, an asset URL leads to exactly one `Post` and one upload state,
      `finished` exactly when `Post` succeeded, and the saved id goes into the info. */
  lemma CreatePassEnds(remote: Remote, editor: Editor, kind: Kind, r: Record, bundle: Str, package: Str,
                       info: Info, t: seq<Event>)
    requires !IsNullOrWhiteSpace(Uploaded(remote, r, bundle, package, false).assetUrl)
    ensures var d := DataPass(remote, editor, kind, r, bundle, package, false, info, t);
            |d.trace| > 0 && d.trace[|d.trace| - 1] == StateEmitted(StateOf(remote.postedId.Some?))
            && d.info == AfterPost(remote, info)
            && Count(PersistCalls, d.trace) == Count(PersistCalls, t) + 1
            && Count(Terminals, d.trace) == Count(Terminals, t) + 1
  {
    DataPassShape(remote, editor, kind, r, bundle, package, false, info, t);
    var r2 := Uploaded(remote, r, bundle, package, false);
    var u := t + DataUploadEvents(r, bundle, package, false);
    UploadsCountNothing(r, bundle, package, false, t);
    CreateCounts(remote, editor, kind, r2, info, u);
    CreateSteps(remote, editor, kind, r2, info, u);
    var c := Create(remote, editor, kind, r2, info, u);
    var e := StateEmitted(StateOf(c.ok));
    CountOne(PersistCalls, e);
    CountOne(Terminals, e);
    CountAppend(PersistCalls, c.trace, [e]);
    CountAppend(Terminals, c.trace, [e]);
  }

  /** The terminal state of a data pass: "Failed" without an asset URL, and
      otherwise one upload state that is `finished` exactly when the persist
      call succeeded. */
  lemma DataPassOutcome(remote: Remote, editor: Editor, kind: Kind, r: Record, bundle: Str, package: Str,
                        isUpdate: bool, info: Info, t: seq<Event>)
    ensures var d := DataPass(remote, editor, kind, r, bundle, package, isUpdate, info, t);
            var blank := IsNullOrWhiteSpace(Uploaded(remote, r, bundle, package, isUpdate).assetUrl);
            var ok := if isUpdate then remote.saveOk else remote.postedId.Some?;
            |d.trace| > 0
            && (d.trace[|d.trace| - 1] == StateEmitted(Finished) <==> !blank && ok)
            && (d.trace[|d.trace| - 1] == FailedStatus <==> blank)
  {
    if IsNullOrWhiteSpace(Uploaded(remote, r, bundle, package, isUpdate).assetUrl) {
      DataPassFailsFast(remote, editor, kind, r, bundle, package, isUpdate, info, t);
    } else if isUpdate {
      UpdatePassEnds(remote, editor, kind, r, bundle, package, info, t);
    } else {
      CreatePassEnds(remote, editor, kind, r, bundle, package, info, t);
    }
  }

  /** A data pass starts with exactly its uploads and only ever appends. */
  lemma DataPassExtends(remote: Remote, editor: Editor, kind: Kind, r: Record, bundle: Str, package: Str,
                        isUpdate: bool, info: Info, t: seq<Event>)
    ensures Extends(t + DataUploadEvents(r, bundle, package, isUpdate),
                    DataPass(remote, editor, kind, r, bundle, package, isUpdate, info, t).trace)
  {
    DataPassShape(remote, editor, kind, r, bundle, package, isUpdate, info, t);
    var r2 := Uploaded(remote, r, bundle, package, isUpdate);
    var u := t + DataUploadEvents(r, bundle, package, isUpdate);
    var d := DataPass(remote, editor, kind, r, bundle, package, isUpdate, info, t);
    if IsNullOrWhiteSpace(r2.assetUrl) {
      assert d.trace[..|u|] == u;
    } else if isUpdate {
      UpdateSteps(remote, kind, r2, info, u);
      assert d.trace[..|u|] == u;
    } else {
      CreateSteps(remote, editor, kind, r2, info, u);
      assert d.trace[..|u|] == u;
    }
  }

  /** The existing file URLs reach the file helper only on update: a new
      blueprint's package and bundle are uploaded as new files (""). */
  lemma ExistingUrlOnlyOnUpdate(remote: Remote, editor: Editor, kind: Kind, r: Record, bundle: Str, package: Str,
                                isUpdate: bool, info: Info, t: seq<Event>)
    ensures var d := DataPass(remote, editor, kind, r, bundle, package, isUpdate, info, t);
            var n := |DataUploadEvents(r, bundle, package, isUpdate)|;
            n == (if IsNullOrEmpty(package) then 0 else 1) + (if IsNullOrEmpty(bundle) then 0 else 1)
            && |t| + n <= |d.trace|
            && forall i :: |t| <= i < |t| + n ==>
                 d.trace[i].FileUploaded? && d.trace[i].fileType != Image
                 && d.trace[i].existingUrl == (if !isUpdate then Empty
                                               else if d.trace[i].fileType == UnityPackage then r.unityPackageUrl
                                               else r.assetUrl)
  {
    DataPassExtends(remote, editor, kind, r, bundle, package, isUpdate, info, t);
    var d := DataPass(remote, editor, kind, r, bundle, package, isUpdate, info, t);
    var q := DataUploadEvents(r, bundle, package, isUpdate);
    forall i | |t| <= i < |t| + |q|
      ensures d.trace[i] == q[i - |t|]
    {
      assert d.trace[i] == d.trace[..|t + q|][i] == (t + q)[i];
    }
  }

  /** A data pass changes neither the blueprint's id, nor its version, nor its
      author, and the persist step keeps the URLs the uploads left. */
  lemma DataPassFrame(remote: Remote, editor: Editor, kind: Kind, r: Record, bundle: Str, package: Str,
                      isUpdate: bool, info: Info, t: seq<Event>)
    ensures var d := DataPass(remote, editor, kind, r, bundle, package, isUpdate, info, t);
            var r2 := Uploaded(remote, r, bundle, package, isUpdate);
            d.rec.id == r.id && d.rec.version == r.version && d.rec.authorId == r.authorId
            && d.rec.assetUrl == r2.assetUrl && d.rec.unityPackageUrl == r2.unityPackageUrl
  {
    DataPassShape(remote, editor, kind, r, bundle, package, isUpdate, info, t);
    var r2 := Uploaded(remote, r, bundle, package, isUpdate);
    var u := t + DataUploadEvents(r, bundle, package, isUpdate);
    if !IsNullOrWhiteSpace(r2.assetUrl) {
      if isUpdate {
        UpdateSteps(remote, kind, r2, info, u);
      } else {
        CreateSteps(remote, editor, kind, r2, info, u);
      }
    }
  }

  // ---------------------------------------------------------------------------
  // From the fetch answer to the data pass
  // ---------------------------------------------------------------------------

  /** The two `Fetch` answers: a stored record is an update and is used as it
      is; a missing world starts as a new record of capacity 16 under the
      pipeline's id, a missing avatar as a new record. */
  lemma FetchResolution(pipelineId: Str, fetched: FetchAnswer)
    ensures ResolveWorld(pipelineId, fetched).isUpdate <==> fetched.Found?
    ensures ResolveAvatar(fetched).isUpdate <==> fetched.Found?
    ensures fetched.Found? ==> ResolveWorld(pipelineId, fetched).rec == fetched.record
                               && ResolveAvatar(fetched).rec == fetched.record
    ensures fetched.NotFound? ==> ResolveWorld(pipelineId, fetched).rec == NewRecord.(capacity := 16, id := pipelineId)
                                  && ResolveAvatar(fetched).rec == NewRecord
  {
  }

  /** The events of the staging block: the bundle copy, then the package copy
      when a package path is given and the file exists. */
  function CopyEvents(editor: Editor, bundlePath: string, packagePath: Str, bundle: string, package: Str): seq<Event> {
    [Copied(bundlePath, bundle)]
    + if !IsNullOrEmpty(packagePath) && editor.fileExists(packagePath.chars) then [Copied(packagePath.chars, Show(package))]
      else []
  }

  /** Preparing the data pass: the bundle is staged under the fetched id and
      the next version, the package only when it is given and exists, and only
      then is a blank id replaced by a generated one. Nothing is uploaded
      meanwhile, and the record handed on always has an id. */
  lemma PrepareSteps(remote: Remote, editor: Editor, kind: Kind, res: Resolution, bundlePath: string,
                     packagePath: Str, t: seq<Event>)
    ensures var p := Prepare(remote, editor, kind, res, bundlePath, packagePath, t);
            var version := NextVersion(res.rec.version);
            var assetVersion := if kind == World then editor.worldAssetVersion else editor.avatarAssetVersion;
            var needsId := IsNullOrEmpty(res.rec.id);
            p.isUpdate == res.isUpdate
            && p.bundle == StagedBundlePath(editor, bundlePath, res.rec.id, version, editor.platform, assetVersion)
            && (p.package != Empty <==> !IsNullOrEmpty(packagePath) && editor.fileExists(packagePath.chars))
            && p.rec == (if needsId then res.rec.(id := Str(remote.generatedId)) else res.rec)
            && !IsNullOrEmpty(p.rec.id)
            && p.trace == t + CopyEvents(editor, bundlePath, packagePath, p.bundle, p.package)
                            + (if needsId then [IdAssigned(remote.generatedId)] else [])
  {
    var p := Prepare(remote, editor, kind, res, bundlePath, packagePath, t);
    var version := NextVersion(res.rec.version);
    StagedUnderCache(editor, bundlePath, res.rec.id, version, editor.platform, editor.worldAssetVersion);
    var copies := CopyEvents(editor, bundlePath, packagePath, p.bundle, p.package);
    if !IsNullOrEmpty(packagePath) && editor.fileExists(packagePath.chars) {
      assert t + [Copied(bundlePath, p.bundle)] + [Copied(packagePath.chars, Show(p.package))] == t + copies;
    } else {
      assert t + [Copied(bundlePath, p.bundle)] == t + copies;
    }
    if !IsNullOrEmpty(res.rec.id) {
      assert t + copies + [] == t + copies;
    }
  }

  /** An id is assigned before any upload: preparation uploads nothing, ends
      with the id assignment when the fetched record had no id, and the record
      handed to the data pass has an id. */
  lemma IdAssignedBeforeUploads(remote: Remote, editor: Editor, kind: Kind, res: Resolution, bundlePath: string,
                                packagePath: Str, t: seq<Event>)
    ensures var p := Prepare(remote, editor, kind, res, bundlePath, packagePath, t);
            Extends(t, p.trace)
            && (forall i :: |t| <= i < |p.trace| ==> !p.trace[i].FileUploaded? && Quiet(p.trace[i]))
            && (IsNullOrEmpty(res.rec.id) ==> 0 < |p.trace| && p.trace[|p.trace| - 1] == IdAssigned(remote.generatedId))
            && !IsNullOrEmpty(p.rec.id)
  {
    PrepareSteps(remote, editor, kind, res, bundlePath, packagePath, t);
    var p := Prepare(remote, editor, kind, res, bundlePath, packagePath, t);
    var e := CopyEvents(editor, bundlePath, packagePath, p.bundle, p.package)
             + (if IsNullOrEmpty(res.rec.id) then [IdAssigned(remote.generatedId)] else []);
    assert p.trace == t + e;
    assert p.trace[..|t|] == t;
    forall i | |t| <= i < |p.trace|
      ensures !p.trace[i].FileUploaded? && Quiet(p.trace[i])
    {
      assert p.trace[i] == e[i - |t|];
    }
  }

  /** A new avatar is staged as version 1 under the empty id it had when the
      bundle was copied, while the record goes on with the generated id: the
      staging block runs before the id block. */
  lemma FreshAvatarStagedWithoutId(remote: Remote, editor: Editor, bundlePath: string, packagePath: Str,
                                   t: seq<Event>)
    requires remote.fetched.NotFound?
    ensures var p := Prepare(remote, editor, Avatar, ResolveAvatar(remote.fetched), bundlePath, packagePath, t);
            p.bundle == StagedBundlePath(editor, bundlePath, Null, 1, editor.platform, editor.avatarAssetVersion)
            && p.rec.id == Str(remote.generatedId) && !p.isUpdate
  {
    PrepareSteps(remote, editor, Avatar, ResolveAvatar(remote.fetched), bundlePath, packagePath, t);
  }

  // ---------------------------------------------------------------------------
  // UpdateBlueprintImage
  // ---------------------------------------------------------------------------

  /** Replacing the image saves the new texture as a `.png` in the cache,
      uploads it over the current image file, saves the record once and emits
      one upload state, `finished` exactly when `Save` succeeded. */
  lemma ImageReplacedSteps(remote: Remote, editor: Editor, kind: Kind, r: Record, width: int32, height: int32,
                           t: seq<Event>)
    ensures var p := ImageReplaced(remote, editor, kind, r, width, height, t);
            var path := ImageName(width as int, height as int, "image", editor.cachePath, editor.now);
            Extension(path) == ".png"
            && p.ok == remote.saveOk
            && p.rec == r.(imageUrl := remote.upload(path, r.imageUrl, Image))
            && p.trace == t + [ImageSaved(path), FileUploaded(path, r.imageUrl, Image), Saved(kind, p.rec),
                               StateEmitted(StateOf(remote.saveOk))]
  {
    var path := ImageName(width as int, height as int, "image", editor.cachePath, editor.now);
    ImageNameIsPng(width as int, height as int, "image", editor.cachePath, editor.now);
    var p := ImageReplaced(remote, editor, kind, r, width, height, t);
    assert t + [ImageSaved(path)] + [FileUploaded(path, r.imageUrl, Image)] + [Saved(kind, p.rec)]
           + [StateEmitted(StateOf(remote.saveOk))]
        == t + [ImageSaved(path), FileUploaded(path, r.imageUrl, Image), Saved(kind, p.rec),
                StateEmitted(StateOf(remote.saveOk))];
  }

  // ---------------------------------------------------------------------------
  // UploadWorld and UploadAvatar
  // ---------------------------------------------------------------------------

  /** The early exits of `UploadWorld`: a blank asset bundle path is rejected
      before anything happens; a failed login only clears the caches and tries
      to log in; a scene without pipeline manager stops after the lookup.
      Every other run returns an id. */
  lemma WorldEarlyExits(remote: Remote, editor: Editor, bundlePath: Str, packagePath: Str, info: Info,
                        pipeline: Option<Pipeline>, t: seq<Event>)
    ensures var o := WorldSession(remote, editor, bundlePath, packagePath, info, pipeline, t);
            var blank := IsNullOrWhiteSpace(bundlePath);
            (o.result == Failure(InvalidAssetBundlePath) <==> blank)
            && (blank ==> o == Outcome(Failure(InvalidAssetBundlePath), info, pipeline, t))
            && (o.result == Failure(LoginFailed) <==> !blank && !remote.loginOk)
            && (o.result == Failure(LoginFailed) ==>
                  o == Outcome(Failure(LoginFailed), info, pipeline, t + [CachesCleared, LoginAttempted]))
            && (o.result == Failure(NoPipelineManager) <==> !blank && remote.loginOk && pipeline.None?)
            && (o.result == Failure(NoPipelineManager) ==>
                  o == Outcome(Failure(NoPipelineManager), info, pipeline,
                               t + [CachesCleared, LoginAttempted, PipelineLookup]))
            && (o.result.Success? <==> !blank && remote.loginOk && pipeline.Some?)
  {
  }

  /** The early exits of `UploadAvatar`, which has no pipeline manager to look up. */
  lemma AvatarEarlyExits(remote: Remote, editor: Editor, bundlePath: Str, packagePath: Str, info: Info,
                         t: seq<Event>)
    ensures var o := AvatarSession(remote, editor, bundlePath, packagePath, info, t);
            var blank := IsNullOrWhiteSpace(bundlePath);
            (o.result == Failure(InvalidAssetBundlePath) <==> blank)
            && (blank ==> o == Outcome(Failure(InvalidAssetBundlePath), info, None, t))
            && (o.result == Failure(LoginFailed) <==> !blank && !remote.loginOk)
            && (o.result == Failure(LoginFailed) ==>
                  o == Outcome(Failure(LoginFailed), info, None, t + [CachesCleared, LoginAttempted]))
            && o.result != Failure(NoPipelineManager)
            && (o.result.Success? <==> !blank && remote.loginOk)
  {
    assert t + [CachesCleared] + [LoginAttempted] == t + [CachesCleared, LoginAttempted];
  }

  /** No file is uploaded at the positions `lo` up to `k` of a trace. */
  predicate NoUploadBetween(s: seq<Event>, lo: int, k: int) {
    forall j :: lo <= j < k && 0 <= j < |s| ==> !s[j].FileUploaded?
  }

  lemma Appended3(t: seq<Event>, a: Event, b: Event, c: Event)
    ensures t + [a] + [b] + [c] == t + [a, b, c]
  {
  }

  lemma Appended4(t: seq<Event>, a: Event, b: Event, c: Event, e: Event)
    ensures t + [a] + [b] + [c] + [e] == t + [a, b, c, e]
  {
  }

  /** Appending an event that is not an upload keeps a stretch upload-free. */
  lemma NoUploadAppend(t: seq<Event>, s: seq<Event>, e: Event)
    requires Extends(t, s) && NoUploadBetween(s, |t|, |s|) && !e.FileUploaded?
    ensures Extends(t, s + [e]) && NoUploadBetween(s + [e], |t|, |s + [e]|)
  {
    assert (s + [e])[..|t|] == s[..|t|];
  }

  /** A trace that extends `p`, which extends `pre` with no upload after `t`,
      has no upload between the end of `t` and the end of `p`. */
  lemma NoUploadAcross(s: seq<Event>, p: seq<Event>, t: seq<Event>, pre: seq<Event>)
    requires Extends(p, s) && Extends(pre, p) && Extends(t, pre)
    requires NoUploadBetween(pre, |t|, |pre|)
    requires forall i :: |pre| <= i < |p| ==> !p[i].FileUploaded?
    ensures Extends(pre, s) && NoUploadBetween(s, |t|, |p|)
    ensures |p| > 0 ==> s[|p| - 1] == p[|p| - 1]
  {
    assert s[..|pre|] == s[..|p|][..|pre|];
    forall j | |t| <= j < |p| && 0 <= j < |s|
      ensures !s[j].FileUploaded?
    {
      assert s[j] == s[..|p|][j] == p[j];
      if j < |pre| {
        assert p[j] == p[..|pre|][j] == pre[j];
      }
    }
    if |p| > 0 {
      assert s[|p| - 1] == s[..|p|][|p| - 1];
    }
  }

  lemma ExtendsShorter(a: seq<Event>, b: seq<Event>, s: seq<Event>)
    requires Extends(a + b, s)
    ensures Extends(a, s)
  {
    assert s[..|a|] == s[..|a + b|][..|a|];
  }

  /** When `p` uploads nothing after `pre` and ends in `e` if `ends`, then in
      any extension `s` of `p` no upload happens from `|t|` up to a point that,
      if `ends`, sits right after `e`. */
  lemma OrderAcross(t: seq<Event>, pre: seq<Event>, p: seq<Event>, s: seq<Event>, ends: bool, e: Event)
    requires Extends(t, pre) && NoUploadBetween(pre, |t|, |pre|)
    requires Extends(pre, p) && Extends(p, s)
    requires forall i :: |pre| <= i < |p| ==> !p[i].FileUploaded?
    requires ends ==> 0 < |p| && p[|p| - 1] == e
    ensures Extends(pre, s)
            && exists k :: |pre| <= k <= |s| && NoUploadBetween(s, |t|, k) && (ends ==> 0 < k && s[k - 1] == e)
  {
    NoUploadAcross(s, p, t, pre);
    assert |pre| <= |p| <= |s| && NoUploadBetween(s, |t|, |p|);
  }

  /** Preparation followed by the data pass, as both uploads run them: the
      result id is the fetched id or, when that is empty, the generated one,
      and it is never empty. */
  lemma PreparedPassId(remote: Remote, editor: Editor, kind: Kind, res: Resolution, bundlePath: string,
                       packagePath: Str, info: Info, pre: seq<Event>)
    ensures var p := Prepare(remote, editor, kind, res, bundlePath, packagePath, pre);
            var d := DataPass(remote, editor, kind, p.rec, Str(p.bundle), p.package, p.isUpdate, info, p.trace);
            d.rec.id == (if IsNullOrEmpty(res.rec.id) then Str(remote.generatedId) else res.rec.id)
            && !IsNullOrEmpty(d.rec.id)
  {
    var p := Prepare(remote, editor, kind, res, bundlePath, packagePath, pre);
    DataPassFrame(remote, editor, kind, p.rec, Str(p.bundle), p.package, p.isUpdate, info, p.trace);
  }

  /** Preparation followed by the data pass, after first events `pre` that
      upload nothing since `t`: nothing is uploaded from the end of `t` until
      the id is known, and the id assignment, when needed, is the last event
      before the uploads. */
  lemma PreparedPassOrder(remote: Remote, editor: Editor, kind: Kind, res: Resolution, bundlePath: string,
                          packagePath: Str, info: Info, t: seq<Event>, pre: seq<Event>)
    requires Extends(t, pre) && NoUploadBetween(pre, |t|, |pre|)
    ensures var p := Prepare(remote, editor, kind, res, bundlePath, packagePath, pre);
            var d := DataPass(remote, editor, kind, p.rec, Str(p.bundle), p.package, p.isUpdate, info, p.trace);
            Extends(pre, d.trace)
            && exists k :: |pre| <= k <= |d.trace| && NoUploadBetween(d.trace, |t|, k)
                           && (IsNullOrEmpty(res.rec.id) ==> 0 < k && d.trace[k - 1] == IdAssigned(remote.generatedId))
  {
    var p := Prepare(remote, editor, kind, res, bundlePath, packagePath, pre);
    IdAssignedBeforeUploads(remote, editor, kind, res, bundlePath, packagePath, pre);
    DataPassExtends(remote, editor, kind, p.rec, Str(p.bundle), p.package, p.isUpdate, info, p.trace);
    var d := DataPass(remote, editor, kind, p.rec, Str(p.bundle), p.package, p.isUpdate, info, p.trace);
    ExtendsShorter(p.trace, DataUploadEvents(p.rec, Str(p.bundle), p.package, p.isUpdate), d.trace);
    OrderAcross(t, pre, p.trace, d.trace, IsNullOrEmpty(res.rec.id), IdAssigned(remote.generatedId));
  }

  /** A world upload that gets past the early exits returns the fetched
      world's id, or the generated one when it had none, never empty; and the
      pipeline manager then names the current user, is marked completed exactly
      for a stored world with an author, and carries the generated id when the
      world had none. */
  lemma WorldSessionSucceeds(remote: Remote, editor: Editor, bundlePath: Str, packagePath: Str, info: Info,
                             pipeline: Option<Pipeline>, t: seq<Event>)
    requires !IsNullOrWhiteSpace(bundlePath) && remote.loginOk && pipeline.Some?
    ensures var o := WorldSession(remote, editor, bundlePath, packagePath, info, pipeline, t);
            var res := ResolveWorld(pipeline.value.blueprintId, remote.fetched);
            var needsId := IsNullOrEmpty(res.rec.id);
            var id := if needsId then Str(remote.generatedId) else res.rec.id;
            o.result == Success(id) && !IsNullOrEmpty(id)
            && o.pipeline == Some(Pipeline(if needsId then id else pipeline.value.blueprintId,
                                           res.isUpdate && !IsNullOrEmpty(res.rec.authorId), remote.currentUser))
  {
    var found := pipeline.value.(user := remote.currentUser);
    var res := ResolveWorld(found.blueprintId, remote.fetched);
    var pre := t + [CachesCleared] + [LoginAttempted] + [PipelineLookup] + [FetchRequested(World, found.blueprintId)];
    PreparedPassId(remote, editor, World, res, bundlePath.chars, packagePath, info, pre);
  }

  /** A world upload that gets past the early exits begins by clearing the
      caches, trying the login, looking up the pipeline manager and fetching
      the world by the manager's id, and uploads no file before that and
      before the id is assigned (when the world had none). */
  lemma WorldIdBeforeUploads(remote: Remote, editor: Editor, bundlePath: Str, packagePath: Str, info: Info,
                             pipeline: Option<Pipeline>, t: seq<Event>)
    requires !IsNullOrWhiteSpace(bundlePath) && remote.loginOk && pipeline.Some?
    ensures var o := WorldSession(remote, editor, bundlePath, packagePath, info, pipeline, t);
            var res := ResolveWorld(pipeline.value.blueprintId, remote.fetched);
            Extends(t + [CachesCleared, LoginAttempted, PipelineLookup, FetchRequested(World, pipeline.value.blueprintId)],
                    o.trace)
            && exists k :: |t| + 4 <= k <= |o.trace| && NoUploadBetween(o.trace, |t|, k)
                           && (IsNullOrEmpty(res.rec.id) ==> o.trace[k - 1] == IdAssigned(remote.generatedId))
  {
    var found := pipeline.value.(user := remote.currentUser);
    var res := ResolveWorld(found.blueprintId, remote.fetched);
    var s1 := t + [CachesCleared];
    var s2 := s1 + [LoginAttempted];
    var s3 := s2 + [PipelineLookup];
    var pre := s3 + [FetchRequested(World, found.blueprintId)];
    assert Extends(t, t) && NoUploadBetween(t, |t|, |t|);
    NoUploadAppend(t, t, CachesCleared);
    NoUploadAppend(t, s1, LoginAttempted);
    NoUploadAppend(t, s2, PipelineLookup);
    NoUploadAppend(t, s3, FetchRequested(World, found.blueprintId));
    PreparedPassOrder(remote, editor, World, res, bundlePath.chars, packagePath, info, t, pre);
    Appended4(t, CachesCleared, LoginAttempted, PipelineLookup, FetchRequested(World, found.blueprintId));
  }

  /** An avatar upload that gets past the early exits returns the fetched
      avatar's id, or the generated one when it had none, never empty, and
      touches no pipeline manager. */
  lemma AvatarSessionSucceeds(remote: Remote, editor: Editor, bundlePath: Str, packagePath: Str, info: Info,
                              t: seq<Event>)
    requires !IsNullOrWhiteSpace(bundlePath) && remote.loginOk
    ensures var o := AvatarSession(remote, editor, bundlePath, packagePath, info, t);
            var res := ResolveAvatar(remote.fetched);
            var id := if IsNullOrEmpty(res.rec.id) then Str(remote.generatedId) else res.rec.id;
            o.result == Success(id) && !IsNullOrEmpty(id) && o.pipeline == None
  {
    var pre := t + [CachesCleared] + [LoginAttempted] + [FetchRequested(Avatar, info.blueprintID)];
    PreparedPassId(remote, editor, Avatar, ResolveAvatar(remote.fetched), bundlePath.chars, packagePath, info, pre);
  }

  /** An avatar upload that gets past the early exits begins by clearing the
      caches, trying the login and fetching the avatar by the info's
      `blueprintID`, and uploads no file before that and before the id is
      assigned (when the avatar had none). */
  lemma AvatarIdBeforeUploads(remote: Remote, editor: Editor, bundlePath: Str, packagePath: Str, info: Info,
                              t: seq<Event>)
    requires !IsNullOrWhiteSpace(bundlePath) && remote.loginOk
    ensures var o := AvatarSession(remote, editor, bundlePath, packagePath, info, t);
            var res := ResolveAvatar(remote.fetched);
            Extends(t + [CachesCleared, LoginAttempted, FetchRequested(Avatar, info.blueprintID)], o.trace)
            && exists k :: |t| + 3 <= k <= |o.trace| && NoUploadBetween(o.trace, |t|, k)
                           && (IsNullOrEmpty(res.rec.id) ==> o.trace[k - 1] == IdAssigned(remote.generatedId))
  {
    var res := ResolveAvatar(remote.fetched);
    var s1 := t + [CachesCleared];
    var s2 := s1 + [LoginAttempted];
    var pre := s2 + [FetchRequested(Avatar, info.blueprintID)];
    assert Extends(t, t) && NoUploadBetween(t, |t|, |t|);
    NoUploadAppend(t, t, CachesCleared);
    NoUploadAppend(t, s1, LoginAttempted);
    NoUploadAppend(t, s2, FetchRequested(Avatar, info.blueprintID));
    PreparedPassOrder(remote, editor, Avatar, res, bundlePath.chars, packagePath, info, t, pre);
    Appended3(t, CachesCleared, LoginAttempted, FetchRequested(Avatar, info.blueprintID));
  }
}
