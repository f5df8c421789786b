/**
  What one call of each uploader operation does, as a function of the record,
  the info and the collaborators' answers: the new field values and the events
  it makes visible, in order. The methods of `Uploader` are proved to have
  exactly these effects; `SessionProperties` proves what they guarantee.
 */
module Session {
  import opened Strings
  import opened Versioning
  import opened Staging
  import opened Records

  // Every function below takes the trace so far, `t`, and returns it with the
  // events of the call appended in the order they happen.

  /** The URL an upload step leaves in its slot, and the trace after it. */
  datatype Upload = Upload(url: Str, trace: seq<Event>)

  /** `UploadFile`: nothing happens for a null or empty path; otherwise the file
      helper is called once and its answer is the new URL. */
  function FileUpload(remote: Remote, path: Str, existingUrl: Str, fileType: FileType, t: seq<Event>): Upload {
    if IsNullOrEmpty(path) then Upload(Empty, t)
    else Upload(remote.upload(path.chars, existingUrl, fileType), t + [FileUploaded(path.chars, existingUrl, fileType)])
  }

  /** `UploadImage`: a null URL for a null or empty path, otherwise an image
      upload replacing the blueprint's current image file. */
  function ImageUpload(remote: Remote, imageUrl: Str, path: Str, t: seq<Event>): Upload {
    if IsNullOrEmpty(path) then Upload(Null, t)
    else FileUpload(remote, path, imageUrl, Image, t)
  }

  /** The file `SaveImageTemp` writes a blank 1200x900 texture to. */
  function PlaceholderPath(editor: Editor): string {
    ImageName(1200, 900, "image", editor.cachePath, editor.now)
  }

  /** The metadata the create branch copies from the info (and that
      `ApplyBlueprintInfo` applies on the update branch). */
  function WithInfo(kind: Kind, r: Record, info: Info): Record {
    r.(name := info.name, description := info.description, tags := info.tags,
       capacity := if kind == World then info.capacity else r.capacity)
  }

  /** The record as persisted, whether `Save` or `Post` succeeded, and the trace after it. */
  datatype Persisting = Persisting(rec: Record, ok: bool, trace: seq<Event>)

  /** `UpdateWorldBlueprint` / `UpdateAvatarBlueprint`; `info` is `None` for a null info. */
  function Update(remote: Remote, kind: Kind, r: Record, info: Option<Info>, t: seq<Event>): Persisting {
    var applied := if info.Some? then WithInfo(kind, r, info.value) else r;
    var image := if info.Some? && info.value.newImagePath != Empty
                 then ImageUpload(remote, applied.imageUrl, info.value.newImagePath, t)
                 else Upload(applied.imageUrl, t);
    var saved := applied.(imageUrl := image.url);
    Persisting(saved, remote.saveOk, image.trace + [Saved(kind, saved)])
  }

  /** `CreateWorldBlueprint` / `CreateAvatarBlueprint`, up to the `Post` call. */
  function Create(remote: Remote, editor: Editor, kind: Kind, r: Record, info: Info, t: seq<Event>): Persisting {
    var named := WithInfo(kind, r, info);
    var chosen := if info.newImagePath != Empty
                  then ImageUpload(remote, named.imageUrl, info.newImagePath, t)
                  else Upload(named.imageUrl, t);
    var withImage := named.(imageUrl := chosen.url);
    var fallback := if IsNullOrWhiteSpace(withImage.imageUrl)
                    then ImageUpload(remote, withImage.imageUrl, Str(PlaceholderPath(editor)),
                                     chosen.trace + [ImageSaved(PlaceholderPath(editor))])
                    else Upload(withImage.imageUrl, chosen.trace);
    var posted := withImage.(imageUrl := fallback.url);
    Persisting(posted, remote.postedId.Some?, fallback.trace + [Posted(kind, posted)])
  }

  /** The success callback of `Post` writes the saved id into the info. */
  function AfterPost(remote: Remote, info: Info): Info {
    if remote.postedId.Some? then info.(blueprintID := remote.postedId.value) else info
  }

  /** The record and info after a data pass, and the trace after it. */
  datatype Pass = Pass(rec: Record, info: Info, trace: seq<Event>)

  /** `UploadWorldData` / `UploadAvatarData`. */
  function DataPass(remote: Remote, editor: Editor, kind: Kind, r: Record, bundle: Str, package: Str,
                    isUpdate: bool, info: Info, t: seq<Event>): Pass
  {
    var pkg := if !IsNullOrEmpty(package)
               then FileUpload(remote, package, if isUpdate then r.unityPackageUrl else Empty, UnityPackage, t)
               else Upload(r.unityPackageUrl, t);
    var r1 := r.(unityPackageUrl := pkg.url);
    var asset := if !IsNullOrEmpty(bundle)
                 then FileUpload(remote, bundle, if isUpdate then r1.assetUrl else Empty, AssetBundle, pkg.trace)
                 else Upload(r1.assetUrl, pkg.trace);
    Persist(remote, editor, kind, r1.(assetUrl := asset.url), isUpdate, info, asset.trace)
  }

  /** The rest of a data pass once the files are uploaded: stop on a blank
      asset URL, otherwise update or create and emit the upload state. */
  function Persist(remote: Remote, editor: Editor, kind: Kind, r: Record, isUpdate: bool, info: Info,
                   t: seq<Event>): Pass
  {
    if IsNullOrWhiteSpace(r.assetUrl) then
      Pass(r, info, t + [FailedStatus])
    else if isUpdate then
      var s := Update(remote, kind, r, Some(info), t);
      Pass(s.rec, info, s.trace + [StateEmitted(StateOf(s.ok))])
    else
      var c := Create(remote, editor, kind, r, info, t);
      Pass(c.rec, AfterPost(remote, info), c.trace + [StateEmitted(StateOf(c.ok))])
  }

  /** The record a session goes on with after `Fetch`, and whether it is an update. */
  datatype Resolution = Resolution(rec: Record, isUpdate: bool)

  /** The two `Fetch` callbacks of `UploadWorld`. */
  function ResolveWorld(pipelineId: Str, fetched: FetchAnswer): Resolution {
    match fetched
    case Found(r) => Resolution(r, true)
    case NotFound => Resolution(NewRecord.(capacity := 16, id := pipelineId), false)
  }

  /** The two `Fetch` callbacks of `UploadAvatar`. */
  function ResolveAvatar(fetched: FetchAnswer): Resolution {
    match fetched
    case Found(r) => Resolution(r, true)
    case NotFound => Resolution(NewRecord, false)
  }

  /** The staged copies' paths (the package one empty when it is not uploaded) and the trace after them. */
  datatype Staged = Staged(bundle: string, package: Str, trace: seq<Event>)

  /** `FormatAssetBundle`, then `FormatUnityPackage` when a package path is given and the file exists.
      The package of an avatar is staged under the world's asset version, as the
      source passes `ApiWorld.VERSION` for it. */
  function Stage(editor: Editor, kind: Kind, bundlePath: string, packagePath: Str, id: Str, version: int32,
                 t: seq<Event>): Staged
  {
    var assetVersion := if kind == World then editor.worldAssetVersion else editor.avatarAssetVersion;
    var bundle := StagedBundlePath(editor, bundlePath, id, version, editor.platform, assetVersion);
    var copied := t + [Copied(bundlePath, bundle)];
    if !IsNullOrEmpty(packagePath) && editor.fileExists(packagePath.chars) then
      var package := StagedPackagePath(editor, id, version, editor.platform, editor.worldAssetVersion);
      Staged(bundle, Str(package), copied + [Copied(packagePath.chars, package)])
    else Staged(bundle, Empty, copied)
  }

  /** What a call of `UploadWorld` / `UploadAvatar` returns or throws, the info
      and pipeline manager after it (no manager for an avatar), and the trace after it. */
  datatype Outcome = Outcome(result: Result<Str, UploadError>, info: Info, pipeline: Option<Pipeline>, trace: seq<Event>)

  /** What a session has ready for the data pass once the record is fetched:
      the record with its id, whether it is an update, and the staged copies. */
  datatype Prepared = Prepared(rec: Record, isUpdate: bool, bundle: string, package: Str, trace: seq<Event>)

  /** From the fetch answer to the data pass: the new version is staged under
      the fetched id, then a blank id is replaced by a generated one. */
  function Prepare(remote: Remote, editor: Editor, kind: Kind, res: Resolution, bundlePath: string,
                   packagePath: Str, t: seq<Event>): Prepared
  {
    var staged := Stage(editor, kind, bundlePath, packagePath, res.rec.id, NextVersion(res.rec.version), t);
    if IsNullOrEmpty(res.rec.id) then
      Prepared(res.rec.(id := Str(remote.generatedId)), res.isUpdate, staged.bundle, staged.package,
               staged.trace + [IdAssigned(remote.generatedId)])
    else
      Prepared(res.rec, res.isUpdate, staged.bundle, staged.package, staged.trace)
  }

  /** `UploadWorld`; `pipeline` is what `FindPipelineManager` finds. */
  function WorldSession(remote: Remote, editor: Editor, bundlePath: Str, packagePath: Str, info: Info,
                        pipeline: Option<Pipeline>, t: seq<Event>): Outcome
  {
    if IsNullOrWhiteSpace(bundlePath) then
      Outcome(Failure(InvalidAssetBundlePath), info, pipeline, t)
    else
      var loggedIn := t + [CachesCleared] + [LoginAttempted];
      if !remote.loginOk then
        Outcome(Failure(LoginFailed), info, pipeline, loggedIn)
      else if pipeline.None? then
        Outcome(Failure(NoPipelineManager), info, pipeline, loggedIn + [PipelineLookup])
      else
        WorldFound(remote, editor, bundlePath.chars, packagePath, info, pipeline.value.(user := remote.currentUser),
                   loggedIn + [PipelineLookup])
  }

  /** The rest of `UploadWorld` once the pipeline manager is found and has
      taken the current user: fetch, stage, assign the id, upload. */
  function WorldFound(remote: Remote, editor: Editor, bundlePath: string, packagePath: Str, info: Info,
                      found: Pipeline, t: seq<Event>): Outcome
  {
    var res := ResolveWorld(found.blueprintId, remote.fetched);
    var marked := found.(completedSDKPipeline := res.isUpdate && !IsNullOrEmpty(res.rec.authorId));
    var p := Prepare(remote, editor, World, res, bundlePath, packagePath,
                     t + [FetchRequested(World, found.blueprintId)]);
    var manager := if IsNullOrEmpty(res.rec.id) then marked.(blueprintId := p.rec.id) else marked;
    var d := DataPass(remote, editor, World, p.rec, Str(p.bundle), p.package, p.isUpdate, info, p.trace);
    Outcome(Success(d.rec.id), d.info, Some(manager), d.trace)
  }

  /** `UploadAvatar`: the record is fetched by the info's `blueprintID`. */
  function AvatarSession(remote: Remote, editor: Editor, bundlePath: Str, packagePath: Str, info: Info,
                         t: seq<Event>): Outcome
  {
    if IsNullOrWhiteSpace(bundlePath) then
      Outcome(Failure(InvalidAssetBundlePath), info, None, t)
    else
      var loggedIn := t + [CachesCleared] + [LoginAttempted];
      if !remote.loginOk then
        Outcome(Failure(LoginFailed), info, None, loggedIn)
      else
        var p := Prepare(remote, editor, Avatar, ResolveAvatar(remote.fetched), bundlePath.chars, packagePath,
                         loggedIn + [FetchRequested(Avatar, info.blueprintID)]);
        var d := DataPass(remote, editor, Avatar, p.rec, Str(p.bundle), p.package, p.isUpdate, info, p.trace);
        Outcome(Success(d.rec.id), d.info, None, d.trace)
  }

  /** `ApplyBlueprintChanges`: one `Save` of the record as it is. */
  function ChangesApplied(remote: Remote, kind: Kind, r: Record, t: seq<Event>): Persisting {
    Persisting(r, remote.saveOk, t + [Saved(kind, r)])
  }

  /** `UpdateBlueprintImage` for a texture of the given size. */
  function ImageReplaced(remote: Remote, editor: Editor, kind: Kind, r: Record, width: int32, height: int32,
                         t: seq<Event>): Persisting
  {
    var path := ImageName(width as int, height as int, "image", editor.cachePath, editor.now);
    var u := ImageUpload(remote, r.imageUrl, Str(path), t + [ImageSaved(path)]);
    var saved := ChangesApplied(remote, kind, r.(imageUrl := u.url), u.trace);
    Persisting(saved.rec, saved.ok, saved.trace + [StateEmitted(StateOf(saved.ok))])
  }
}
