/**
  `VRChatApiUploaderAsync`: the objects the upload changes in place (the
  blueprint record, the caller's info, the scene's pipeline manager) and the
  uploader, whose methods do the upload step by step. Every remote call is one
  atomic step answered by `remote`; the events the status callbacks and the
  remote calls make visible are appended to `trace`. Each method is proved to
  have exactly the effect the matching function of `Session` describes.
 */
module Uploader {
  import opened Strings
  import opened Versioning
  import opened Staging
  import opened Records
  import Session

  /** An `ApiWorld` or `ApiAvatar` held by the uploader. The object is shared
      by the steps of one upload and changed in place; its fields' values are
      kept together in `rec`, so writing one field is a record update. */
  class Blueprint {
    const kind: Kind
    var rec: Record

    constructor (kind: Kind, r: Record)
      ensures this.kind == kind && rec == r
    {
      this.kind := kind;
      rec := r;
    }
  }

  /** A `WorldInfo` or `AvatarInfo` owned by the caller. */
  class BlueprintInfo {
    var name: Str
    var description: Str
    var tags: seq<string>
    var capacity: int32
    var newImagePath: Str
    var blueprintID: Str

    constructor (i: Info)
      ensures Value() == i
    {
      name, description, tags, capacity, newImagePath, blueprintID :=
        i.name, i.description, i.tags, i.capacity, i.newImagePath, i.blueprintID;
    }

    function Value(): Info
      reads this
    {
      Info(name, description, tags, capacity, newImagePath, blueprintID)
    }
  }

  /** The scene's `PipelineManager`. */
  class PipelineManager {
    var blueprintId: Str
    var completedSDKPipeline: bool
    var user: Str

    constructor (p: Pipeline)
      ensures Value() == p
    {
      blueprintId, completedSDKPipeline, user := p.blueprintId, p.completedSDKPipeline, p.user;
    }

    function Value(): Pipeline
      reads this
    {
      Pipeline(blueprintId, completedSDKPipeline, user)
    }
  }

  function InfoOf(info: BlueprintInfo?): Option<Info>
    reads info
  {
    if info == null then None else Some(info.Value())
  }

  function PipelineOf(manager: PipelineManager?): Option<Pipeline>
    reads manager
  {
    if manager == null then None else Some(manager.Value())
  }

  class Uploader {
    /** What the VRChat API, login and the file helper answer during this uploader's session. */
    const remote: Remote
    /** What the editor supplies: cache path, versions, platform, file existence, clock. */
    const editor: Editor
    /** Everything the status callbacks and the remote calls have made visible so far. */
    var trace: seq<Event>

    constructor (remote: Remote, editor: Editor)
      ensures this.remote == remote && this.editor == editor && trace == []
    {
      this.remote := remote;
      this.editor := editor;
      trace := [];
    }

    method UploadFile(filePath: Str, existingFileUrl: Str, fileType: FileType) returns (newFileUrl: Str)
      modifies this
      ensures var u := Session.FileUpload(remote, filePath, existingFileUrl, fileType, old(trace));
              newFileUrl == u.url && trace == u.trace
    {
      newFileUrl := Empty;
      if IsNullOrEmpty(filePath) {
        return;
      }
      trace := trace + [FileUploaded(filePath.chars, existingFileUrl, fileType)];
      newFileUrl := remote.upload(filePath.chars, existingFileUrl, fileType);
    }

    method UploadImage(blueprint: Blueprint, newImagePath: Str) returns (newUrl: Str)
      modifies this
      ensures var u := Session.ImageUpload(remote, blueprint.rec.imageUrl, newImagePath, old(trace));
              newUrl == u.url && trace == u.trace
    {
      var existingFileUrl := blueprint.rec.imageUrl;
      newUrl := Null;
      if !IsNullOrEmpty(newImagePath) {
        newUrl := UploadFile(newImagePath, existingFileUrl, Image);
      }
    }

    /** `SaveImageTemp` for a texture of the given size: the PNG is written to the cache. */
    method SaveImageTemp(width: int32, height: int32) returns (path: string)
      modifies this
      ensures path == ImageName(width as int, height as int, "image", editor.cachePath, editor.now)
      ensures trace == old(trace) + [ImageSaved(path)]
    {
      path := ImageName(width as int, height as int, "image", editor.cachePath, editor.now);
      trace := trace + [ImageSaved(path)];
    }

    method FormatAssetBundle(assetBundlePath: string, blueprintId: Str, version: int32, assetVersion: string)
      returns (uploadVrcPath: string)
      modifies this
      ensures uploadVrcPath == StagedBundlePath(editor, assetBundlePath, blueprintId, version, editor.platform, assetVersion)
      ensures trace == old(trace) + [Copied(assetBundlePath, uploadVrcPath)]
    {
      uploadVrcPath := StagedBundlePath(editor, assetBundlePath, blueprintId, version, editor.platform, assetVersion);
      trace := trace + [Copied(assetBundlePath, uploadVrcPath)];
    }

    method FormatUnityPackage(packagePath: string, blueprintId: Str, version: int32, assetVersion: string)
      returns (uploadUnityPackagePath: string)
      modifies this
      ensures uploadUnityPackagePath == StagedPackagePath(editor, blueprintId, version, editor.platform, assetVersion)
      ensures trace == old(trace) + [Copied(packagePath, uploadUnityPackagePath)]
    {
      uploadUnityPackagePath := StagedPackagePath(editor, blueprintId, version, editor.platform, assetVersion);
      trace := trace + [Copied(packagePath, uploadUnityPackagePath)];
    }

    method ApplyBlueprintChanges(blueprint: Blueprint) returns (success: bool)
      modifies this
      ensures var p := Session.ChangesApplied(remote, blueprint.kind, blueprint.rec, old(trace));
              success == p.ok && trace == p.trace
    {
      trace := trace + [Saved(blueprint.kind, blueprint.rec)];
      success := remote.saveOk;
    }

    /** `UpdateBlueprintImage` for a new texture of the given size. */
    method UpdateBlueprintImage(blueprint: Blueprint, width: int32, height: int32) returns (success: bool)
      modifies this, blueprint
      ensures var p := Session.ImageReplaced(remote, editor, blueprint.kind, old(blueprint.rec), width, height,
                                             old(trace));
              blueprint.rec == p.rec && success == p.ok && trace == p.trace
    {
      var newImagePath := SaveImageTemp(width, height);
      var newUrl := UploadImage(blueprint, Str(newImagePath));
      blueprint.rec := blueprint.rec.(imageUrl := newUrl);
      success := ApplyBlueprintChanges(blueprint);
      trace := trace + [StateEmitted(StateOf(success))];
    }

    /** `UpdateWorldBlueprint` / `UpdateAvatarBlueprint`. */
    method UpdateBlueprint(blueprint: Blueprint, info: BlueprintInfo?) returns (success: bool)
      modifies this, blueprint
      ensures var p := Session.Update(remote, blueprint.kind, old(blueprint.rec), InfoOf(info), old(trace));
              blueprint.rec == p.rec && success == p.ok && trace == p.trace
    {
      if info != null {
        blueprint.rec := blueprint.rec.(name := info.name, description := info.description, tags := info.tags);
        if blueprint.kind == World {
          blueprint.rec := blueprint.rec.(capacity := info.capacity);
        }
        if info.newImagePath != Empty {
          var newImageUrl := UploadImage(blueprint, info.newImagePath);
          blueprint.rec := blueprint.rec.(imageUrl := newImageUrl);
        }
      }
      trace := trace + [Saved(blueprint.kind, blueprint.rec)];
      success := remote.saveOk;
    }

    /** `CreateWorldBlueprint` / `CreateAvatarBlueprint`. */
    method CreateBlueprint(blueprint: Blueprint, info: BlueprintInfo) returns (success: bool)
      modifies this, blueprint, info
      ensures var p := Session.Create(remote, editor, blueprint.kind, old(blueprint.rec), old(info.Value()), old(trace));
              blueprint.rec == p.rec && success == p.ok && trace == p.trace
      ensures info.Value() == Session.AfterPost(remote, old(info.Value()))
    {
      blueprint.rec := blueprint.rec.(name := info.name, description := info.description, tags := info.tags);
      if blueprint.kind == World {
        blueprint.rec := blueprint.rec.(capacity := info.capacity);
      }
      if info.newImagePath != Empty {
        var newImageUrl := UploadImage(blueprint, info.newImagePath);
        blueprint.rec := blueprint.rec.(imageUrl := newImageUrl);
      }
      if IsNullOrWhiteSpace(blueprint.rec.imageUrl) {
        var placeholder := SaveImageTemp(1200, 900);
        var placeholderUrl := UploadImage(blueprint, Str(placeholder));
        blueprint.rec := blueprint.rec.(imageUrl := placeholderUrl);
      }
      trace := trace + [Posted(blueprint.kind, blueprint.rec)];
      match remote.postedId {
        case Some(savedId) =>
          info.blueprintID := savedId;
          success := true;
        case None =>
          success := false;
      }
    }

    /** `UploadWorldData` / `UploadAvatarData`. */
    method UploadData(blueprint: Blueprint, assetBundlePath: Str, unityPackagePath: Str, isUpdate: bool,
                      info: BlueprintInfo)
      modifies this, blueprint, info
      ensures var d := Session.DataPass(remote, editor, blueprint.kind, old(blueprint.rec),
                                        assetBundlePath, unityPackagePath, isUpdate, old(info.Value()), old(trace));
              blueprint.rec == d.rec && info.Value() == d.info && trace == d.trace
    {
      ghost var r0, i0, t0 := blueprint.rec, info.Value(), trace;
      if !IsNullOrEmpty(unityPackagePath) {
        var packageUrl := UploadFile(unityPackagePath, if isUpdate then blueprint.rec.unityPackageUrl else Empty,
                                     UnityPackage);
        blueprint.rec := blueprint.rec.(unityPackageUrl := packageUrl);
      }
      if !IsNullOrEmpty(assetBundlePath) {
        var assetUrl := UploadFile(assetBundlePath, if isUpdate then blueprint.rec.assetUrl else Empty, AssetBundle);
        blueprint.rec := blueprint.rec.(assetUrl := assetUrl);
      }
      assert Session.DataPass(remote, editor, blueprint.kind, r0, assetBundlePath, unityPackagePath, isUpdate, i0, t0)
          == Session.Persist(remote, editor, blueprint.kind, blueprint.rec, isUpdate, i0, trace);
      PersistUploaded(blueprint, isUpdate, info);
    }

    /** The end of `UploadWorldData` / `UploadAvatarData`: fail without an asset
        URL, otherwise update or create the blueprint and report the upload state. */
    method PersistUploaded(blueprint: Blueprint, isUpdate: bool, info: BlueprintInfo)
      modifies this, blueprint, info
      ensures var d := Session.Persist(remote, editor, blueprint.kind, old(blueprint.rec), isUpdate,
                                       old(info.Value()), old(trace));
              blueprint.rec == d.rec && info.Value() == d.info && trace == d.trace
    {
      if IsNullOrWhiteSpace(blueprint.rec.assetUrl) {
        trace := trace + [FailedStatus];
        return;
      }
      var appliedSuccess := false;
      if isUpdate {
        appliedSuccess := UpdateBlueprint(blueprint, info);
      } else {
        appliedSuccess := CreateBlueprint(blueprint, info);
      }
      trace := trace + [StateEmitted(StateOf(appliedSuccess))];
    }

    /** `ApiWorld.Fetch` of the pipeline's blueprint id, with its two callbacks. */
    method FetchWorld(pipelineManager: PipelineManager) returns (apiWorld: Blueprint, isUpdate: bool)
      modifies this, pipelineManager
      ensures fresh(apiWorld) && apiWorld.kind == World
      ensures Session.Resolution(apiWorld.rec, isUpdate)
              == Session.ResolveWorld(old(pipelineManager.blueprintId), remote.fetched)
      ensures pipelineManager.Value()
              == old(pipelineManager.Value()).(completedSDKPipeline := isUpdate && !IsNullOrEmpty(apiWorld.rec.authorId))
      ensures trace == old(trace) + [FetchRequested(World, old(pipelineManager.blueprintId))]
    {
      trace := trace + [FetchRequested(World, pipelineManager.blueprintId)];
      match remote.fetched {
        case Found(r) =>
          apiWorld := new Blueprint(World, r);
          pipelineManager.completedSDKPipeline := !IsNullOrEmpty(apiWorld.rec.authorId);
          isUpdate := true;
        case NotFound =>
          apiWorld := new Blueprint(World, NewRecord.(capacity := 16));
          pipelineManager.completedSDKPipeline := false;
          apiWorld.rec := apiWorld.rec.(id := pipelineManager.blueprintId);
          isUpdate := false;
      }
    }

    /** `ApiAvatar.Fetch` of the info's blueprint id, with its two callbacks. */
    method FetchAvatar(blueprintID: Str) returns (apiAvatar: Blueprint, isUpdate: bool)
      modifies this
      ensures fresh(apiAvatar) && apiAvatar.kind == Avatar
      ensures Session.Resolution(apiAvatar.rec, isUpdate) == Session.ResolveAvatar(remote.fetched)
      ensures trace == old(trace) + [FetchRequested(Avatar, blueprintID)]
    {
      trace := trace + [FetchRequested(Avatar, blueprintID)];
      match remote.fetched {
        case Found(r) =>
          apiAvatar := new Blueprint(Avatar, r);
          isUpdate := true;
        case NotFound =>
          apiAvatar := new Blueprint(Avatar, NewRecord);
          isUpdate := false;
      }
    }

    /** The staging block of both entry points: the bundle is always copied, the
        package only when a path is given and the file exists. */
    method StageFiles(kind: Kind, assetBundlePath: string, unityPackagePath: Str, blueprintId: Str, version: int32)
      returns (uploadVrcPath: string, uploadUnityPackagePath: Str)
      modifies this
      ensures var s := Session.Stage(editor, kind, assetBundlePath, unityPackagePath, blueprintId, version, old(trace));
              uploadVrcPath == s.bundle && uploadUnityPackagePath == s.package && trace == s.trace
    {
      uploadVrcPath := FormatAssetBundle(assetBundlePath, blueprintId, version,
                                         if kind == World then editor.worldAssetVersion else editor.avatarAssetVersion);
      var shouldUploadUnityPackage := !IsNullOrEmpty(unityPackagePath) && editor.fileExists(unityPackagePath.chars);
      uploadUnityPackagePath := Empty;
      if shouldUploadUnityPackage {
        var stagedPackage := FormatUnityPackage(unityPackagePath.chars, blueprintId, version, editor.worldAssetVersion);
        uploadUnityPackagePath := Str(stagedPackage);
      }
    }

    /** A new world without an id gets one from `PipelineManager.AssignId`, and the record takes it. */
    method AssignWorldId(apiWorld: Blueprint, pipelineManager: PipelineManager)
      modifies this, apiWorld, pipelineManager
      ensures IsNullOrEmpty(old(apiWorld.rec.id)) ==>
                apiWorld.rec == old(apiWorld.rec).(id := Str(remote.generatedId))
                && pipelineManager.Value() == old(pipelineManager.Value()).(blueprintId := Str(remote.generatedId))
                && trace == old(trace) + [IdAssigned(remote.generatedId)]
      ensures !IsNullOrEmpty(old(apiWorld.rec.id)) ==>
                apiWorld.rec == old(apiWorld.rec) && pipelineManager.Value() == old(pipelineManager.Value())
                && trace == old(trace)
    {
      if IsNullOrEmpty(apiWorld.rec.id) {
        pipelineManager.blueprintId := Str(remote.generatedId);
        trace := trace + [IdAssigned(remote.generatedId)];
        apiWorld.rec := apiWorld.rec.(id := pipelineManager.blueprintId);
      }
    }

    /** A new avatar without an id gets one from `GenerateBlueprintID`. */
    method AssignAvatarId(apiAvatar: Blueprint)
      modifies this, apiAvatar
      ensures IsNullOrEmpty(old(apiAvatar.rec.id)) ==>
                apiAvatar.rec == old(apiAvatar.rec).(id := Str(remote.generatedId))
                && trace == old(trace) + [IdAssigned(remote.generatedId)]
      ensures !IsNullOrEmpty(old(apiAvatar.rec.id)) ==> apiAvatar.rec == old(apiAvatar.rec) && trace == old(trace)
    {
      if IsNullOrEmpty(apiAvatar.rec.id) {
        trace := trace + [IdAssigned(remote.generatedId)];
        apiAvatar.rec := apiAvatar.rec.(id := Str(remote.generatedId));
      }
    }

    /** `UploadWorld`; `pipelineManager` is what `FindPipelineManager` finds in the scene. */
    method UploadWorld(assetBundlePath: Str, unityPackagePath: Str, worldInfo: BlueprintInfo,
                       pipelineManager: PipelineManager?) returns (result: Result<Str, UploadError>)
      modifies this, worldInfo, pipelineManager
      ensures var o := Session.WorldSession(remote, editor, assetBundlePath, unityPackagePath,
                                            old(worldInfo.Value()), old(PipelineOf(pipelineManager)), old(trace));
              result == o.result && worldInfo.Value() == o.info && PipelineOf(pipelineManager) == o.pipeline
              && trace == o.trace
    {
      if IsNullOrWhiteSpace(assetBundlePath) {
        return Failure(InvalidAssetBundlePath);
      }
      trace := trace + [CachesCleared];
      trace := trace + [LoginAttempted];
      if !remote.loginOk {
        return Failure(LoginFailed);
      }
      trace := trace + [PipelineLookup];
      if pipelineManager == null {
        return Failure(NoPipelineManager);
      }
      pipelineManager.user := remote.currentUser;
      result := UploadFoundWorld(assetBundlePath.chars, unityPackagePath, worldInfo, pipelineManager);
    }

    /** `UploadWorld` once the pipeline manager is found: fetch, stage, assign
        the id and run the data pass. */
    method UploadFoundWorld(assetBundlePath: string, unityPackagePath: Str, worldInfo: BlueprintInfo,
                            pipelineManager: PipelineManager) returns (result: Result<Str, UploadError>)
      modifies this, worldInfo, pipelineManager
      ensures var o := Session.WorldFound(remote, editor, assetBundlePath, unityPackagePath,
                                          old(worldInfo.Value()), old(pipelineManager.Value()), old(trace));
              result == o.result && worldInfo.Value() == o.info && Some(pipelineManager.Value()) == o.pipeline
              && trace == o.trace
    {
      var apiWorld, isUpdate := FetchWorld(pipelineManager);

      var version := NextVersion(apiWorld.rec.version);
      var uploadVrcPath, uploadUnityPackagePath := StageFiles(World, assetBundlePath, unityPackagePath,
                                                              apiWorld.rec.id, version);

      AssignWorldId(apiWorld, pipelineManager);

      UploadData(apiWorld, Str(uploadVrcPath), uploadUnityPackagePath, isUpdate, worldInfo);
      return Success(apiWorld.rec.id);
    }

    /** `UploadAvatar`. */
    method UploadAvatar(assetBundlePath: Str, unityPackagePath: Str, avatarInfo: BlueprintInfo)
      returns (result: Result<Str, UploadError>)
      modifies this, avatarInfo
      ensures var o := Session.AvatarSession(remote, editor, assetBundlePath, unityPackagePath, old(avatarInfo.Value()),
                                             old(trace));
              result == o.result && avatarInfo.Value() == o.info && trace == o.trace
    {
      if IsNullOrWhiteSpace(assetBundlePath) {
        return Failure(InvalidAssetBundlePath);
      }
      trace := trace + [CachesCleared];
      trace := trace + [LoginAttempted];
      if !remote.loginOk {
        return Failure(LoginFailed);
      }
      var apiAvatar, isUpdate := FetchAvatar(avatarInfo.blueprintID);

      var version := NextVersion(apiAvatar.rec.version);
      var uploadVrcPath, uploadUnityPackagePath := StageFiles(Avatar, assetBundlePath.chars, unityPackagePath,
                                                              apiAvatar.rec.id, version);

      AssignAvatarId(apiAvatar);

      UploadData(apiAvatar, Str(uploadVrcPath), uploadUnityPackagePath, isUpdate, avatarInfo);
      return Success(apiAvatar.rec.id);
    }
  }
}
