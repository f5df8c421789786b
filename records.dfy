/**
  The values the uploader works on: blueprint records (worlds and avatars),
  the caller's upload info, the pipeline manager's fields, the events one
  upload session makes visible, and the answers of everything outside the
  uploader (the VRChat API, the file upload helper, login).
 */
module Records {
  import opened Strings
  import opened Versioning

  datatype Option<T> = None | Some(value: T)

  datatype Result<T, E> = Success(value: T) | Failure(error: E)

  /** `ApiModel` is an `ApiWorld` or an `ApiAvatar`. */
  datatype Kind = World | Avatar

  /** The fields of an `ApiWorld` / `ApiAvatar` the uploader reads or writes.
      `capacity` only means something for a world. */
  datatype Record = Record(
    id: Str,
    version: int32,
    assetUrl: Str,
    unityPackageUrl: Str,
    imageUrl: Str,
    name: Str,
    description: Str,
    tags: seq<string>,
    capacity: int32,
    authorId: Str)

  /** A record as `new ApiWorld()` / `new ApiAvatar()` leaves it. */
  const NewRecord: Record := Record(Null, 0, Null, Null, Null, Null, Null, [], 0, Null)

  /** `WorldInfo` / `AvatarInfo`: what the caller wants applied, plus the
      output field `blueprintID`. `capacity` is only read for a world. */
  datatype Info = Info(
    name: Str,
    description: Str,
    tags: seq<string>,
    capacity: int32,
    newImagePath: Str,
    blueprintID: Str)

  /** The fields of the scene's `PipelineManager` the world upload touches. */
  datatype Pipeline = Pipeline(blueprintId: Str, completedSDKPipeline: bool, user: Str)

  /** The `fileType` argument of `UploadFile`. */
  datatype FileType = UnityPackage | AssetBundle | Image

  /** `VRChatApiToolsUploadStatus.UploadState`, as far as the uploader emits it. */
  datatype UploadState = Finished | Failed

  function StateOf(ok: bool): UploadState {
    if ok then Finished else Failed
  }

  /** What one upload session does that can be observed from outside it, in order. */
  datatype Event =
    | CachesCleared                                               // VRChatApiTools.ClearCaches
    | LoginAttempted                                              // TryAutoLoginAsync
    | PipelineLookup                                              // FindPipelineManager
    | FetchRequested(kind: Kind, fetchId: Str)                      // ApiModel.Fetch
    | Copied(source: string, target: string)                      // File.Copy into the cache
    | IdAssigned(newId: string)                                   // AssignId / GenerateBlueprintID
    | ImageSaved(path: string)                                    // SaveImageTemp's File.WriteAllBytes
    | FileUploaded(path: string, existingUrl: Str, fileType: FileType)  // the file helper's UploadFile
    | Saved(kind: Kind, record: Record)                           // ApiModel.Save
    | Posted(kind: Kind, record: Record)                          // ApiModel.Post
    | FailedStatus                                                // OnStatus("Failed", ...)
    | StateEmitted(state: UploadState)                            // OnUploadState

  /** How the VRChat API answers `Fetch`: the stored record, or the error callback. */
  datatype FetchAnswer = Found(record: Record) | NotFound

  /** A blueprint id as `AssignId` / `GenerateBlueprintID` make one. */
  type GeneratedId = s: string | 0 < |s| witness "_"

  /** The answers of the outside collaborators during one session: whether the
      login succeeds, the current user, the Fetch answer, the id a new
      blueprint is given, what the file helper returns for a file (path,
      existing file URL, type; cancellation and transfer failure are its null or
      empty answers), whether `Save` succeeds, and the saved record's id when
      `Post` succeeds. */
  datatype Remote = Remote(
    loginOk: bool,
    currentUser: Str,
    fetched: FetchAnswer,
    generatedId: GeneratedId,
    upload: (string, Str, FileType) -> Str,
    saveOk: bool,
    postedId: Option<Str>)

  /** Why `UploadWorld` / `UploadAvatar` throw. */
  datatype UploadError = InvalidAssetBundlePath | LoginFailed | NoPipelineManager

  /** Kinds of events counted by the properties of a session. */
  datatype Tally = PersistCalls | Uploads(fileType: FileType) | Terminals

  predicate Counts(k: Tally, e: Event) {
    match k
    case PersistCalls => e.Saved? || e.Posted?
    case Uploads(t) => e.FileUploaded? && e.fileType == t
    case Terminals => e.StateEmitted?
  }

  /** How many events of a trace are of kind `k`. */
  function Count(k: Tally, events: seq<Event>): nat {
    if events == [] then 0
    else Count(k, events[..|events| - 1]) + (if Counts(k, events[|events| - 1]) then 1 else 0)
  }

  lemma {:induction false} CountAppend(k: Tally, a: seq<Event>, b: seq<Event>)
    ensures Count(k, a + b) == Count(k, a) + Count(k, b)
    decreases |b|
  {
    if b != [] {
      assert (a + b)[..|a + b| - 1] == a + b[..|b| - 1];
      CountAppend(k, a, b[..|b| - 1]);
    } else {
      assert a + b == a;
    }
  }

  lemma {:induction false} CountNone(k: Tally, events: seq<Event>)
    requires forall i :: 0 <= i < |events| ==> !Counts(k, events[i])
    ensures Count(k, events) == 0
    decreases |events|
  {
    if events != [] {
      CountNone(k, events[..|events| - 1]);
    }
  }
}
