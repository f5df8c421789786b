# VRChat API uploader: a verified model of the upload orchestration

This project models the upload logic of `VRChatApiUploaderAsync`, the editor class that uploads a
VRChat world or avatar and its files. The model covers the steps of one upload in order:

1. Reject a blank asset bundle path.
2. Clear the caches, log in and (for a world) find the scene's pipeline manager.
3. Fetch the record and decide between update and create.
4. Compute the next version and stage the bundle and the optional unity package in the cache.
5. Give a new record an id.
6. Upload the package, then the bundle.
7. Stop with the "Failed" status when no asset URL came back.
8. Update branch: apply the info, upload an image if one was asked for, then `Save`.
   Create branch: copy the info, fall back to a 1200x900 placeholder image, then `Post` and write
   the saved id back into the info.
9. Emit the upload state.

The standalone operations `ApplyBlueprintChanges`, `UpdateBlueprintImage`, `UploadImage`,
`UploadFile`, `SaveImageTemp`, `ImageName`, `FormatAssetBundle` and `FormatUnityPackage` are
modelled as well.

## Structure

- `strings.dfy` (`Strings`): C# strings that may be null, and the null/empty/whitespace tests.
  It also holds decimal rendering of integers and string interpolation as the concatenation of a
  list of pieces.
- `versioning.dfy` (`Versioning`): `int` as a 32-bit newtype, the unchecked `version + 1`, and
  `Mathf.Max(1, version + 1)`.
- `staging.dfy` (`Staging`): `Path.GetExtension`, the staged cache paths and the image file
  name. Lemmas state their shape and that the name determines its variable parts.
- `records.dfy` (`Records`): the record fields, the info, the pipeline manager fields, the
  observable events and the answers of the outside collaborators.
- `session.dfy` (`Session`): one function per operation. Each takes the events so far and
  returns the new field values together with the events with the call's own appended.
- `uploader.dfy` (`Uploader`): the imperative form.
  - `Blueprint`, `BlueprintInfo` and `PipelineManager` are objects the upload changes in place.
  - The class `Uploader` has one method per source method, or per block of a source method.
    Most methods' postconditions say that the new state is exactly what the matching `Session`
    function gives for the old state. `SaveImageTemp`, `FormatAssetBundle`, `FormatUnityPackage`,
    `AssignWorldId` and `AssignAvatarId` are small enough that their postconditions state the
    new path, record, manager and events directly instead.
- `session_properties.dfy` (`SessionProperties`): what a session guarantees, proved about the
  `Session` functions.

### What is a parameter

Every outside call is one atomic step whose answer is a parameter.

- `Remote` holds:
  - whether login succeeds, and the current user;
  - the `Fetch` answer (found record, or the error callback);
  - the generated id, which is assumed non-empty (`GeneratedId`). The "never empty" id
    results of `WorldSessionSucceeds` and `AvatarSessionSucceeds` rest on this assumption;
  - the file helper, as a function of path, existing URL and file type;
  - whether `Save` succeeds, and the saved id when `Post` succeeds.
- `Editor` holds the cache path, the Unity and asset versions, the platform and server strings,
  `File.Exists`, and the clock reading `DateTime.Now`.

What the status callbacks and the remote calls make visible is appended to the uploader's
`trace`, in order. The properties are stated about that trace.

## Model

| member | source | states |
|---|---|---|
| Strings.IsNullOrEmpty | Packages/com.bocud.vrcapitools/Editor/VRChatApiUploaderAsync.cs:548 | Defined as: the string is null or has no characters (`string.IsNullOrEmpty`). |
| Strings.IsNullOrWhiteSpace | Packages/com.bocud.vrcapitools/Editor/VRChatApiUploaderAsync.cs:110 | Defined as: the string is null or every character is white space (`string.IsNullOrWhiteSpace`); see `AllWhiteSpaceMeans`. |
| Staging.StagedBundlePath | Packages/com.bocud.vrcapitools/Editor/VRChatApiUploaderAsync.cs:578 | Defined as: the interpolation of cache, id, version, Unity version, asset version, platform and server, then the source bundle's extension. |
| Staging.StagedPackagePath | Packages/com.bocud.vrcapitools/Editor/VRChatApiUploaderAsync.cs:591 | Defined as: the same interpolation, ending in `.unitypackage`. |
| Staging.ImageName | Packages/com.bocud.vrcapitools/Editor/VRChatApiUploaderAsync.cs:540-541 | Defined as: directory/name, `_`, width `x` height, `_`, the `yyyy-MM-dd_HH-mm-ss` stamp, `.png`. |
| Session.FileUpload | Packages/com.bocud.vrcapitools/Editor/VRChatApiUploaderAsync.cs:544-573 | Defined as: for a null or empty path "" and no event. Otherwise one `FileUploaded` event, and the helper's answer is the URL. |
| Session.ImageUpload | Packages/com.bocud.vrcapitools/Editor/VRChatApiUploaderAsync.cs:501-530 | Defined as: for a null or empty path a null URL and no event. Otherwise an `Image` upload over the current image URL. |
| Session.Update | Packages/com.bocud.vrcapitools/Editor/VRChatApiUploaderAsync.cs:326-396 | Defined as: apply the info when there is one, upload a new image when `newImagePath != ""`, then one `Saved` event. The result is `Save`'s answer. |
| Session.Create | Packages/com.bocud.vrcapitools/Editor/VRChatApiUploaderAsync.cs:398-498 | Defined as: copy the info, upload the requested image, save and upload the placeholder when the URL is still blank, then one `Posted` event. The result is whether `Post` succeeded. |
| Session.AfterPost | Packages/com.bocud.vrcapitools/Editor/VRChatApiUploaderAsync.cs:420-434 | Defined as: the info with `blueprintID` set to the saved id when `Post` succeeded, otherwise unchanged. |
| Session.DataPass | Packages/com.bocud.vrcapitools/Editor/VRChatApiUploaderAsync.cs:256-324 | Defined as: upload the package, then the bundle, each passed its existing URL only on update, then `Persist`. |
| Session.Persist | Packages/com.bocud.vrcapitools/Editor/VRChatApiUploaderAsync.cs:273-288 | Defined as: "Failed" on a blank asset URL. Otherwise `Update` or `Create` (with `AfterPost`), then an upload state by the persist answer. |
| Session.ResolveWorld | Packages/com.bocud.vrcapitools/Editor/VRChatApiUploaderAsync.cs:134-157 | Defined as: a found world is an update; otherwise a new record of capacity 16 under the manager's id. |
| Session.ResolveAvatar | Packages/com.bocud.vrcapitools/Editor/VRChatApiUploaderAsync.cs:210-228 | Defined as: a found avatar is an update; otherwise a new record. |
| Session.Stage | Packages/com.bocud.vrcapitools/Editor/VRChatApiUploaderAsync.cs:164-171 | Defined as: copy the bundle to its staged path. Copy the package, under the world asset version, only when it is given and exists. |
| Session.Prepare | Packages/com.bocud.vrcapitools/Editor/VRChatApiUploaderAsync.cs:164-178 | Defined as: `Stage` under the fetched id and `NextVersion`, then assign the generated id when the id is empty. |
| Session.WorldSession | Packages/com.bocud.vrcapitools/Editor/VRChatApiUploaderAsync.cs:108-183 | Defined as: the three early exits, then `WorldFound` with the manager taking the current user. |
| Session.WorldFound | Packages/com.bocud.vrcapitools/Editor/VRChatApiUploaderAsync.cs:124-182 | Defined as: fetch by the manager's id, mark the manager, `Prepare`, give the manager the new id, `DataPass`, return the record's id. |
| Session.AvatarSession | Packages/com.bocud.vrcapitools/Editor/VRChatApiUploaderAsync.cs:192-254 | Defined as: the two early exits, then fetch by `blueprintID`, `Prepare`, `DataPass`, and return the record's id. |
| Session.ChangesApplied | Packages/com.bocud.vrcapitools/Editor/VRChatApiUploaderAsync.cs:71-99 | Defined as: one `Saved` event of the record as it is. The result is `Save`'s answer. |
| Session.ImageReplaced | Packages/com.bocud.vrcapitools/Editor/VRChatApiUploaderAsync.cs:46-69 | Defined as: save the texture to its `ImageName`, upload it over the current image, `ChangesApplied`, then the upload state. |
| Uploader.Uploader.UploadFile | Packages/com.bocud.vrcapitools/Editor/VRChatApiUploaderAsync.cs:544-573 | A null or empty path returns "" and leaves the trace alone. Any other path makes exactly one file-helper call (path, existing URL, type), and its answer is returned. |
| Uploader.Uploader.UploadImage | Packages/com.bocud.vrcapitools/Editor/VRChatApiUploaderAsync.cs:501-530 | A null or empty path returns null without calling the helper. Otherwise the image is uploaded over the blueprint's current image URL. |
| Uploader.Uploader.SaveImageTemp | Packages/com.bocud.vrcapitools/Editor/VRChatApiUploaderAsync.cs:532-538 | Returns the `ImageName` of the texture size, "image" and the cache path, and records one write of that file. |
| Uploader.Uploader.FormatAssetBundle | Packages/com.bocud.vrcapitools/Editor/VRChatApiUploaderAsync.cs:575-586 | Returns the staged bundle path and records one copy of the source bundle to it. |
| Uploader.Uploader.FormatUnityPackage | Packages/com.bocud.vrcapitools/Editor/VRChatApiUploaderAsync.cs:588-599 | Returns the staged `.unitypackage` path and records one copy of the package to it. |
| Uploader.Uploader.ApplyBlueprintChanges | Packages/com.bocud.vrcapitools/Editor/VRChatApiUploaderAsync.cs:71-99 | One `Save` of the record as it is. The result is whether `Save` succeeded. |
| Uploader.Uploader.UpdateBlueprintImage | Packages/com.bocud.vrcapitools/Editor/VRChatApiUploaderAsync.cs:46-69 | The record and the events are exactly `Session.ImageReplaced` of the old record: save the texture, upload it, one `Save`, one upload state. |
| Uploader.Uploader.UpdateBlueprint | Packages/com.bocud.vrcapitools/Editor/VRChatApiUploaderAsync.cs:326-396 | The new record and events are `Session.Update` of the old ones, for a null or non-null info, for both kinds. |
| Uploader.Uploader.CreateBlueprint | Packages/com.bocud.vrcapitools/Editor/VRChatApiUploaderAsync.cs:398-498 | The new record and events are `Session.Create` of the old ones. The info afterwards carries the saved id exactly when `Post` succeeded. |
| Uploader.Uploader.UploadData | Packages/com.bocud.vrcapitools/Editor/VRChatApiUploaderAsync.cs:256-324 | Record, info and events after the data pass are `Session.DataPass` of the old ones, for both kinds. |
| Uploader.Uploader.PersistUploaded | Packages/com.bocud.vrcapitools/Editor/VRChatApiUploaderAsync.cs:273-288 | A blank asset URL ends the pass with "Failed". Otherwise the record is updated or created, and the upload state is reported; the result is exactly `Session.Persist` of the old state. |
| Uploader.Uploader.FetchWorld | Packages/com.bocud.vrcapitools/Editor/VRChatApiUploaderAsync.cs:126-162 | One fetch by the manager's id. A found world is an update; a missing one is a new record of capacity 16 under the manager's id. The manager is marked completed exactly for a found world with an author. |
| Uploader.Uploader.FetchAvatar | Packages/com.bocud.vrcapitools/Editor/VRChatApiUploaderAsync.cs:204-233 | One fetch by the info's id. A found avatar is an update; a missing one is a new record. |
| Uploader.Uploader.StageFiles | Packages/com.bocud.vrcapitools/Editor/VRChatApiUploaderAsync.cs:164-171 | The bundle is always staged. The package is staged only when its path is non-empty and the file exists; otherwise its staged path is "". |
| Uploader.Uploader.AssignWorldId | Packages/com.bocud.vrcapitools/Editor/VRChatApiUploaderAsync.cs:173-178 | An empty id is replaced by the generated one in both the record and the pipeline manager. A non-empty id leaves everything unchanged. |
| Uploader.Uploader.AssignAvatarId | Packages/com.bocud.vrcapitools/Editor/VRChatApiUploaderAsync.cs:244-249 | An empty id is replaced by the generated one. A non-empty id leaves everything unchanged. |
| Uploader.Uploader.UploadWorld | Packages/com.bocud.vrcapitools/Editor/VRChatApiUploaderAsync.cs:108-183 | Result or error, info, pipeline manager and events are exactly `Session.WorldSession` of the old state. |
| Uploader.Uploader.UploadFoundWorld | Packages/com.bocud.vrcapitools/Editor/VRChatApiUploaderAsync.cs:124-182 | With the pipeline manager found, fetch, staging, id assignment and data pass give exactly `Session.WorldFound` of the old state. |
| Uploader.Uploader.UploadAvatar | Packages/com.bocud.vrcapitools/Editor/VRChatApiUploaderAsync.cs:192-254 | Result or error, info and events are exactly `Session.AvatarSession` of the old state. |
| Versioning.Increment | Packages/com.bocud.vrcapitools/Editor/VRChatApiUploaderAsync.cs:165 | Unchecked 32-bit `+ 1`: the mathematical sum taken modulo 2^32 and read back as a two's-complement value. |
| Versioning.NextVersion | Packages/com.bocud.vrcapitools/Editor/VRChatApiUploaderAsync.cs:165 | The staged version is at least 1 and above the old one whenever the old one is not the maximum. It is the old one plus one from 0 upwards, and 1 for a non-positive or maximal old version. |
| Strings.AllWhiteSpaceMeans | Packages/com.bocud.vrcapitools/Editor/VRChatApiUploaderAsync.cs:110 | The whitespace test holds exactly when every character is whitespace. |
| Strings.IntToString | Packages/com.bocud.vrcapitools/Editor/VRChatApiUploaderAsync.cs:578 | The interpolated decimal form of an `int` is non-empty and made of digits and a sign. |
| Strings.NatToStringRoundTrip | Packages/com.bocud.vrcapitools/Editor/VRChatApiUploaderAsync.cs:578 | Reading back the decimal digits of a number gives the number. |
| Strings.IntToStringInjective | Packages/com.bocud.vrcapitools/Editor/VRChatApiUploaderAsync.cs:578 | Different integers print differently. |
| Staging.Extension | Packages/com.bocud.vrcapitools/Editor/VRChatApiUploaderAsync.cs:578 | `Path.GetExtension` is "" or a suffix of the path that starts with '.' and has no further dot or separator. |
| Staging.ExtensionOfSuffix | Packages/com.bocud.vrcapitools/Editor/VRChatApiUploaderAsync.cs:578 | A path ending in an extension has exactly that extension. |
| Staging.StagingLayout | Packages/com.bocud.vrcapitools/Editor/VRChatApiUploaderAsync.cs:578 | A staged name is the cache directory, "/", then id and version joined by "_", then the rest, then the extension. |
| Staging.StagedUnderCache | Packages/com.bocud.vrcapitools/Editor/VRChatApiUploaderAsync.cs:575-599 | Both staged paths lie directly under the cache directory. |
| Staging.StagedCopyKeepsExtension | Packages/com.bocud.vrcapitools/Editor/VRChatApiUploaderAsync.cs:575-599 | A bundle that has an extension keeps it on its staged copy. The staged package always ends in `.unitypackage`. An extensionless bundle is not covered: its staged name ends in the server string and takes whatever extension the dots there and in the Unity version give. |
| Staging.StagedNamesDetermineIdAndVersion | Packages/com.bocud.vrcapitools/Editor/VRChatApiUploaderAsync.cs:578 | Two bundles staged under the same path with the same extension have the same id and version. |
| Staging.Fixed | Packages/com.bocud.vrcapitools/Editor/VRChatApiUploaderAsync.cs:541 | A zero-padded date field has exactly its width, is made of digits only, and those digits denote the number. |
| Staging.FixedInjective | Packages/com.bocud.vrcapitools/Editor/VRChatApiUploaderAsync.cs:541 | Two numbers written in the same zero-padded field give different text unless they are equal. |
| Staging.StampDeterminesMoment | Packages/com.bocud.vrcapitools/Editor/VRChatApiUploaderAsync.cs:541 | A `yyyy-MM-dd_HH-mm-ss` timestamp determines the clock reading: equal stamps mean equal year, month, day, hour, minute and second. |
| Staging.ImageLayout | Packages/com.bocud.vrcapitools/Editor/VRChatApiUploaderAsync.cs:540-541 | An image name is directory/name, "_", width "x" height, "_", timestamp, ".png". |
| Staging.ImageNameIsPng | Packages/com.bocud.vrcapitools/Editor/VRChatApiUploaderAsync.cs:540-541 | Every image name has the extension `.png`. |
| Staging.ImageNameDeterminesSizeAndTime | Packages/com.bocud.vrcapitools/Editor/VRChatApiUploaderAsync.cs:540-541 | Equal image names in one directory have equal width, height and clock reading. |
| SessionProperties.EmptyPathSkipsHelper | Packages/com.bocud.vrcapitools/Editor/VRChatApiUploaderAsync.cs:548-552 | For an empty path, `UploadFile` gives "" and `UploadImage` gives null, with no helper call. The upload count grows by one exactly for a non-empty path. Each call only appends, and never persists. |
| SessionProperties.UpdateSteps | Packages/com.bocud.vrcapitools/Editor/VRChatApiUploaderAsync.cs:326-360 | An update applies the info, then uploads an image only when `newImagePath != ""` (a null path sets a null URL without an upload), then makes one `Save`. |
| SessionProperties.UpdateWithoutInfo | Packages/com.bocud.vrcapitools/Editor/VRChatApiUploaderAsync.cs:326-360 | With a null info, the record is saved unchanged and is the only event. |
| SessionProperties.PlaceholderIsPng | Packages/com.bocud.vrcapitools/Editor/VRChatApiUploaderAsync.cs:412-415 | The placeholder file is a `.png`, and its path is never empty, so the placeholder is always uploaded. |
| SessionProperties.CreateSteps | Packages/com.bocud.vrcapitools/Editor/VRChatApiUploaderAsync.cs:398-447 | A create copies name, description, tags and (world) capacity. It uploads the requested image, and uploads a 1200x900 placeholder exactly when the URL is still whitespace. Then it makes one `Post`. Success means `Post` succeeded. |
| SessionProperties.PostWritesBlueprintId | Packages/com.bocud.vrcapitools/Editor/VRChatApiUploaderAsync.cs:432 | After a successful `Post` the info's `blueprintID` is the saved id. Otherwise the info is unchanged. |
| SessionProperties.DataPassShape | Packages/com.bocud.vrcapitools/Editor/VRChatApiUploaderAsync.cs:256-289 | A data pass is the package upload, then the bundle upload, then fail-fast, update or create, in that order. |
| SessionProperties.UpdateCounts | Packages/com.bocud.vrcapitools/Editor/VRChatApiUploaderAsync.cs:326-360 | The update branch makes exactly one persist call and emits no upload state. |
| SessionProperties.CreateCounts | Packages/com.bocud.vrcapitools/Editor/VRChatApiUploaderAsync.cs:398-447 | The create branch makes exactly one persist call and emits no upload state. |
| SessionProperties.DataPassFailsFast | Packages/com.bocud.vrcapitools/Editor/VRChatApiUploaderAsync.cs:273-277 | With a blank asset URL, the pass ends with "Failed" right after the uploads. There is no `Save` or `Post`, no upload state, and the info is unchanged. |
| SessionProperties.UpdatePassEnds | Packages/com.bocud.vrcapitools/Editor/VRChatApiUploaderAsync.cs:279-288 | On update, an asset URL leads to one `Save` and one upload state, `finished` exactly when `Save` succeeded. |
| SessionProperties.CreatePassEnds | Packages/com.bocud.vrcapitools/Editor/VRChatApiUploaderAsync.cs:279-288 | On create, an asset URL leads to one `Post` and one upload state, `finished` exactly when `Post` succeeded. The saved id is written into the info. |
| SessionProperties.DataPassOutcome | Packages/com.bocud.vrcapitools/Editor/VRChatApiUploaderAsync.cs:273-288 | The last event is `finished` exactly when the asset URL is not blank and the persist call succeeded. It is "Failed" exactly when the asset URL is blank. |
| SessionProperties.DataPassExtends | Packages/com.bocud.vrcapitools/Editor/VRChatApiUploaderAsync.cs:256-289 | A data pass starts with exactly its uploads and only appends. |
| SessionProperties.ExistingUrlOnlyOnUpdate | Packages/com.bocud.vrcapitools/Editor/VRChatApiUploaderAsync.cs:259-271 | The first events are one upload per given file. Each is passed the record's current package or bundle URL on update, and "" on create. |
| SessionProperties.DataPassFrame | Packages/com.bocud.vrcapitools/Editor/VRChatApiUploaderAsync.cs:256-289 | A data pass keeps the id, version and author. The persisted record keeps the uploaded bundle and package URLs. |
| SessionProperties.FetchResolution | Packages/com.bocud.vrcapitools/Editor/VRChatApiUploaderAsync.cs:134-157 | The result is an update exactly when the record was found. A stored record is used as is. A missing world is a capacity-16 record under the pipeline id; a missing avatar is an empty record. |
| SessionProperties.PrepareSteps | Packages/com.bocud.vrcapitools/Editor/VRChatApiUploaderAsync.cs:164-178 | The bundle is staged under the fetched id and the next version. The package is staged only when given and present. A blank id is replaced by the generated one afterwards, so the record always has an id. |
| SessionProperties.IdAssignedBeforeUploads | Packages/com.bocud.vrcapitools/Editor/VRChatApiUploaderAsync.cs:173-180 | Preparation uploads and persists nothing. When the id was empty, its last event is the id assignment. The record handed on has a non-empty id. |
| SessionProperties.FreshAvatarStagedWithoutId | Packages/com.bocud.vrcapitools/Editor/VRChatApiUploaderAsync.cs:235-249 | A new avatar's bundle is staged as version 1 under the empty id, while the record continues with the generated id. |
| SessionProperties.ImageReplacedSteps | Packages/com.bocud.vrcapitools/Editor/VRChatApiUploaderAsync.cs:46-69 | Replacing the image saves a `.png` and uploads it over the current image, then makes one `Save`. The upload state is `finished` exactly when `Save` succeeded. |
| SessionProperties.WorldEarlyExits | Packages/com.bocud.vrcapitools/Editor/VRChatApiUploaderAsync.cs:108-122 | A blank bundle path is rejected (iff) with no effect at all. A failed login only clears caches and tries to log in. A missing pipeline manager stops after the lookup. Every other call succeeds. |
| SessionProperties.AvatarEarlyExits | Packages/com.bocud.vrcapitools/Editor/VRChatApiUploaderAsync.cs:192-202 | A blank bundle path is rejected (iff) with no effect. A failed login only clears caches and tries to log in. Every other call succeeds. |
| SessionProperties.PreparedPassId | Packages/com.bocud.vrcapitools/Editor/VRChatApiUploaderAsync.cs:173-182 | After preparation and the data pass, the id is the fetched one, or the generated one when that was empty. It is never empty. |
| SessionProperties.PreparedPassOrder | Packages/com.bocud.vrcapitools/Editor/VRChatApiUploaderAsync.cs:164-180 | No file is uploaded between the start of the session and the point where the id is known. Where needed, that point is the id assignment. |
| SessionProperties.WorldSessionSucceeds | Packages/com.bocud.vrcapitools/Editor/VRChatApiUploaderAsync.cs:124-182 | A world upload past the early exits returns the fetched or generated id, which is never empty. The manager then names the current user, is marked completed exactly for a stored world with an author, and carries the generated id for a world without one. |
| SessionProperties.WorldIdBeforeUploads | Packages/com.bocud.vrcapitools/Editor/VRChatApiUploaderAsync.cs:113-180 | A world upload begins by clearing caches, logging in, looking up the manager and fetching by the manager's id. It uploads nothing before the id is assigned. |
| SessionProperties.AvatarSessionSucceeds | Packages/com.bocud.vrcapitools/Editor/VRChatApiUploaderAsync.cs:204-253 | An avatar upload past the early exits returns the fetched or generated id, which is never empty. |
| SessionProperties.AvatarIdBeforeUploads | Packages/com.bocud.vrcapitools/Editor/VRChatApiUploaderAsync.cs:197-251 | An avatar upload begins by clearing caches, logging in and fetching by the info's `blueprintID`. It uploads nothing before the id is assigned. |

## Left out

- Logging, status and error texts, `OnError`, upload progress, friendly file names, `Stopwatch`
  and `EditorUtility.SetDirty`: they do not change what is uploaded or persisted. The one status
  that matters, "Failed", is an event.
- The `Task.Delay` polling loops and `cancelQuery`: every remote call is one atomic step with a
  completed answer. Cancellation and transfer failure are the file helper's null or empty answer.
- `ApiFile.ParseFileIdFromFileAPIUrl`: the modelled file helper receives the existing URL itself,
  so the id parsing is part of the helper's answer.
- `ApplyBlueprintInfo` is defined outside this class and is not part of this model. It is modelled
  as the same field copy the create branch does: name, description, tags, and capacity for a world.
- Uploader.Uploader.CreateBlueprint, Uploader.Uploader.UploadAvatar, Uploader.Uploader.UploadData,
  Uploader.Uploader.PersistUploaded, Session.Create, Session.AfterPost, Session.DataPass,
  Session.Persist, Session.AvatarSession, SessionProperties.CreateSteps,
  SessionProperties.PostWritesBlueprintId, SessionProperties.DataPassShape,
  SessionProperties.DataPassOutcome, SessionProperties.CreatePassEnds,
  SessionProperties.AvatarEarlyExits, SessionProperties.PreparedPassId and
  SessionProperties.AvatarSessionSucceeds model the avatar create path as intended, not as
  written. The avatar `Post` success callback casts the saved model to
  `ApiWorld` (line 472). For an avatar that cast throws before `applied = true` (line 482), so as
  written `CreateAvatarBlueprint` never leaves its `while (!applied)` loop (lines 494-495). No
  upload state is then emitted and `UploadAvatar` never returns. The model instead completes
  the `Post`, writes the saved id into the info and emits the upload state.
- The world `Post` callback looks up the pipeline manager a second time (line 424). That lookup
  is not traced (no second `PipelineLookup` event) and is assumed to find a manager, the one the
  first lookup found. Its inverted null check (lines 425-429) would write the saved id only into
  a missing manager, which would throw. With a manager found, the model follows the code:
  `Post` never changes the manager. The case where the second lookup finds none is not modelled.
- Staging runs before id assignment (line 166 against lines 174-178). The model follows the code.
  So a new avatar's files are staged under the empty id (`FreshAvatarStagedWithoutId`). A new
  world is staged under the id its pipeline manager had (lines 150-156), which is empty only when
  the manager had none.
- Uploader.Uploader.UploadWorld, Uploader.Uploader.UploadAvatar,
  SessionProperties.WorldSessionSucceeds, SessionProperties.AvatarSessionSucceeds and
  SessionProperties.PreparedPassId assume that `Post` does not change the uploader's record.
  The returned id is the record's id from before the `Post` (`return apiWorld.id`, lines 182 and
  253). The id written into the info is the saved model's id (lines 422, 432 and 483), which is
  `Remote.postedId`. The two are independent parameters of the model and may differ.
- A `Fetch` success whose model is not of the expected class is not modelled: the fetch answer is
  always a record of the right kind. As written, for a world the `as` cast at line 138 gives null
  and line 140 dereferences it inside the callback, before `wait = false` (line 144), so the wait
  loop never ends and the null check at line 161 is never reached. For an avatar the cast at
  line 216 gives null and the null check at line 232 throws.
- Every `Fetch` error is treated as "not found", as the code does: the error callback always
  creates a new record.
- The `ApiModel` type tests of `UpdateBlueprintImage`, `ApplyBlueprintChanges` and `UploadImage`
  (lines 48, 73, 517) are not modelled: the model has only worlds and avatars.
- A null `tags` list in the info, which would throw in `ToList()`, is not modelled: tags are
  always a list.
- A null entry-point argument (`worldInfo`, `avatarInfo`) is not modelled: the entry points take
  a non-null info. As written, `UploadAvatar` dereferences a null info at line 209 and throws
  after the login. `UploadWorld` passes it on: the update branch skips the info (line 328, the
  case `UpdateWithoutInfo` covers), and the create branch throws at line 402.
- The values of `Application.temporaryCachePath`, `Application.unityVersion`, the platform and
  server strings and the asset versions are parameters of `Editor`. Windows path separators are
  accepted by `Extension` but otherwise paths are plain strings.
- `EncodeToPNG`, `File.WriteAllBytes`, `File.Copy` and `File.Delete` are events or left out: the
  model keeps only which file is written or copied to which path, not its bytes.
- Failures of `File.Copy` (lines 583 and 596) and `File.WriteAllBytes` (line 536) are not
  modelled. Examples are a bundle missing at a non-blank path, or an unwritable cache. There the
  source throws out of `UploadWorld` / `UploadAvatar` or `UpdateBlueprintImage`, while
  `Session.Stage`, `StageFiles`, `SaveImageTemp`, `FormatAssetBundle` and `FormatUnityPackage`
  always succeed.
- `DateTime.Now` is a parameter (`Editor.now`). Its formatting is modelled with zero-padded
  fields and assumes a year below 10000.
- Blueprint fields are kept together as one record value inside the `Blueprint` object. Updating
  a field replaces the record, so aliasing between fields is not modelled.
- The avatar unity package is staged under the world asset version, as the source passes
  `ApiWorld.VERSION` at line 241. This is modelled as written.
- `FetchWorld`, `FetchAvatar`, `StageFiles`, `AssignWorldId`, `AssignAvatarId` and
  `UploadFoundWorld` are blocks of `UploadWorld` and `UploadAvatar`, and `PersistUploaded` is the
  end of `UploadWorldData` / `UploadAvatarData`. Each is written as a method of its own.
- Analytics calls (`AnalyticsSDK`) in `ApplyBlueprintChanges`: outside calls with no effect here.
