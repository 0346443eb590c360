# arbokcore, modelled in Dafny

arbokcore stores files as versions. A client describes a version, uploads its
4 MiB chunks, and signals the end of the upload. A background worker then borrows
the chunks the client did not send from the predecessor version, and moves the
`current_flag` from the old version to the new one in one transaction. Downloads
list the chunks of a version in order and concatenate them through a cache.

The project models this as a state machine over the tables, the completion queue,
the blob directory, the download cache and the single reconcile worker, and proves
what holds in every run. Beside it stand the loops the machine is made of, the
worker pool and the event broker.

| file | what it holds |
|---|---|
| `Rows.dfy`, `Text.dfy`, `Pieces.dfy` | row types; decimal printing, paths and keys; cutting contents into pieces |
| `ChunkCount.dfy` | `CalculateChunks` under binary64 rounding |
| `Grouping.dfy`, `Reconstruct.dfy`, `Downloads.dfy` | the loops over rows, chunk maps and urls, each against a plain specification |
| `Machine.dfy` | states, steps and runs of the upload service |
| `Versions.dfy` | the invariants of every run: forest, integrity, provenance |
| `Origins.dfy` | which request every version, message and chunk row goes back to |
| `Currency.dfy` | the current flag over runs |
| `Owners.dfy` | whose file it is, if successors keep the owner and if not |
| `Convergence.dfy` | repeated and interrupted reconciling |
| `CacheRuns.dfy`, `RoundTrip.dfy` | stale caches; what is downloaded is what was uploaded |
| `Availability.dfy` | every version can be published, sending only what changed; what a failed batch does |
| `Witnesses.dfy` | runs that show what is not promised |
| `Backend.dfy` | the services as a class whose methods perform the machine's steps |
| `WorkerPool.dfy`, `Broker.dfy` | the two channel protocols |

## How the model reads the source

- A step is one service call or one SQL transaction. `ExecuteEach` is three steps
  (select, chunk batch, flags), so the states between them are reachable, and the
  worker may stop in any of them.
- The environment decides, as part of a step: generated ids (fresh and without a
  slash, as ULIDs are), the row order of a query (any permutation of the join,
  which includes the newest-file-first order the query asks for), whether a
  transaction commits, what the cache answers, and the clock. SHA-256 is a
  parameter. Queue messages are values (gob encoding is identity) in first-in,
  first-out order.
- An upload step is a chunk that passed the digest check; the runs in
  `Witnesses.dfy` and `Availability.dfy` carry the digest of every chunk they send.
- Whose client is honest is a parameter: nothing is assumed of the clients of all
  other versions. An honest version builds on honest ones, because it may borrow
  from them; with all versions honest, nothing is left out.
- `created_at` is the insertion position `rowid`; no statement changes it.
- The status of a first version is "uploading", as the handler sends it.
- Go's run-time panics in the ordered listing (a negative length, a chunk id out
  of range) are the result `Panic`, not a precondition.
- Loops over Go maps pick an arbitrary remaining key each time.

## What the proofs found

- The float ceiling is exact for sizes up to 2^53 - 2 and wrong at 2^53 - 1, where
  adding 1.0 rounds up. `CountIsCeilingIff` gives the exact condition for every
  64-bit size.
- A version without chunk rows never downloads, and a message with such a version
  on either side always ends in `file_merge_conflict`. So an empty file can neither be
  replaced nor replace another (`ConflictIffEmpty`, `CurrentSuccessorsHaveRows`).
- One current version per path needs clients that build on reconciled versions
  only (`UndisciplinedRun`); even then two successors of one version can both be
  current (`SiblingRun`). One per tree holds where no two versions share a
  predecessor (`OneCurrentPerTree`); `OneCurrentIff` gives the exact condition for
  both.
- A failed chunk batch still hands the flag over, with status "failed" on both
  versions. So the current version may not download (`FailedBatchRun`), and a
  failed one may. What decides is whether every piece has a row: then the bytes
  are right, and otherwise there is no download (`RightBytesOrNone`).
- "Completed" says less than it seems to. A hand-over sets the status of the
  predecessor too, so another user's successor can complete a version that is not
  stored in full. Its end of file is refused from then on, and it can never become
  current (`StrangerEndsUpload`, `NeverRises`).
- A chunk that is uploaded again with other bytes is served stale from the cache
  (`StaleRun`); `FreshIffNeverRewritten` is the exact condition.
- Uploading a chunk twice can leave rows that disagree. Then, and only then, the
  row order decides what is stored and shown (`OrderMattersIff`,
  `StoredEqualsRebuiltIff`, `DisagreeingRun`).
- No check compares the owner of a successor with that of its predecessor, so
  another user can take the flag and share blobs (`StrangerTakesFile`,
  `StrangerSharesBlob`); `Owners.dfy` says what holds if owners are kept.
- The comment above `ExecuteEach` says that a version without a predecessor is
  marked failed; the code marks it completed, and the model follows the code.
- Broker keys of two users can be equal exactly if one id, followed by an
  underscore, begins the other (`KeysCollideIff`). Generated user ids
  (core/users/user.go:29) are ULIDs, which hold no underscore, so they never are.

## Model

| member | source | states |
|---|---|---|
| ChunkCount.RoundIsNearest | core/files/model.go:73-82 | The rounding used for the float64 conversion and sum is binary64 round-to-nearest, ties to even (section 4.3.1 of IEEE 754-2019): the result is representable, no representable number is closer, a tie takes the even significand. |
| ChunkCount.CountIsCeilingIff | core/files/model.go:73-82 | For every int64 size the count is the integer ceiling of size / 2^22 exactly if the converted size neither falls on a chunk boundary below the size nor is the last float of its binade. |
| ChunkCount.SafeSizes | core/files/model.go:73-82 | Every size above -2^53 and up to 2^53 - 2 gets the integer ceiling. |
| ChunkCount.FirstMiss | core/files/model.go:73-82 | The bound is tight: 2^53 - 1 gets one chunk too many. |
| Text.DecimalInjective | core/supervisors/metadata.changelog.go:345-353 | Printed numbers are equal only for equal numbers, negative ones included. |
| Text.DecimalNonEmpty | core/supervisors/metadata.changelog.go:345-353 | A printed number is never the "" that a missing map entry reads as. |
| Text.DecimalIff | core/files/service.metadata.go:417 | A string is the print of a number exactly if it is its usual numeral: digits only, no leading zero but in "0", a leading minus for negative numbers, and the value read back. |
| Text.PathInjective | pkg/blobstore/localfs.go:87-93 | Different (file, chunk) pairs have different blob paths, for ids without a slash. |
| Text.PathLiesIn | pkg/blobstore/localfs.go:87-93 | The path of a chunk lies in the directory of its file under the storage directory, and its name there is the chunk id as a usual numeral. |
| Pieces.GlueCut | core/files/model.go:14 | Cutting a content into 4 MiB pieces and gluing them gives the content back. |
| Pieces.CutCount | core/files/model.go:14 | The number of pieces is the ceiling the count is checked against. |
| Pieces.CutIs | core/files/model.go:14 | Piece k is the k-th stretch of 4 MiB of the content; only the last piece is shorter. |
| Grouping.BuildFilesInfoResponse | core/files/service.metadata.go:395-433 | The loop with the index map returns new, distinct objects holding exactly the naive grouping, for every row list; every file of the rows is listed, and shows id, name, hash, size, type, flag, count and owner of its earliest row; the index map always agrees with linear search. |
| Grouping.AddRow | core/files/service.metadata.go:400-430 | One iteration advances objects, index map and counter as one more row advances the naive grouping. |
| Grouping.IdsAre | core/files/service.metadata.go:395-433 | The entries are the distinct file ids of the rows, all of them. |
| Grouping.IdsOfPrefix | core/files/service.metadata.go:419-425 | Ids come in order of first appearance. |
| Grouping.HeaderIsFirst | core/files/service.metadata.go:401-425 | A file's header is that of its earliest row. |
| Grouping.EarliestRow | core/files/service.metadata.go:401-425 | The header of a listed file has, field by field, what the earliest row of the file has. |
| Grouping.ChunkMapIsLast | core/files/service.metadata.go:417-429 | Per (file, chunk) the last row wins. |
| Grouping.ChunkMapHas | core/files/service.metadata.go:417-429 | The chunk map has exactly the keys of the file's rows, each with a row of that file and key. |
| Grouping.OrderDoesNotMatter | core/files/service.metadata.go:395-433 | With one header per file and one row value per (file, chunk), the same rows in any order, repeated or not, give every file the same entry. |
| Grouping.OrderMattersIff | core/files/service.metadata.go:395-433 | Every permutation of the rows gives every file the same entry exactly if rows of a file share their header and rows of a (file, chunk) are equal. |
| Reconstruct.RestOfChunks | core/supervisors/metadata.changelog.go:295-320 | Returns exactly the predecessor's entries whose keys the new version lacks. |
| Reconstruct.ReconstructChunks | core/supervisors/metadata.changelog.go:323-331 | In place: own entries stay, missing ones come from the predecessor, nothing else changes. |
| Reconstruct.Validate | core/supervisors/metadata.changelog.go:333-359 | True exactly if the counts agree, all links are set, and every chunk's successor is the one the predecessor has for that chunk, although the code compares printed numbers with "" for a missing one. |
| Reconstruct.ValidateReconstruction | core/supervisors/metadata.changelog.go:323-359 | Validating a reconstruction succeeds exactly if the counts agree, all links are set, and the uploaded chunks lie within the predecessor's with the same successors. |
| Reconstruct.ValidWalk | core/supervisors/metadata.changelog.go:323-359 | If the predecessor's links form one chain from 0 to -1 through all its chunks, a valid reconstruction has the same keys, and walking it visits every chunk once in that order and stops. |
| Downloads.ListOrderedFileChunks | core/files/service.metadata.go:54-91 | Owner filter, grouping, search and scatter together return the url of every position and the file's entry, or the error of the branch that fails, the failed query included. |
| Downloads.OwnedLast | core/files/service.metadata.go:62-66 | After the owner filter the entry of a chunk is the last of the owner's rows of that chunk. |
| Downloads.OwnedFirst | core/files/service.metadata.go:62-66 | After the owner filter the header of a file shows the first of the owner's rows of that file. |
| Downloads.ListingErrors | core/files/service.metadata.go:66-80 | "Corrupted" exactly if no selected row is the owner's; "not found" exactly if some are, but none of this file. |
| Downloads.ListingPanics | core/files/service.metadata.go:82-86 | Otherwise it panics exactly if the count in the owner's first row of the file is negative or some row of the owner has a chunk id outside of it, and else has that many positions. |
| Downloads.ListingUrls | core/files/service.metadata.go:82-86 | Each position shows the url of the owner's last row of that chunk, and "" where there is none. |
| Downloads.ScatterUrls | core/files/service.metadata.go:82-86 | The array has at each position the url of the chunk with that id, "" where there is none, whatever the map order; it panics exactly if the length is negative or an id is out of range. |
| Downloads.DownloadHandler.Download | core/files/download.service.go:22-64 | Result and new cache are those of the read-through specification, failed reads and failed cache writes included. |
| Downloads.CacheTransparent | core/files/download.service.go:26-61 | With a cache that agrees with the blobs, the cached loop returns what the uncached loop returns, and the cache still agrees. |
| Downloads.TransparentAt | core/files/download.service.go:26-61 | Where the cache agrees with the blobs at the paths of one download, that download is the uncached one, whatever else the cache holds. |
| Downloads.TransparentIff | core/files/download.service.go:26-61 | All downloads are transparent exactly if every cache entry equals its blob. |
| Downloads.CacheUse | core/files/download.service.go:26-61 | A cache that cannot be read is not seen, one that cannot be written stays as it was, and one that can holds every path of a download that succeeds. |
| Downloads.FetchGlues | web/routes/metadatahandler.go:124-142 | The uncached loop concatenates the blobs of its paths in order. |
| CacheRuns.FreshIffNeverRewritten | core/files/download.service.go:22-64 | Over a whole run of uploads, downloads, expiries and failed cache writes, every state has a right cache exactly if no step uploads other bytes to a cached path. |
| CacheRuns.CacheTransparentRuns | core/files/download.service.go:22-64 | In every run that rewrites no cached path, each download returns exactly what the uncached loop returns. |
| CacheRuns.ExpiryRefreshes | core/files/download.service.go:57 | An expired entry cannot be stale, and no other entry goes with it. |
| Machine.RunExtends | core/files/repository.go:252-297 | In every run versions, chunk rows and blobs are never removed, and a version changes only its flag, status and end date. |
| Machine.ExecutedContinues | core/supervisors/metadata.changelog.go:87-235 | Handling one message extends every legal run to a legal run, so everything proved about runs holds across it. |
| Machine.JoinCounts | core/files/queries.metadata.sql:139-143 | The selection has each joined row as often as its chunk row is stored. |
| Machine.HandedOverIs | core/files/repository.go:252-297 | For every table and every message, row by row: the predecessor is lowered and ended now, the row whose id and prev_id both match is raised, every other row stays. |
| Versions.RunKeepsInv | core/files/service.metadata.go:149-229 | All invariants of the tables, queue and worker hold in every reachable state. |
| Versions.VersionForest | core/files/service.metadata.go:158-192 | In every run prev_id and hash never change, prev_id names an earlier row with another hash, walking it ends at a first version that stays the same, no two first versions share a hash, and a current row has no end date. |
| Versions.ReferentialIntegrity | core/files/repository.go:391-427 | In every run each file row has its stream token, each chunk row (uploaded or borrowed) names an existing file of the same owner, and each queued message agrees with its row. |
| Versions.StoredCounts | core/files/service.metadata.go:156-192 | In every run a stored count is the ceiling of the stored size exactly under the float condition, hence always up to 2^53 - 2. |
| Versions.Provenance | core/supervisors/metadata.changelog.go:196-207 | In every run the row of version F for chunk k points at blob (G, k) with G being F or a predecessor of F. |
| Versions.UploadFrame | core/files/userfiles.service.go:186-204 | An upload to X leaves selection, listing, bytes, cached download and new cache of every version that does not descend from X as they were. |
| Versions.PlanMeaning | core/supervisors/metadata.changelog.go:132-169 | For every row order the this/prev choice is right: a plan exists exactly if both versions have rows, and with equal counts it borrows the predecessor's entries the new version lacks. |
| Versions.BatchMeaning | core/supervisors/metadata.changelog.go:196-207 | Every planned row is a stored row of the predecessor under the new id and owner, for a chunk the new version has no row for. |
| Versions.ColumnsDecide | core/files/queries.metadata.sql:119-144 | In every reachable state two selected rows are equal exactly if the columns that the query selects are, so comparing rows compares what the code sees. |
| Origins.VersionOrigin | core/files/service.metadata.go:181-192 | In every run each version was made by a request of the run, and has field by field what the request says (name and type: what its predecessor has). |
| Origins.NamedByFirst | core/files/service.metadata.go:290-302 | In every run name and type of a version are those of the request for the first version of its tree. |
| Origins.ListedAsAsked | core/files/service.metadata.go:401-410 | In every run a listed version shows size, hash, count and owner of its own request, name and type of the request for the first version of its tree, and its current flag. |
| Origins.MessageOrigin | core/files/service.metadata.go:120-125 | In every run each waiting message comes from an end of file for its version from its device. |
| Origins.RowOrigin | core/files/userfiles.service.go:196-206 | In every run each chunk row, uploaded or borrowed, has chunk id, digest, link and path of one upload, to its version or a predecessor. |
| Currency.NeverVanishes | core/files/repository.go:252-297 | In every run, with no discipline assumed: once a version of a tree is current, every later state has a current version in that tree. |
| Currency.OneCurrentPerPath | core/files/repository.go:252-297 | In every run where successors are created from reconciled versions only, at most one version on any prev_id path is current, duplicate messages included. |
| Currency.DisciplinedRunIsOrderly | core/files/service.metadata.go:100-137 | In those runs all waiting messages of a version precede all messages of its successors. |
| Currency.RedeliveryMovesNoFlag | core/supervisors/metadata.changelog.go:87-235 | In every disciplined run, whatever happened since, a hand-over to a version that is already current changes no current flag. |
| Currency.HandOverKeepsOnePath | core/files/repository.go:252-297 | A hand-over keeps one current version per path exactly if no third current version is on a path with the new one. |
| Currency.HandOverKeepsOneTree | core/files/repository.go:252-297 | A hand-over keeps one current version per tree exactly if no third current version is in the tree of the new one. |
| Currency.OneCurrentIff | core/files/repository.go:252-297 | In every run, with no discipline assumed, each state has at most one current version per path (per tree) exactly if no hand-over finds a third current version on a path with (in the tree of) the version it raises. |
| Currency.OneCurrentPerTree | core/files/service.metadata.go:260-302 | In every disciplined run in which no two versions share a predecessor, at most one version per tree is current. |
| Currency.DisciplineNeeded | core/files/service.metadata.go:260-302 | Wherever a fully uploaded successor of a first version exists while both still upload, some continuation makes both current. |
| Currency.SiblingsBothCurrent | core/files/repository.go:252-297 | Wherever two fully uploaded successors of one reconciled version exist, some continuation makes both current. |
| Witnesses.UndisciplinedRun | core/files/service.metadata.go:260-302 | For every digest and all ids there is a run in which two versions on one path are current. |
| Witnesses.SiblingRun | core/files/repository.go:252-297 | For every digest and all ids there is a run of disciplined clients after which a tree has two current versions. |
| Witnesses.FailedBatchRun | core/supervisors/metadata.changelog.go:209-227 | For every digest and all ids there is a run of honest clients after which a version is current, has status failed, and does not download. |
| Witnesses.StrangerTakesFile | core/files/service.metadata.go:260-302 | For every digest, all ids and all users there is a run of disciplined clients in which a current file of one user is no longer current for that user: another user's successor took the flag. |
| Witnesses.StrangerSharesBlob | core/supervisors/metadata.changelog.go:196-207 | For every digest, all ids and all users there is a run of honest clients in which rows of two users lead to one blob. |
| Witnesses.DisagreeingRun | core/supervisors/metadata.changelog.go:165-212 | For every digest and all ids there is a reachable state, with one chunk uploaded twice, in which the stored map differs from the one built in memory. |
| Witnesses.StrangerEndsUpload | core/files/repository.go:278-297 | For every digest, all ids and all users there is a run in which another user's successor completes a version before it is uploaded in full: its client is honest, it does not download, and it can never become current. |
| Witnesses.StaleRun | core/files/download.service.go:26-61 | For every digest and all ids there is a run (download, other bytes for the cached chunk) after which a download returns the old bytes and the uncached loop the new ones. |
| Owners.OwnersKeptIff | core/files/service.metadata.go:260-302 | A run accepts only successors by the predecessor's owner exactly if every prev_id link of its versions joins versions of one owner. |
| Owners.StaysWithOwner | core/files/repository.go:252-297 | In every such run a file that was current for its owner stays current for that owner. |
| Owners.OwnBlobs | core/supervisors/metadata.changelog.go:196-207 | In every such run a user's rows lead only to blobs of that user's versions, so no two users share a blob. |
| Owners.HandOverKeepsOwnerIff | core/files/repository.go:252-297 | A hand-over from p leaves a user with a current version in the tree exactly if the new version is that user's, or a version of the tree other than p is current for that user. |
| Owners.BatchKeepsApartIff | core/supervisors/metadata.changelog.go:194-212 | A chunk batch keeps the users' blobs apart exactly if it borrows nothing or both versions have one owner. |
| Owners.OwnerLosesFile | core/files/service.metadata.go:260-302 | Wherever another user's successor is uploaded in full, and no version of the tree but its predecessor is current for the owner, some continuation leaves the owner without a current version. |
| Owners.OwnerSharesBlob | core/supervisors/metadata.changelog.go:194-212 | Wherever another user's successor with an equal count lacks a chunk of its predecessor, some continuation gives that user a row for a blob of the owner. |
| Currency.CurrentSuccessorsHaveRows | core/supervisors/metadata.changelog.go:144-147 | In every run a successor is current only if it and its predecessor have chunk rows. |
| Currency.NeverRises | core/files/service.metadata.go:100-106 | In every run, with no discipline assumed: a version that is not current, not uploading and not waiting never becomes current, and its end of file is refused ever after. |
| Currency.HandOverEndsIff | core/files/repository.go:278-297 | A committed hand-over to a successor puts the predecessor into that state exactly if no message of the predecessor still waits. |
| Convergence.ReconcileTwice | core/supervisors/metadata.changelog.go:132-234 | A second delivery of a message adds no chunk row and changes no flag or status, with any row order and clock. |
| Convergence.ResumeAfterBatch | core/supervisors/metadata.changelog.go:209-234 | If the batch was stored and the worker stopped before the flags, a second run ends in exactly the state of one full run, without duplicate rows. |
| Convergence.FillerBeforeMutation | core/supervisors/metadata.changelog.go:165-172 | The filler is the predecessor's keys minus the uploaded ones; taken after the reconstruction it would be empty. |
| Convergence.StoredEqualsRebuilt | core/supervisors/metadata.changelog.go:165-212 | Selecting and grouping the new version after the batch gives the same chunk map (url, hash, next) that the in-memory reconstruction built. |
| Convergence.StoredEqualsRebuiltIff | core/supervisors/metadata.changelog.go:165-212 | That equality holds for all row orders exactly if the stored rows of each chunk of the new version agree in url, hash and next. |
| RoundTrip.HonestRunIsTruthful | core/supervisors/metadata.changelog.go:165-212 | In every run, whatever the clients of other versions do: if the client of a version describes and sends its content, builds on an honest version that is stored in full, and ends after all changed pieces, every row of the version leads to the piece it stands for. |
| RoundTrip.RightBytesOrNone | core/files/download.service.go:26-61 | In every run, whatever other clients do, and for every download of an honest version with any status, over chains of any length, with borrowed chunks, duplicate messages, failures, crashes and caching: the version's bytes if its owner asks, it is not empty and every piece has a row; otherwise nothing. Never wrong bytes. |
| RoundTrip.DownloadIsUpload | core/files/download.service.go:26-61 | Hence an honest version that is completed, and is current or has honest successors only, downloads by its owner to exactly its bytes; an empty one never downloads. |
| RoundTrip.ConflictIffEmpty | core/supervisors/metadata.changelog.go:144-147 | For an honest version a merge conflict occurs exactly if it or its predecessor is empty. |
| RoundTrip.ReconciledDownloads | core/supervisors/metadata.changelog.go:165-234 | In every run, whatever other clients do, committing the message of a non-empty honest version (with a non-empty predecessor, if any) makes it completed and current, its predecessor not current, and every download by its owner returns its bytes. |
| RoundTrip.EmptyIsNeverReplaced | core/supervisors/metadata.changelog.go:144-147 | An honest current successor and its predecessor are both non-empty. |
| Availability.CanPublishFirst | core/files/service.metadata.go:149-229 | From every reachable state with nothing waiting, whatever other clients did, every non-empty content up to 2^53 - 2 bytes with a new hash has a legal continuation, sending its pieces with their digests, that makes it a current, completed first version that downloads as itself, with nothing waiting again. |
| Availability.CanPublishNext | core/supervisors/metadata.changelog.go:165-234 | Likewise every such content can replace every honest, fully stored, non-empty version with another hash, whatever its status, uploading only pieces that differ from the predecessor's (all of them if the counts differ). |
| Availability.CurrentWithoutBytes | core/supervisors/metadata.changelog.go:209-227 | From every such state, an honest successor that leaves a piece to the server has a continuation in which its batch fails: it becomes current with status failed, its predecessor is not current, and it does not download. |
| Machine.SomeBatch | core/supervisors/metadata.changelog.go:194-207 | Every filler has a batch, so planning is never stuck. |
| Backend.Service.constructor | core/files/service.metadata.go:26-38 | A new service is the initial state of the machine. |
| Backend.Service.FindByHash | core/files/repository.go:173-202 | True exactly if some row has the hash. |
| Backend.Service.CreateMetadataToken | core/files/repository.go:371-427 | Row and stream token are added together, or neither if the transaction fails. |
| Backend.Service.PrepareFileForUpload | core/files/service.metadata.go:149-229 | Performs the machine's step. The answer names the first of these that fails, or the token: hash unknown, id, count, token, transaction. On success the new row has the request's name, type, size, digest, count and owner; a failure changes nothing. |
| Backend.Service.UpdateFileMetadata | core/files/service.metadata.go:246-337 | Performs the machine's step. The answer names the first of these that fails, or the token: count, predecessor, id, its hash, token, transaction. On success the new row has the request's size, digest, count and owner, and the predecessor's name, type and id; a failure changes nothing. |
| Backend.Service.CreateChunk | core/files/userfiles.service.go:167-219 | Digest, ids, blob, row: the answer names the first that fails; only a failed insert leaves the blob behind, every other failure changes nothing. On success the blob lies in the file's directory under the chunk id and holds the data, and the new row has the token's owner and file, the chunk id, that path, the digest and the link. |
| Backend.Service.MarkUploadComplete | core/files/service.metadata.go:93-147 | Queues one message, behind all others, exactly if the version is still uploading and the queue takes it; the message has the version, its owner and predecessor, and the caller's device. The error says which failed. |
| Backend.Service.SelectFiles | core/files/repository.go:204-232 | Returns the rows of the join for these ids, each as often as it occurs, newest file first. |
| Backend.Service.CreateBatch | core/files/userfiles.service.go:65-89 | All rows or none, whichever statement fails. |
| Backend.Service.Update | core/files/repository.go:234-297 | Both flag updates or none, for every id and prev_id; the first only where prev_id matches; every other row stays. |
| Backend.Service.PlanFiller | core/supervisors/metadata.changelog.go:132-172 | Selects, groups, chooses this and prev, and takes the filler before the in-place reconstruction; the plan is that of the specification. |
| Backend.Service.FillerRows | core/supervisors/metadata.changelog.go:194-207 | One row per borrowed chunk, under the new id and owner, without repetition. |
| Backend.Service.ExecuteEach | core/supervisors/metadata.changelog.go:87-235 | Performs the machine's steps for the taken message; the error is a merge conflict, a failed flag update, or none, exactly where the source returns it. |
| WorkerPool.TokenConservation | pkg/workerpool/workerpool.go:63-74 | In every interleaving, stops included, each bench is out at most once (pool queue, dispatcher's hand, full bench), so neither channel send of the protocol ever waits. |
| WorkerPool.JobConservation | pkg/workerpool/workerpool.go:132-172 | In every interleaving a received job is in exactly one place (hand, bench, worker, done), an unreceived one nowhere. |
| WorkerPool.ResultConservation | pkg/workerpool/workerpool.go:148-158 | In every interleaving with result capture each processed job has exactly one result (being sent, in the channel, read, or dropped), and no other job has one; without capture there are none. |
| WorkerPool.OnlyAbortsLose | pkg/workerpool/workerpool.go:153-158 | Only a cancelled send drops a result. |
| WorkerPool.LongestWaiting | pkg/workerpool/workerpool.go:63-74 | The dispatcher always draws the bench that has waited longest. |
| WorkerPool.InternalRunsEnd | pkg/workerpool/workerpool.go:132-172 | Left alone the pool comes to rest within a bound that its state determines. |
| WorkerPool.RestMeansDone | pkg/workerpool/workerpool.go:63-74 | At rest with at least one worker and none stuck, every received job was processed exactly once: no deadlock. |
| WorkerPool.NothingSent | pkg/workerpool/workerpool.go:148-158 | Without result capture only a stopped worker can be stuck. |
| WorkerPool.OneWorkerIsFifo | core/supervisors/metadata.changelog.go:377-383 | With one worker the processed jobs are a prefix of the received ones, in order. |
| Broker.BrokerSafety | pkg/brokers/sse_broker.go:95-161 | In every run no send on a closed channel and no second close; each channel received, in order, a subsequence of the messages handled between its subscribe and unsubscribe whose key is its name. |
| Broker.LogIsTrue | pkg/brokers/sse_broker.go:121-156 | In every run a channel has received exactly the messages that were handed to it, in order, and is closed exactly if it was unsubscribed. |
| Broker.DeliveredInTime | pkg/brokers/sse_broker.go:140-156 | In every run a message taken in time, while some channel is subscribed under its key, goes to the end of such a channel and to no other. |
| Broker.FirstInFirstOut | pkg/brokers/sse_broker.go:53-82 | In every run messages are handled, and subscriptions take effect, in the order in which they were sent and asked for; none is lost or repeated. |
| Broker.KeysIdentify | pkg/brokers/sse_broker.go:23-25 | With underscore-free user ids equal keys mean the same user and device. |
| Broker.KeysCollideIff | web/routes/ssehandler.go:68-69 | Keys of two users can be equal exactly if one user id, followed by an underscore, begins the other; two devices of one user never share a key. |
| Broker.FindTopicByName | pkg/brokers/sse_broker.go:85-93 | Returns a channel subscribed under the name, or none exactly if there is none. |
| Broker.SSEBroker.HandleSubscriber | pkg/brokers/sse_broker.go:106-119 | Performs the loop's subscribe case: the channel is subscribed under its name unless it is already; the safety invariant is kept. |
| Broker.SSEBroker.HandleUnsubscribe | pkg/brokers/sse_broker.go:121-138 | Performs the loop's unsubscribe case: a subscribed channel is removed and closed, never a second time; any other request changes nothing. |
| Broker.SSEBroker.HandleMessage | pkg/brokers/sse_broker.go:140-156 | Performs the loop's message case: the found channel gets the message at its end if it is in time, and no other channel gets anything; the send is never on a closed channel. |

## Left out

- The gap inside `MarkUploadComplete` between the status read and the enqueue, and
  inside `PrepareFileForUpload` between the hash check and the insert: both calls
  are atomic here, and the one-current-per-path and hash results rely on it.
- Errors of the database driver on reads (`FindByHash` treats one as "not found")
  and read errors and empty reads in `Produce`.
- Backend.Service.CreateChunk: does not model the failed copy inside `UpdateChunk`,
  which leaves a partial blob and returns an empty path without an error, because
  disk faults during a write are outside the model.
- Token expiry: an upload may use any stream token that was ever created.
- The buffer capacity in `Download`, which panics in Go for a negative file size.
- Channel capacities of the broker, its ten-second wait as time, and whether an
  unsubscribe ever gets its Done signal.
- `Execute`'s loop over payloads and the notification it sends afterwards.
- Worker pool: the endless goroutine loops are the steps between their channel
  operations; `Merge` and the contents of results are not modelled.
- Redis, SQLite, gob, ULID, SHA-256 and the clock are sequences, maps, identity,
  fresh values, a parameter and labels.
- Pagination in `ListByUserID`, `ListFilesForUser`, HTTP handlers, middleware,
  configuration, logging and query loading: plumbing around the modelled calls.
- `ManualChunkMetadataReconciler`, `BatchCreateChunk`, `FetchChunks`, `BuildFile`,
  `ReadFileInChunks`, `UpdateMetadataToken` and Redis streams: unused or one-off.
- Convergence.ReconcileTwice: the end date of the predecessor is written again and
  may move.
