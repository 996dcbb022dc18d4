# A verified model of the DP-1 feed

The feed stores signed documents: playlists, playlist groups and channels. Anyone may create a document or
reference somebody else's playlist; only the owners of a document may replace or delete it. This project
models the parts of the service where that promise is hard to keep, and proves it kept:

* the document store as a machine of interleaved transactions, with the authorization of every request on
  top (`Authorization`, `Ownership`, `OwnershipLaws`, `RequestLaws`, `SplitSigners`, `CoSigning`, `Batches`,
  `StoreModel` and the other `Store…` modules);
* what clients read back: paged lists, the resolution of references, and the entity tag of a channel
  (`Keyset`, `Listing`, `ListingWalks`, `ListingLaws`, `NilIds`, `Resolution`, `ParallelResolution`, `ChannelTag`);
* the bounded log sender (`LogBatches`, `LogSender`, `StreamSenders`).

`dafny verify dfyconfig.toml` checks everything.

## How the store is modelled

A request is a list of statements (`StoreModel.Program`), in the order the service issues them. A transaction
runs its statements one at a time against the committed tables and its own pending writes; a commit applies
the pending writes, a rollback drops them, and any number of transactions interleave in any order
(`StoreModel.Step`, `StoreModel.Run`). A statement that would fail or wait is not enabled: the transaction
waits or rolls back. The executor's read is a `Load` that takes the row as it is committed at that moment;
the later conditional write names the generation that was read and nothing else protects it.

The proof has four layers. `StoreDiscipline` says in which order a transaction may issue its statements and
proves that each request keeps to it. `StoreInvariant` states what holds of the tables and of each open
transaction; `StoreStatements` and `StoreCommits` prove that statements keep it and that a commit keeps it for
every other open transaction; `StoreHistory` adds the remaining steps and what a commit does to one key.
`StoreEffects` traces each committed write back to its request. `StoreRuns`, `StoreGuarantees`, `StoreSlugs` and
`StoreLocks` then state what whole runs guarantee.

The guards, the filters and the decision tables the proofs are built from are themselves pinned: `RequestLaws`,
`ListingLaws` and the laws beside each definition say what they come to in terms of document members, rows and
literal numbers alone.

None of it is bought by refusing requests. `StoreClear` says what may stand against each kind of request in the
tables, `StoreProgress` that a request against which nothing stands commits, for playlist and container creates and
replaces and for deletes with and without their recipients, and that in company a statement waits only for another
transaction that is really in its way, and `StoreSerial` that a request that commits, amid
whatever interleaving, had nothing stand against it then. `StoreSerial` concludes that every run is serializable.

## Assumptions

They are parameters or predicates of the model, or rules of its step relation:

* Each statement sees the committed state and its own transaction's writes. A conditional update or delete
  that had to wait checks its condition again afterwards.
* Every update stores a strictly greater `updated_at`: the transaction's start time, or one past the old value
  (`StoreModel.NextGeneration`).
* Deleting a playlist removes its index, membership and source rows, and deleting a container its membership
  rows. The model takes the cascade when the delete statement runs, so that the locks, not the database, have
  to keep rows from appearing before the commit.
* Advisory lock keys do not collide. Row writes exclude each other until commit or rollback.
* A signature verifies as a function of key, signed content and signature bytes (`Documents.World`); the
  content of a document leaves out its signature members, as section 7.1 of DP-1 requires, over the canonical
  form of RFC 8785. The feed's own signatures verify (`FeedSigns`). Digests and hashes do not collide
  (`DigestInjective`, `Collisionless`).
* Schema validation, fetches, the lookup of a playlist by id or slug in a local URL and the outcome of each
  HTTP request are functions the model is given.
* A URI, a record and a body are counted in characters, one to a byte.

## What the proofs turned up

* A document with the nil UUID as its id is accepted by create. The cursor decoder refuses a cursor that names
  it, so a list page that ends in such a document cannot be followed (`DirectoryCursorRefused` gives the exact
  condition, `NilIdStopsTheDirectory` runs of two creates that end there, `NilIdExample` one such run), and neither
  can the member list of a group or channel with that id (`MemberCursorHonoured`).
* An owner must sign a replacement and an owner must sign the intent for it, but nothing asks for the same owner. Of
  two declared owners one can sign the body and the other the intent (`SplitSignersExample`). One key is sure to have
  signed both exactly when the stored document has one owner (`CommonSignerExactlyForOneOwner`), as groups, channels
  and undeclared playlists always have.
* The lock comment speaks of a transaction's own new container id; a delete of a group or channel takes a
  container lock too. It is still the first and only one (`RequestLocksInOrder`).
* The regime-transition guard can never decide anything for a stored document (`RegimeGuardNeverDecides`). It
  would for a document with two undeclared owners, which the single-signer rule keeps out
  (`RegimeGuardNeededForTwoOwners`).

## Model

| member | source | states |
|---|---|---|
| CoSigning.MergeSignatures | internal/dp1svc/dp1svc.go:113-129 | merging drops every entry of the feed's own key and role, keeps the others in order and ends with the new one |
| CoSigning.CoSignMeans | internal/dp1svc/dp1svc.go:166-192 | the stored form has the submitted payload, the submitted entries without the feed key's own in the feed role, and at the end the feed's signature of the payload with its key, role and time |
| CoSigning.CoSignKeepsOrder | internal/dp1svc/dp1svc.go:113-129 | of two entries that stay, the earlier stays before the later |
| CoSigning.CoSignKeepsOthers | internal/dp1svc/dp1svc.go:166-192 | co-signing changes only the signatures, keeps all entries but the feed's in order and leaves exactly one entry with the feed's key and role |
| CoSigning.CoSignVerifies | internal/dp1svc/dp1svc.go:166-192 | every signature but a replaced feed one is still there and verifies exactly when it did before, whatever the others do, and the new one verifies |
| CoSigning.CoSignTwice | internal/dp1svc/dp1svc.go:113-129 | signing twice is signing once with the later timestamp |
| Ownership.EntityKeySet | internal/executor/ownership.go:106-115 | the loop yields the trimmed non-blank keys, no more and no fewer |
| Ownership.OwnerSet | internal/executor/ownership.go:135-155 | the owners are the declared keys, or with none declared the keys that signed in the owner role |
| Ownership.ClientSignerKeySet | internal/executor/ownership.go:157-169 | the keys of all signatures not in the feed role |
| Ownership.RequireUnambiguousOwner | internal/executor/ownership.go:238-252 | with no declaration exactly one distinct key may sign in the owner role |
| Ownership.RequireOwnerSignature | internal/executor/ownership.go:263-285 | passes exactly when some owner key signed in the owner role; otherwise says whether an owner signed in another role |
| Ownership.RequireOwnersRetained | internal/executor/ownership.go:302-314 | passes exactly when no stored owner is dropped |
| Ownership.RequireRegimeTransitionConsent | internal/executor/ownership.go:329-345 | a first declaration needs every present owner's signature in the owner role |
| Ownership.RequireNewOwnerConsent | internal/executor/ownership.go:350-365 | every added owner must sign in the owner role |
| Ownership.SignedByOwnerIsMembership | internal/executor/ownership.go:263-285 | an owner signed exactly when the owner set meets the set of role signers |
| Authorization.AuthorizeCreate | internal/executor/executor.go:299-341 | the chain of create guards passes exactly for identified, unambiguously and verifiably self-signed, schema-valid documents |
| Authorization.AuthorizeIngest | internal/executor/ingest_resolve.go:186-221 | a remote document passes exactly when it clears the create bar as served |
| Authorization.AuthorizeOwnership | internal/executor/executor.go:405-438 | the ownership guards of a replace pass exactly when owners only grow, additions consent and a stored owner signed |
| Authorization.AuthorizeReplace | internal/executor/executor.go:386-467 | the whole chain of a replace, against identity, ownership, intent and schema together |
| Authorization.AuthorizeDelete | internal/executor/executor.go:506-530 | a delete passes exactly on a fresh delete intent of a stored owner, bound to this resource and to no document |
| Authorization.VerifyIntent | internal/executor/signed_auth.go:163-205 | an intent passes exactly when action, target, digest, freshness, signatures and owner role all hold |
| Authorization.VerifyOwnerSignatures | internal/executor/executor.go:1049-1063 | exactly the create bar on owner signatures |
| RequestLaws.IntentMeans | internal/executor/signed_auth.go:163-268 | an intent is accepted exactly when action, type, id, slug and digest match, its time is at most the window away on either side (five minutes unless configured), all its signatures verify and an owner signed in the owner role |
| RequestLaws.StaleMeans | internal/executor/signed_auth.go:163-268 | it is refused as stale exactly when what is checked before is right and its time is missing or outside the window |
| RequestLaws.AcceptedDeleteIsRecent | internal/executor/signed_auth.go:254-268 | the intent of every accepted delete was created within the window around now |
| RequestLaws.AcceptedReplaceIsRecent | internal/executor/signed_auth.go:254-268 | and so was that of every accepted replace |
| RequestLaws.ReplayIsBounded | internal/executor/signed_auth.go:254-268 | two requests accepted on one intent body are at most two windows apart |
| RequestLaws.DeleteWithinIsNotStale | internal/executor/signed_auth.go:254-268 | a delete intent created within the window is never refused as stale |
| RequestLaws.ReplaceWithinIsNotStale | internal/executor/signed_auth.go:254-268 | nor is a replace intent |
| RequestLaws.CreateMeans | internal/executor/executor.go:299-341 | a create is accepted exactly when id, created, slug and item ids are there, the named curator signs, one key at most speaks for an undeclared owner, an owner signed as such, all signatures verify and the document signed with its own created time is valid |
| RequestLaws.CreateRefusals | internal/executor/executor.go:299-314 | a refused create is told the first thing wrong with it |
| RequestLaws.IngestMeans | internal/executor/ingest_resolve.go:186-221 | the same of a remote document as served |
| RequestLaws.ReplaceMeans | internal/executor/executor.go:386-467 | a replace is accepted exactly when it names the stored id, slug and created instant, keeps every owner, has the consent of every new one and the signature of an old one, keeps a declaration, and carries an accepted intent of this payload |
| RequestLaws.ReplaceRefusals | internal/executor/executor.go:386-405 | a refused replace is told the first thing wrong with its identity |
| RequestLaws.PlaylistOwnersAre | internal/executor/ownership.go:135-155 | a playlist belongs to the curators declared by key, else to the curator-role signers |
| RequestLaws.ChannelOwnersAre | internal/executor/ownership.go:117-155 | a channel belongs to the publisher declared by key, else to the publisher-role signers |
| RequestLaws.GroupOwnersAre | internal/executor/ownership.go:177-231 | a group belongs to the client signer its curator member names, else to its one curator-role signer; with several its owner cannot be told |
| OwnershipLaws.CoSignKeepsOwners | internal/executor/ownership.go:135-231 | the owner set survives the feed's own signature for all three kinds of document |
| OwnershipLaws.GroupOwnerIsCurator | internal/executor/ownership.go:177-231 | for a group admitted under the current rules the owner read back is its curator-role signer, whatever its display name |
| OwnershipLaws.CreateEstablishes | internal/executor/executor.go:299-341 | an accepted create stores a well-owned document |
| OwnershipLaws.IngestEstablishes | internal/executor/ingest_resolve.go:186-221 | so does a stored remote document |
| OwnershipLaws.ReplaceKeepsOwnership | internal/executor/executor.go:386-467 | an accepted replace keeps the document well owned; owners grow, additions signed, an earlier owner signed the body, an earlier owner signed the intent, and a sole one signed both |
| SplitSigners.CommonSignerExactlyForOneOwner | internal/executor/executor.go:405-443 | every accepted replace of a document has an owner who signed body and intent if and only if the document has one owner, given owners who can sign and a schema that does not look at who signed |
| SplitSigners.SplitSignersExample | internal/executor/executor.go:405-443 | two declared owners, body signed by one and intent by the other: accepted without a common signer |
| OwnershipLaws.RegimeGuardIsRedundant | internal/executor/ownership.go:316-345 | for a well-owned document the regime guard refuses nothing the owner-signature guard lets through |
| OwnershipLaws.IntentBindsOneDocument | internal/executor/signed_auth.go:210-230 | one replace intent authorizes one payload on one resource |
| OwnershipLaws.DeleteIntentIsNotReplaceIntent | internal/executor/signed_auth.go:163-249 | no intent body authorizes both a delete and a replace |
| Batches.LockDocumentIds | internal/store/pg/store.go:82-97 | the sort-and-skip loop takes the locks of `LockOrder` |
| Batches.LockOrderCorrect | internal/store/pg/store.go:82-97 | exactly the given ids, once each, strictly ascending |
| Batches.CollectDistinctChannels | internal/store/pg/store.go:985-1005 | the distinct channels of a listing, sorted |
| Batches.UniquePlaylistParams | internal/store/pg/store.go:1349-1367 | keeps the first occurrence of each id, in order |
| Batches.FirstOccurrencesCorrect | internal/store/pg/store.go:1349-1367 | first occurrences have distinct ids, cover every id and are first |
| Batches.RecordPlaylistSources | internal/store/pg/store.go:360-396 | upserts one row for each remote URI, from its first reference |
| Batches.SourceRowsCorrect | internal/store/pg/store.go:360-396 | every remote URI of a batch is recorded, with the playlist of its first reference, and nothing else is |
| Batches.SourceRowsCoverAllPositions | internal/store/pg/store.go:360-396 | when one URI means one playlist, its row names the playlist of every position |
| StoreModel.Commit | internal/store/pg/store.go:1583-1644 | the committed tables are, row by row, what the transaction saw |
| StoreDiscipline.ProgramDisciplined | internal/store/pg/store.go:1204-1321 | every admitted request checks under its locks, writes only what it read or checked, clears before it fills and leaves nothing half done |
| StoreDiscipline.ProgramAuthorized | internal/executor/executor.go:386-467 | every statement of an admitted request writes only what its guards authorized |
| StoreDiscipline.FirstBodyWins | internal/store/pg/store.go:1336-1367 | deduplicating first does not change which body a new id takes |
| StoreStatements.TxKept | internal/store/pg/store.go:1371-1425 | a statement keeps its transaction's invariant |
| StoreStatements.JustifiedKept | internal/executor/executor.go:386-467 | a statement keeps every pending write authorized for exactly the row it replaces |
| StoreCommits.CommitKeepsTables | internal/store/pg/store.go:1583-1644 | a commit keeps the committed tables sound |
| StoreCommits.CommitKeepsSeen | internal/store/pg/store.go:1184-1192 | after a foreign commit a row read earlier is the same, of a later generation, or buried |
| StoreCommits.CommitKeepsCut | internal/store/pg/store.go:1204-1226 | no foreign commit adds a dependent row to a playlist that is being deleted |
| StoreCommits.CommitKeepsEnsured | internal/store/pg/store.go:1371-1411 | no foreign commit deletes a playlist that is being linked |
| StoreCommits.CommitKeepsRead | internal/store/pg/store.go:1204-1226 | a snapshot taken for a delete stays complete until its commit |
| StoreCommits.CommitKeepsStore | internal/store/pg/store.go:56-80 | a commit keeps the invariant of every other open transaction |
| StoreHistory.CommitEvolves | internal/store/pg/store.go:1151-1321 | a commit changes a key only by an accepted replace of that row, an accepted delete that buries it, or an admissible first insert |
| StoreRuns.StepKeepsStore | internal/store/pg/store.go:56-80 | every step of the machine keeps the invariant |
| StoreRuns.StepKeepsJustified | internal/executor/executor.go:386-467 | and keeps everything stored or pending authorized |
| StoreRuns.NoIdReturns | internal/store/pg/store.go:48-163 | a buried id is never live again, in any later state of any run |
| StoreRuns.GoneIsGone | internal/store/pg/store.go:1304-1321 | a row that was live and is gone is buried |
| StoreRuns.OwnershipOnlyGrows | internal/executor/ownership.go:287-365 | over any stretch of a document's life owners only grow, declarations stay, group and channel owners, slug and creation time are constant, and equal generations mean the same row |
| StoreRuns.EveryReplaceIsOwned | internal/executor/executor.go:386-467 | every change of a live body was accepted against exactly the body it replaced: an owner of it signed the new body, an owner its intent, a sole owner both, and every owner added signed too |
| StoreRuns.EveryDeleteIsOwned | internal/executor/executor.go:506-530 | every removal was authorized by an owner of exactly the removed body, and buries it |
| StoreRuns.EveryStoredDocumentIsOwned | internal/executor/ownership.go:238-252 | every stored document has an owner who signed it; a group, a channel and an undeclared playlist exactly one |
| StoreEffects.CreateInstalls | internal/store/pg/store.go:230-268 | a create commits exactly its co-signed body, slug and start time under a key never used before |
| StoreEffects.ReplaceInstalls | internal/store/pg/store.go:1151-1192 | a replace commits only against the very row it was authorized on: its co-signed body, the old creation time, and as generation its start time or, where the old row is not earlier, one past the old |
| StoreEffects.DeleteRemoves | internal/store/pg/store.go:1304-1321 | a delete removes only the very row it was authorized on, and buries it |
| StoreEffects.ContainerWriteLeavesPlaylists | internal/store/pg/store.go:1327-1425 | no group or channel write touches a live playlist's row or index |
| StoreEffects.FirstReferenceWins | internal/store/pg/store.go:1336-1411 | a newly ingested id takes body and slug of its first reference and the time of the write |
| StoreEffects.ContainerWriteLinks | internal/store/pg/store.go:1427-1445 | after the commit the membership is the reference list, position by position, all live |
| StoreEffects.ContainerWriteRecordsSources | internal/store/pg/store.go:349-396 | and every remote URI is recorded with the playlist linked at each of its positions |
| StoreEffects.DeleteNotifiesAllChannels | internal/store/pg/store.go:1204-1273 | collected recipients are sorted, distinct and include the channel of every channel slot the cascade removes |
| StoreEffects.DeleteLeavesNothing | internal/store/pg/store.go:1304-1321 | after a playlist delete no membership, index or source row names the playlist |
| StoreEffects.NoReadInFlightAtCommit | internal/store/pg/store.go:1241-1262 | a delete that commits has collected its read or never will |
| StoreGuarantees.ReachedCommit | internal/store/pg/store.go:56-80 | every commit of a run is one of these requests, run to its end |
| StoreGuarantees.MembershipIsExact | internal/store/pg/store.go:1427-1445 | in every reachable state the membership is exactly the live entries of the last reference list at their positions |
| StoreGuarantees.IndexIsExact | internal/store/pg/store.go:1183-1192 | in every reachable state the item index is exactly the live bodies' items at their positions |
| StoreGuarantees.SourcesAreLive | internal/store/pg/store.go:349-396 | a recorded source names a live playlist |
| StoreGuarantees.SourcesEvolve | internal/store/pg/store.go:349-396 | a source stays recorded while its playlist lives, and changes only by a container write with a reference of that URI, to what it resolved to |
| StoreGuarantees.OnlyTheLiveAreBuried | internal/store/pg/store.go:1304-1321 | a key is buried only in the step in which its live row goes |
| StoreGuarantees.RecipientsListedIt | internal/store/pg/store.go:1204-1273 | every channel a delete notifies had the playlist among its members at some time of the run |
| StoreGuarantees.SameGenerationSameLinks | internal/store/pg/store.go:1583-1644 | a container's reference list changes only with its generation |
| StoreGuarantees.MembershipOnlyThins | internal/store/pg/store.go:1815-1835 | between two writes of a container positions only empty out and are never refilled or renumbered |
| StoreGuarantees.AbandonedIsNeverCollected | internal/store/pg/store.go:1246-1272 | an abandoned recipient read stays abandoned |
| StoreGuarantees.RegimeGuardNeverDecides | internal/executor/ownership.go:316-345 | in every reachable state the replaces accepted with and without the regime guard are the same |
| StoreGuarantees.GroupOwnerForLife | internal/executor/executor.go:655-729 | a group keeps for life the one owner its create established |
| StoreLocks.RequestLocksInOrder | internal/store/pg/store.go:66-97 | at most one container lock, first, then playlist locks strictly ascending |
| StoreLocks.NoWaitCycle | internal/store/pg/store.go:66-97 | no reachable state has a cycle of transactions waiting for each other's document locks |
| StoreLocks.SomebodyIsFree | internal/store/pg/store.go:66-97 | some open transaction always waits for no document lock |
| StoreSlugs.SlugNamesOneDocument | db/migrations/000001_init_schema.up.sql:15-54 | in every reachable state a slug belongs to one document of its kind |
| StoreSlugs.ItemIdsAreDistinct | db/migrations/000001_init_schema.up.sql:92-99 | in every reachable state no playlist is indexed with two items of one id |
| StoreClear.ClearIsUnobstructed | internal/store/pg/store.go:1151-1425 | all statements of a request succeed in turn if and only if nothing stored stands against it |
| StoreProgress.RequestGoesThrough | internal/store/pg/store.go:1151-1425 | an admitted request of any kind that nothing stands against commits, and a delete that asks for its recipients has them |
| StoreProgress.WaitsOnlyForOthers | internal/store/pg/store.go:56-97 | in any state a statement that would succeed alone can run exactly when no other transaction holds its lock, has written its row or has taken its slug |
| StoreProgress.CreateGoesThrough | internal/store/pg/store.go:230-268 | a create of a playlist commits when its id was never used, its slug is free and its item ids are distinct; exactly its row is added |
| StoreProgress.ReplaceGoesThrough | internal/store/pg/store.go:1151-1192 | a replace of a playlist commits when the row is still the one it was authorized against and its item ids are distinct; exactly that row changes |
| StoreProgress.DeleteGoesThrough | internal/store/pg/store.go:1204-1321 | a delete of any kind commits when the row is still the one it was authorized against, buries it, and if it asked for its recipients has exactly the channels that listed the playlist |
| StoreProgress.ContainerCreateGoesThrough | internal/store/pg/store.go:1450-1492 | a create of a group or channel commits when its id is new, its slug free, held references stored, none buried and new ones fit; its membership rows are its references, position by position |
| StoreProgress.ContainerReplaceGoesThrough | internal/store/pg/store.go:1583-1644 | a replace of a group or channel commits when its row is current and its references stand; its membership rows are the new references, position by position |
| StoreSerial.SameEffect | internal/store/pg/store.go:1204-1425 | what a request commits is determined by the tables it commits on, whatever happened between its statements |
| StoreSerial.CommittingIsUnobstructed | internal/store/pg/store.go:1204-1425 | a request that commits, in any interleaving, had nothing stored stand against it |
| StoreSerial.CommitIsSerial | internal/store/pg/store.go:56-80 | every commit of every run leaves what its request alone, started on those tables, would leave |
| StoreSerial.CommitOrderIsSerial | internal/store/pg/store.go:56-80 | the tables of every reachable state are those of the committed requests run one after the other in commit order, each admitted and unobstructed at its turn |
| StoreSerial.Serializable | internal/store/pg/store.go:56-80 | every reachable state's tables are reached by a run that never has two transactions open |
| ChannelTag.RevisionDetermines | internal/store/pg/store.go:1780-1801 | equal digests mean the same playlists at the same generations in the same order |
| ChannelTag.RevisionMeans | internal/store/pg/store.go:1780-1801 | the digest is over one id@generation for each member with commas between, and empty exactly for no members |
| ChannelTag.TagDetermines | internal/httpserver/etag.go:59-70 | two tags are equal exactly when bytes and revision both are |
| ChannelTag.IfNoneMatchNotModified | internal/httpserver/etag.go:73-95 | the loop answers 304 exactly when the header names the tag; `*` and empty elements never do (section 13.1.2 of RFC 9110) |
| ChannelTag.NamesMeans | internal/httpserver/etag.go:73-95 | a header of several elements names the tag exactly when one of them, unpadded, is the tag or its weak form, and the whole is no star |
| ChannelTag.SplitJoins | internal/httpserver/etag.go:83-93 | the elements of a header joined with commas are the header, and none has a comma |
| ChannelTag.JoinSplits | internal/httpserver/etag.go:83-93 | parts without a comma are the elements of their join |
| ChannelTag.TagSentBack | internal/httpserver/etag.go:73-95 | a tag sent back, strong or weak, matches exactly the same tag |
| ChannelTag.EqualRevisionsUnchanged | internal/store/pg/store.go:1780-1801 | with no channel write in between, equal digests mean no member changed |
| ChannelTag.TagTracksMembers | internal/httpserver/etag.go:32-70 | with no channel write in between, the tags are equal exactly when no member was replaced or deleted |
| Keyset.PageMeans | internal/store/pg/store.go:648-664 | a page is ordered, bounded, complete up to its last row, and has a next cursor exactly when its snapshot holds a further row |
| Keyset.WalkReturnsSurvivorsOnce | internal/store/pg/store.go:629-664 | over changing snapshots a finished walk returns every lasting row exactly once, in strict order |
| Keyset.StableWalkIsOnePass | internal/store/pg/store.go:629-664 | over unchanging rows a walk is one pass over the sorted rows |
| Keyset.WalkEnds | internal/store/pg/store.go:836-945 | while no new row shows up a walk has at most one page beyond the full ones |
| Listing.ResolveListLimit | internal/store/pagination.go:22-39 | a limit above the maximum is refused, one that is not positive gives the default, any other is taken as it is |
| Listing.MemberCursorRoundTrip | internal/store/pg/store.go:2092-2141 | a member cursor decodes to itself exactly for a non-nil container, a set revision and a 32-bit position |
| ListingLaws.CursorMeans | internal/store/pg/store.go:2067-2090 | a token is a directory cursor exactly when it carries a time and an id that are not zero, and no position |
| ListingLaws.MemberCursorMeans | internal/store/pg/store.go:2092-2141 | a token is a member cursor exactly when it carries a known kind, a container, a direction, a revision and a 32-bit position, and no creation time |
| ListingWalks.DirectoryReturnsSurvivorsOnce | internal/store/pg/store.go:742-772 | a document live and matching at every page is returned exactly once, whatever else happens between the pages |
| ListingLaws.DirectoryReturnsOnlyQualified | internal/store/pg/store.go:629-772 | whatever a walk through the directory returns was, in the state its page was cut from, a row of the kind with that creation time whose body passes the filters |
| ListingLaws.DirectoryReturnsInTurn | internal/store/sort.go:31-46 | and comes in order of creation time and id, ascending, or descending for desc, across all pages |
| ListingLaws.DirectoryPageMeans | internal/store/pg/store.go:629-664 | one page holds qualifying rows past the cursor in order, within the limit, and what it leaves out comes after it and makes it full |
| ListingLaws.DirectoryRefusals | internal/store/pg/store.go:742-772 | only a limit above 512 and a token that is no cursor are refused |
| ListingWalks.DirectoryCursorRefused | internal/store/pg/store.go:2067-2090 | the next request refuses a cursor exactly when its row has a zero time or the nil id |
| NilIds.NilIdStopsTheDirectory | internal/store/pg/store.go:2086-2088 | after any two accepted creates, the first of a playlist with the nil id, a client paging one row at a time is refused its own cursor after the first row |
| NilIds.NilIdExample | internal/store/pg/store.go:2086-2088 | such creates exist, and the run they make |
| ListingWalks.MembersReturnSurvivorsOnce | internal/store/pg/store.go:836-945 | a member there at every page is returned exactly once, in position order, with the same playlist |
| ListingLaws.MembersReturnOnlyMembers | internal/store/pg/store.go:836-945 | whatever a walk through the members returns was a slot with a live playlist in the state its page was cut from |
| ListingLaws.MembersReturnInTurn | internal/store/pg/store.go:836-945 | and comes in order of position, ascending, or descending for desc, across all pages |
| ListingLaws.MemberPageMeans | internal/store/pg/store.go:836-945 | one page holds members past the cursor in order, within the limit, and what it leaves out comes after it and makes it full |
| ListingWalks.MemberWalkEnds | internal/store/pg/store.go:836-945 | paging through members ends within the pages the first state fills |
| ListingWalks.MemberCursorHonoured | internal/store/pg/store.go:888-923 | a member cursor is served exactly by its own container, kind and direction in the same revision; everything else is refused |
| Resolution.ResolvesExactly | internal/executor/ingest_resolve.go:60-221 | a URI resolves exactly to the stored playlist it leads to, as stored, or to the document its origin serves if that clears the create bar; what was recorded earlier answers exactly for an origin out of reach, a feed without a fetcher included |
| Resolution.LocalUrlMeans | internal/executor/ingest_resolve.go:116-129 | a URL of the feed's own resolves exactly to the live playlist its key finds, and fails as invalid or not found |
| Resolution.FailedFetchMeans | internal/executor/ingest_resolve.go:60-158 | a failed fetch is answered from the record exactly for no response, 429 or 500 and up, with the recorded playlist as stored, while it lives; otherwise with the fetch error |
| Resolution.NoFetcherMeans | internal/executor/ingest_resolve.go:131-137 | without a fetcher the record answers exactly while its playlist lives |
| Resolution.ServedStoredId | internal/executor/ingest_resolve.go:160-184 | a served body that names a live playlist links that playlist as stored |
| Resolution.ServedNewDocument | internal/executor/ingest_resolve.go:186-223 | any other body is taken exactly when it is a playlist that clears the create bar as served |
| Resolution.ResolvedIsOk | internal/executor/ingest_resolve.go:110-221 | whatever resolves is a row as stored or fit to be stored |
| Resolution.Admit | internal/executor/ingest_resolve.go:43-58 | a list is refused exactly when empty, too long, or holding an over-long URI as submitted |
| Resolution.PlanReferences | internal/executor/ingest_resolve.go:262-303 | distinct trimmed URIs in first-occurrence order, each with exactly its positions |
| Resolution.PlanMeans | internal/executor/ingest_resolve.go:262-303 | a plan names each trimmed URI of the list, and under it exactly the positions the list has it at |
| Resolution.PlanOrderMeans | internal/executor/ingest_resolve.go:262-303 | once each, in the order in which the list first has them |
| ParallelResolution.ParallelIsSequential | internal/executor/ingest_resolve.go:305-336 | for every completion order the list resolves exactly when all URIs do and fit the budget, and every position holds its URI's result |
| ParallelResolution.BudgetMeans | internal/executor/ingest_resolve.go:305-336 | when all URIs resolve, a finished request succeeds exactly when the sizes of the documents, one for each distinct URI, add up to at most the budget; otherwise it is too large |
| ParallelResolution.ReturnedWithinBudget | internal/executor/ingest_resolve.go:305-336 | the documents a successful request returns stay within the budget |
| ParallelResolution.ErrorIsSomebodys | internal/executor/ingest_resolve.go:305-336 | what a request fails with is the error of one of its URIs or that of the budget |
| ParallelResolution.NeverTooManyWorkers | internal/executor/ingest_resolve.go:317-319 | never more than eight workers |
| ParallelResolution.FreeWorkerStarts | internal/executor/ingest_resolve.go:317-319 | with fewer than eight at it the next waiting URI can be started |
| ParallelResolution.AlwaysAStep | internal/executor/ingest_resolve.go:317-336 | the pool never gets stuck |
| ParallelResolution.ResolvedListIsAdmissible | internal/executor/ingest_resolve.go:262-336 | a resolved list meets what the store's guarantees ask of it: one URI one playlist, each held or cleared |
| LogBatches.WithDefaults | internal/logger/cloudflare.go:263-315 | each setting that is not positive takes its own default, each positive one is kept, and the result is always usable |
| LogBatches.AssembleBody | internal/logger/cloudflare.go:488-497 | the loop writes a JSON array of the records |
| LogBatches.BodyMeans | internal/logger/cloudflare.go:488-497 | the body is the records between brackets with commas between them |
| LogBatches.BodyLength | internal/logger/cloudflare.go:404-446 | the body is one byte shorter than the running counter |
| LogBatches.AppendKeeps | internal/logger/cloudflare.go:436-446 | every batch stays within both limits although the counter may pass the byte limit by one |
| LogBatches.AppendTakesOne | internal/logger/cloudflare.go:424-446 | an append adds exactly its record to what is attempted or batched |
| LogBatches.NoFailureMeansAllSucceeded | internal/logger/cloudflare.go:424-435 | the sticky error is nil exactly when every request succeeded |
| LogBatches.DrainBound | internal/logger/cloudflare.go:26-36 | at most (pending records / batch size) + N + 1 requests, N times (byte limit less one) at most twice the pending weight |
| LogBatches.DefaultsCoverTheDrain | internal/logger/cloudflare.go:18-42 | with the defaults this and a request in flight stay below 20 requests and 105 seconds |
| LogSender.StepKeeps | internal/logger/cloudflare.go:400-474 | every step of producers, callers, ticker and worker keeps the sender's invariant |
| LogSender.NothingLost | internal/logger/cloudflare.go:330-486 | accepted records are the attempted ones, the batch, the record in hand and the queue, in order; at the end all attempted exactly once |
| LogSender.OfferMeans | internal/logger/cloudflare.go:330-350 | in any run a record offered while the sender is open, that fits a body and the room left in bytes and in number, is appended to the queue and accepted; any other changes nothing |
| LogSender.RecordIsTaken | internal/logger/cloudflare.go:400-451 | a worker with nothing in hand can take the first record that waits, until it is done |
| LogSender.PendingBytesExact | internal/logger/cloudflare.go:330-357 | the byte count is exact and within its bounds |
| LogSender.EveryBodyFits | internal/logger/cloudflare.go:436-497 | every request holds one to a full batch of records within the byte limit |
| LogSender.FlushCoversEverything | internal/logger/cloudflare.go:452-459 | an answered flush covers all accepted before, is nil exactly when no request ever failed, and otherwise the last failure |
| LogSender.CloseTellsAll | internal/logger/cloudflare.go:464-470 | close is nil exactly when no request ever failed, and otherwise the last failure |
| LogSender.CloseIsDeterministic | internal/logger/cloudflare.go:464-486 | from the close request on, nothing producers or callers do changes what is delivered |
| LogSender.CloseDrainBound | internal/logger/cloudflare.go:464-486 | the drain bound for every run from the close request to done |
| LogSender.DefaultShutdownSuffices | internal/logger/cloudflare.go:28-42 | with the defaults every run's drain stays below the 20 requests the timeout allows for |
| LogSender.CloseDrainEnds | internal/logger/cloudflare.go:476-486 | the drain can always go on, each step brings it nearer the end, and nobody else can change anything |
| StreamSenders.StreamSender.constructor | internal/logger/cloudflare.go:263-315 | a new sender is the machine's start with the defaulted settings |
| StreamSenders.StreamSender.Enqueue | internal/logger/cloudflare.go:330-350 | admits a record exactly when the sender is open, the record fits a body and there is room in bytes and in number, appends it then, and tells the first of these that fails |
| StreamSenders.StreamSender.Write | internal/logger/cloudflare.go:322-328 | a record there is room for is accepted, any other counted as dropped, and nothing else changes |
| StreamSenders.StreamSender.MarkDequeued | internal/logger/cloudflare.go:353-357 | takes exactly the record's bytes off the count |
| StreamSenders.StreamSender.Flush | internal/logger/cloudflare.go:424-435 | sends and empties the batch whatever the outcome, and remembers a failure |
| StreamSenders.StreamSender.AppendRecord | internal/logger/cloudflare.go:436-446 | refines the batching rule with both closing conditions |
| StreamSenders.StreamSender.DrainRecords | internal/logger/cloudflare.go:476-486 | empties the queue into batches in order |
| StreamSenders.StreamSender.OnTick | internal/logger/cloudflare.go:460-461 | a tick sends what there is |
| StreamSenders.StreamSender.OnFlush | internal/logger/cloudflare.go:452-459 | everything accepted has been attempted, and the answer tells of any failure so far |
| StreamSenders.StreamSender.AskClose | internal/logger/cloudflare.go:382-388 | only the first close call asks the worker to finish |
| StreamSenders.StreamSender.OnClose | internal/logger/cloudflare.go:464-473 | drains, delivers the rest, and leaves the callers the last failure |
| Text.TrimIdempotent | internal/executor/ingest_resolve.go:297-303 | a key trimmed before it is looked up is the key the lookup computes |
| Text.TrimMeans | internal/executor/ownership.go:106-115 | trimming takes blanks, and only blanks, off both ends until there are none |
| Text.FoldMeans | internal/executor/signed_auth.go:210-230 | against a digest in lower-case hexadecimal, comparing without case forgives capital letters and nothing else |
| Text.UuidTextMeans | internal/executor/signed_auth.go:163-205 | the text of a 128-bit id is its lower-case hexadecimal digits in groups of 8, 4, 4, 4 and 12, which read back give the id |
| Text.UuidTextInjective | internal/executor/signed_auth.go:163-205 | two ids with the same text are the same id |
| Text.JoinInjective | internal/store/pg/store.go:1795-1801 | comma-joined parts determine the parts |

## Left out

- The clock: the time a replacement is signed at is a parameter of the request; a new document is signed with its own created time.
- HTTP routing, request binding, error mapping, configuration, notification delivery and the listing a playlist replace reads after its commit.
- SQL, JSON and base64 text: a statement is its effect on maps, a cursor token the object it encodes, a body the document it parses to. Requests with an empty body are not modelled.
- The list filters themselves (visibility, curator, publisher) are one predicate a request brings; the refusal of a curator filter beside a container filter, and the switch that turns extensions off, are single branches.
- Slugs as addresses: a stored row is addressed by id. A local reference by slug is part of the lookup the model is given.
- Serializable: speaks of the committed tables. The recipients a delete collected are not compared; they may name a channel that stopped listing the playlist before the delete committed.
- Row-level locks and unique-index waits in the deadlock claims: they are about the advisory document locks, which are the ones the service orders.
- A recipient read that fails is an abandoned one; a read that fails after its first row is not distinguished from one that succeeds.
- The item list's paging: its key is not shown to be unique.
- Updates in place of the database: the tables are values that a commit replaces. The log sender, whose fields the service does update in place, is a class.
- Producers racing with the worker inside one method of the class `StreamSender`: interleavings are in the machine `LogSender`, whose actions the methods refine.
- How long a flush can take while producers keep up: only the close drain is bounded. The wall-clock time of shutdown before the worker takes the close request is not bounded either, since its select may choose other cases first.
- 64-bit overflow of byte counters and the rendering of diagnostics and error messages.
- Stored documents that predate the ownership rules, except that the owner lookup of a group fails closed on them.
