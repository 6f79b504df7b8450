# Signature-event lifecycle

This project models the core of a Spring/Kotlin e-signature back end. The
Kotlin sources are embedded in `generate_signature_project.py`. An
e-signature *event* is created from a request and stored as PENDING. It is
then sent to a vendor (Certisign or DocuSign), which makes it SENT. Next it is
polled until the vendor reports SIGNED or REJECTED. The signed documents are
archived to a Google Cloud Storage bucket (UPLOADED). Other paths mark the
event as ERROR, or as EXPIRED once it has waited 30 days.

The model is split into modules:

- `Domain`: the enums and the JSON-like `metadata` bag. It also holds `EventRow`, the column values of one `signature_events` row, and the exceptions the operations raise. `ParseProvider` models `SignatureProvider.valueOf(name.uppercase())`.
- `Entity`: the JPA entity `SignatureEvent`, as a class whose `status` and `metadata` the methods update in place (`SetEnvelopeId`, `AddRequest`, `AddResponse`). Alongside it are the pure bag operations those methods perform.
- `Requests`: `CreateSignatureEventRequest` and `ToEntity`.
- `Providers`: the vendor DTOs and `SignatureProviderFactory` as a registry built from the declared gateways. Its `GetProvider` fails when a type is absent.
- `Storage`: `GcsStorageService`. It covers the object paths `campaignId/cnpj/eventId/documents.zip` and `…/signed_documents.zip`, and the `gs://bucket/path` location. The archive is a list of named entries, and a class holds the bucket's objects.
- `Lifecycle`: each change the service makes to an event, as a function on `EventRow`. Each function's contract says which fields and metadata keys it touches. The module also has the vendor-status mapping, the 30-day sweep and the lemmas about them.
- `Repository`: `SignatureEventRepository` as a class holding a map from event id to row. `save` writes the entity's current columns and sets `updatedAt` to the time of the save. A ghost counter counts the saves.
- `Service`: `SignatureEventService`. It is a class over the repository, the registry and the storage, with all six operations as methods. Each method's `ensures` ties the new entity, store and bucket to the `Lifecycle` functions of the old state.

The clock is an input: every operation takes one reading `now`, in nanosecond ticks of a zone-free local clock. Vendor calls are inputs too. The service methods receive the vendor's reply as a `Result`, so a vendor exception is a `Failure` reply. A thrown exception is a `Fail` outcome or a `Failure` result. An unchecked exception rolls back the database transaction only, not the bucket and not the in-memory entity. Every unchecked exception the model covers is thrown before the entity or the bucket is touched and before any save: `valueOf`, `getProvider`, the vendor call, `orElseThrow` and "No envelope ID". So each such failure leaves the entity, the store and the bucket as they were, and each method's contract states it. The one checked exception is the `ZipException` that `putNextEntry` throws when two documents share a file name. Spring's `@Transactional` does not roll back on a checked exception. In `createSignatureEvent` that exception comes after the first save, so the model keeps the PENDING row that save inserted, with no `documents_gcs_path`. In `downloadAndUploadSignedDocuments` it comes before any write.

### Where the code and the intended lifecycle differ

The intended lifecycle is a transition table: PENDING→SENT, SENT→SIGNED/REJECTED/EXPIRED, SIGNED→UPLOADED, and non-terminal→ERROR. The code checks none of these states. The model follows the code, and `Lifecycle` proves where the code leaves the table:

- `checkAndUpdateStatus` turns a REJECTED event back into SENT on any other vendor answer (`Lifecycle.CheckRevivesRejected`).
- `checkAndUpdateStatus` moves an UPLOADED event back to SIGNED while the vendor still reports SIGNED, and stamps `signed_at` again (`Lifecycle.CheckDemotesUploaded`).
- `sendToProvider` sends from any status and replaces an envelope id already recorded (`Lifecycle.ResendReplacesEnvelopeId`).
- `markAsError` leaves terminal states too (`Lifecycle.ErrorLeavesTerminalStates`).
- `downloadAndUploadSignedDocuments` checks only that an envelope id exists, so it uploads a PENDING or SENT event (`Lifecycle.UploadSkipsSigned`).
- A creation request's own metadata is laid over the bag last. It can replace `documents` and `signer`, and it can preset `envelope_id` (`Requests.CallerCanPresetEnvelopeId`).

Further points where the code decides things the intended lifecycle leaves open:

- An empty string counts as an envelope id.
- A download of zero documents still moves the event to UPLOADED.
- The provider is resolved before the envelope-id check, so a missing provider wins over a missing id.

## Model

| member | source | states |
|---|---|---|
| Domain.TextAt | generate_signature_project.py:327 | `metadata[key] as? String`: present exactly when the key holds a string, and then that string |
| Domain.Inserted | generate_signature_project.py:285-313 | a first save assigns the generated id and sets both timestamps to the time of the save; the columns and the bag are kept |
| Domain.Saved | generate_signature_project.py:311-313 | a save changes only `updatedAt`, which becomes the time of the save; identity, status and bag are kept |
| Domain.UpperChar | generate_signature_project.py:399 | a lower-case ASCII letter moves to its capital; the result is an ASCII capital exactly when the input is an ASCII letter, the dotless i or the long s; every other character is kept |
| Domain.Uppercase | generate_signature_project.py:399 | `uppercase()` keeps the length and maps every character by the character rule |
| Domain.ParseProvider | generate_signature_project.py:399 | succeeds exactly when the upper-cased name is an enum constant's name; otherwise fails with that upper-cased name, and no provider has it |
| Domain.ParseProviderAnyCase | generate_signature_project.py:399 | every spelling that upper-cases to a provider's name parses to that provider |
| Domain.ParseProviderName | generate_signature_project.py:263-266 | each enum constant's own name parses back to it |
| Entity.EnvelopeIdOf | generate_signature_project.py:327 | `getEnvelopeId()` is present exactly when `envelope_id` holds a string, and returns that string |
| Entity.WithEnvelopeId | generate_signature_project.py:329-331 | after `setEnvelopeId(x)` the envelope id reads back as `x` and no other key changes |
| Entity.TraceEntry | generate_signature_project.py:317 | a trace entry is a map with exactly the keys `timestamp` and `payload`, holding the time stamp and the payload |
| Entity.TraceOf | generate_signature_project.py:316-322 | `getOrDefault(key, [])`: the list stored under the key, or the empty list when the key is absent |
| Entity.AppendTrace | generate_signature_project.py:315-325 | the cast fails exactly when the key holds a non-list; otherwise the trace becomes the old trace plus one `{timestamp, payload}` entry, and no other key changes |
| Entity.AppendTraceTwice | generate_signature_project.py:315-319 | two appends keep the old entries followed by both new entries in call order |
| Entity.SignatureEvent.constructor | generate_signature_project.py:284-313 | the entity object holds exactly the given column values |
| Entity.SignatureEvent.EnvelopeId | generate_signature_project.py:327 | the entity's envelope id is present exactly when `envelope_id` holds a string, and is that string |
| Entity.SignatureEvent.SetEnvelopeId | generate_signature_project.py:329-331 | only the bag changes, to the bag with the new envelope id, which `EnvelopeId()` then returns |
| Entity.SignatureEvent.AddRequest | generate_signature_project.py:315-319 | the `requests` trace gets one entry appended; a non-list under `requests` fails and leaves the entity untouched |
| Entity.SignatureEvent.AddResponse | generate_signature_project.py:321-325 | the same for the `responses` trace |
| Entity.SignatureEvent.Append | generate_signature_project.py:315-325 | the shared body: the new entity equals the old one with the bag given by `AppendTrace`, or is unchanged on the cast failure |
| Requests.DocumentEntry | generate_signature_project.py:417 | `toMap()` is a map with the single key `fileName`, holding the document's file name |
| Requests.DocumentList | generate_signature_project.py:402 | `documents.map { it.toMap() }`: one entry per document, in order, holding its file name |
| Requests.SignerRecord | generate_signature_project.py:403-407 | the `signer` map has exactly the keys `name`, `email` and `cpf`; `cpf` is null exactly when the request has none, and otherwise holds it |
| Requests.CallerMetadata | generate_signature_project.py:408 | the caller's metadata when given, and no keys when it is null |
| Requests.ToEntity | generate_signature_project.py:395-410 | fails exactly when the provider name does not parse; otherwise a PENDING event with no id and the parsed provider, whose keys are `documents`, `signer` and the caller's keys; caller values win, and the service's own values stand where the caller gave none |
| Requests.CallerCanPresetEnvelopeId | generate_signature_project.py:408 | caller metadata with `envelope_id` yields a PENDING event that already has that envelope id |
| Requests.ContentMaps | generate_signature_project.py:634-636 | one map per document, in order, with exactly the keys `fileName` and `content`, holding the document's name and Base64 content |
| Requests.ArchiveOfRequestDocuments | generate_signature_project.py:634-636 | the documents' archive has one entry per input document, with its file name and content, so the default name never applies; zipping succeeds exactly when the request's file names are pairwise distinct |
| Storage.ObjectPath | generate_signature_project.py:481 | the object path is as long as its four components plus three separators, and ends with the archive name |
| Storage.DocumentsPath | generate_signature_project.py:481 | the documents' object path ends with `documents.zip`, and is shorter than (so never equal to) the same event's signed archive path |
| Storage.SignedDocumentsPath | generate_signature_project.py:496 | the signed object path ends with `signed_documents.zip` |
| Storage.Location | generate_signature_project.py:487 | the location starts with `gs://`, continues with the bucket, and ends with a separator and the object path |
| Storage.ObjectPathSegments | generate_signature_project.py:481 | with `/`-free components, the object path splits back into campaign id, tax id, event id and archive name |
| Storage.ObjectPathInjective | generate_signature_project.py:481-496 | distinct (campaign, tax id, event, archive) tuples never share an object path when the components are `/`-free |
| Storage.SplitAtLastSlash | generate_signature_project.py:481 | two joins at a separator are equal only when their heads and `/`-free tails are equal |
| Storage.ObjectPathSameEvent | generate_signature_project.py:481-496 | whatever the campaign and tax ids hold, two objects share a path only when they have the same event id and archive name (for `/`-free event ids) |
| Storage.LocationRoundTrip | generate_signature_project.py:487 | `gs://bucket/path` parses back to the bucket and the path |
| Storage.EntryOf | generate_signature_project.py:509-510 | an entry takes the document's file name, or `document.pdf` when it has none, and its content, or the empty string |
| Storage.Archive | generate_signature_project.py:505-518 | one entry per document, in order; a missing name becomes `document.pdf`, a missing content the empty string |
| Storage.FirstRepeat | generate_signature_project.py:507-515 | writing entries in order after the names already written finds no repeat exactly when every name is new and all differ; a name it reports belongs to an entry and was written before it |
| Storage.DuplicateName | generate_signature_project.py:511-512 | starting from an empty archive, `putNextEntry` refuses no name exactly when all entry names differ; a refused name belongs to two entries |
| Storage.ZipArchive | generate_signature_project.py:505-518 | the archive is produced exactly when all entry names differ, and is then one entry per document in order; otherwise the `ZipException` names a repeated entry name |
| Storage.CreateZip | generate_signature_project.py:505-518 | the loop over documents that keeps the set of written names returns `ZipArchive` of its input |
| Storage.WriteOneEntry | generate_signature_project.py:511-513 | one loop step: a name already written stops at that name, a new one continues with the name added |
| Storage.GcsStorage.constructor | generate_signature_project.py:469-472 | a storage for the configured bucket, holding no objects |
| Storage.GcsStorage.UploadDocumentsZip | generate_signature_project.py:475-488 | a repeated entry name fails with the `ZipException` and stores nothing; otherwise stores the archive of the documents at `campaignId/cnpj/eventId/documents.zip`, changes no other object, and returns `gs://bucket/` followed by that path |
| Storage.GcsStorage.UploadSignedDocumentsZip | generate_signature_project.py:490-503 | the same at `…/signed_documents.zip` |
| Providers.BuildRegistry | generate_signature_project.py:782-783 | every declared type is registered, and every registered gateway is a listed one declaring its key |
| Providers.LastDeclarationWins | generate_signature_project.py:783 | when several gateways declare one type, `associateBy` keeps the last |
| Providers.GetProvider | generate_signature_project.py:785-788 | succeeds exactly when the type is registered; otherwise fails with "Provider not found" for that type |
| Providers.GetProviderFromList | generate_signature_project.py:779-788 | resolution succeeds exactly for the declared types, and yields a listed gateway declaring the requested type |
| Providers.SignedContentMaps | generate_signature_project.py:712-714 | one map per downloaded document, in order, with exactly the keys `fileName` and `content`, holding the vendor's document name and Base64 content |
| Providers.ArchiveOfSignedDocuments | generate_signature_project.py:712-714 | the signed archive has one entry per downloaded document, under the vendor's document name; zipping succeeds exactly when the document names are pairwise distinct |
| Lifecycle.ExpiryCutoff | generate_signature_project.py:693 | the cutoff lies before `now`, exactly 30 days of ticks earlier |
| Lifecycle.AfterSend | generate_signature_project.py:652-659 | SENT, the envelope id is the vendor's, and `sent_at` is set; identity and every other metadata key are unchanged |
| Lifecycle.ErrorText | generate_signature_project.py:665 | the stored message is the given one, or "Unknown error" when there is none |
| Lifecycle.AfterError | generate_signature_project.py:662-668 | ERROR from any status; `error_message` is the message or "Unknown error", and `error_at` is set; nothing else changes |
| Lifecycle.VendorStatus | generate_signature_project.py:676-680 | "SIGNED"→SIGNED, "REJECTED"→REJECTED, and every other answer→SENT, each as an if-and-only-if |
| Lifecycle.AfterCheck | generate_signature_project.py:676-688 | the event takes the mapped status; it is left equal to itself exactly when the status does not change; `signed_at` is written only on a change to SIGNED, and otherwise the bag is kept |
| Lifecycle.CheckTwice | generate_signature_project.py:682-688 | a second check with the same answer changes nothing |
| Lifecycle.AfterExpiry | generate_signature_project.py:697-703 | EXPIRED with `expired_at` and the reason "30 days without signature"; nothing else changes |
| Lifecycle.Expirable | generate_signature_project.py:694-696 | an event is selected exactly when it is SENT and was created more than 30 days of ticks before `now` |
| Lifecycle.ExpirableIds | generate_signature_project.py:694-696 | the selected ids are exactly the stored SENT events created before the cutoff |
| Lifecycle.Sweep | generate_signature_project.py:692-704 | the same ids are kept; a row changes exactly when it is selected, and then it becomes EXPIRED and saved at `now` with its identity kept, `expired_at` stamped, `expiration_reason` "30 days without signature" and no other metadata key changed |
| Lifecycle.SweptSoFarStep | generate_signature_project.py:697-703 | expiring one more untouched selected event extends a partial sweep by it |
| Lifecycle.SweptSoFarComplete | generate_signature_project.py:697-703 | a partial sweep over all selected ids is the whole sweep |
| Lifecycle.SweepIdempotent | generate_signature_project.py:692-704 | after a sweep, a sweep at the same time selects nothing and changes nothing |
| Lifecycle.SweepOnlyExpiresOldSent | generate_signature_project.py:694-696 | a row the sweep changes was SENT and becomes EXPIRED; a row created at or after the cutoff is never touched |
| Lifecycle.AfterUpload | generate_signature_project.py:723-724 | UPLOADED, with `signed_documents_gcs_path` set to the location; nothing else changes |
| Lifecycle.AfterPackaging | generate_signature_project.py:645 | `documents_gcs_path` is set to the location; the status and everything else are kept |
| Lifecycle.GuardedStepsFollowTable | generate_signature_project.py:652-724 | from the states the intended lifecycle expects, each operation's step is one the transition table allows |
| Lifecycle.CheckRevivesRejected | generate_signature_project.py:682-688 | a REJECTED event becomes SENT on any answer other than SIGNED or REJECTED, a step outside the table |
| Lifecycle.CheckDemotesUploaded | generate_signature_project.py:682-688 | an UPLOADED event answered SIGNED goes back to SIGNED, with `signed_at` stamped anew, a step outside the table |
| Lifecycle.ResendReplacesEnvelopeId | generate_signature_project.py:652-659 | a second send overwrites the envelope id already recorded |
| Lifecycle.ErrorLeavesTerminalStates | generate_signature_project.py:662-668 | `markAsError` moves UPLOADED, EXPIRED and REJECTED events to ERROR, outside the table |
| Lifecycle.UploadSkipsSigned | generate_signature_project.py:707-726 | a PENDING or SENT event with an envelope id becomes UPLOADED, outside the table |
| Repository.EventRepository.constructor | generate_signature_project.py:348 | an empty store |
| Repository.EventRepository.Insert | generate_signature_project.py:285-313 | a first save gives the entity the `Inserted` row (fresh id, both timestamps) and inserts it under that id; every row stays under its own id |
| Repository.EventRepository.Save | generate_signature_project.py:311-313 | a save sets `updatedAt` and overwrites the event's row; nothing else in the store changes |
| Repository.EventRepository.FindById | generate_signature_project.py:663 | finds an entity exactly when the id is stored, as a fresh object holding the stored row |
| Service.ToResponse | generate_signature_project.py:737-748 | the response carries the event's id, columns and timestamps; the envelope id and the two archive locations are present exactly when the bag holds a string under their key, and are that string |
| Service.CreatedRow | generate_signature_project.py:630-649 | creation fails exactly when the provider name does not parse, with that error; otherwise the stored row is PENDING under the new id, with both timestamps `now` and the documents' `gs://` location recorded |
| Service.CreatedRowOf | generate_signature_project.py:630-649 | the stored row is the built entity, inserted under the new id and given its documents' location |
| Service.CreatedResponse | generate_signature_project.py:737-748 | the response to a creation reports PENDING, the new id and the documents' location |
| Service.SignatureEventService.constructor | generate_signature_project.py:622-626 | the service's registry is built from the declared gateways |
| Service.SignatureEventService.CreateSignatureEvent | generate_signature_project.py:630-649 | an unknown provider fails with no write; a repeated file name fails with the `ZipException` after one committed save of the PENDING row, with the bucket unchanged; otherwise the store gains exactly the created row after two saves, the bucket gains the documents' archive, and the response is that row's projection |
| Service.SignatureEventService.SaveWithDocuments | generate_signature_project.py:632-646 | insert, upload, record the location, save again: the row, store and bucket afterwards, and two saves; on a repeated file name only the inserted row, one save, and the bucket unchanged |
| Service.SignatureEventService.PackageDocuments | generate_signature_project.py:638-646 | a repeated file name fails with the `ZipException` and changes neither entity, store nor bucket; otherwise the bucket gains the archive at the documents' path and the event becomes `AfterPackaging` with its location, saved once at `now` |
| Service.SignatureEventService.SendToProvider | generate_signature_project.py:652-659 | a missing provider or a failed vendor call fails with nothing written; otherwise the entity becomes `AfterSend` saved at `now`, and only its row in the store is overwritten |
| Service.SignatureEventService.MarkAsError | generate_signature_project.py:662-668 | an unknown id fails with no write; otherwise only that row changes, to `AfterError` saved at `now`, from any status |
| Service.SignatureEventService.CheckAndUpdateStatus | generate_signature_project.py:671-689 | no envelope id, an unchanged status, a missing provider or a failed vendor call leave entity and store untouched (the first two succeed); a changed status gives `AfterCheck` saved once at `now` |
| Service.SignatureEventService.MarkExpiredEvents | generate_signature_project.py:692-704 | the store becomes `Sweep` of the old store, the count is the number of selected events, and exactly that many saves happen |
| Service.SignatureEventService.ExpireEvent | generate_signature_project.py:697-703 | one loaded event becomes `AfterExpiry` saved at `now`, and only its row is overwritten |
| Service.SignatureEventService.DownloadAndUploadSignedDocuments | generate_signature_project.py:707-726 | failures in code order (provider, then "No envelope ID", then the download, then a repeated document name) leave entity, store and bucket untouched; otherwise the bucket gains the signed archive at the event's path, and the entity becomes `AfterUpload` with its `gs://` location, saved at `now` |
| Service.SignatureEventService.RedeliveredStatusCheck | generate_signature_project.py:671-689 | a status check delivered twice with one answer: when the answer changes the status, the event becomes `AfterCheck` saved once at the first delivery's time and only its row is overwritten; otherwise nothing changes. Either way the second delivery writes nothing, and the event ends in the mapped status |
| Service.SignatureEventService.RepeatedSweep | generate_signature_project.py:692-704 | a second sweep at the same time expires nothing and the store stays valid, and the store is the single sweep of the original |

## Left out

- `write_project` and the generator's file list, the build files, the application configuration and the SQL migration: these are file I/O and deployment configuration.
- `CloudTasksService`: a thin wrapper over the Cloud Tasks client that schedules calls of the modelled operations.
- `SignatureEventController` and request validation (`@Valid`, `@NotBlank`, `@Size`, `@NotEmpty`): HTTP routing. The model accepts any request, including one with no documents.
- `findSentEventsForStatusCheck`, `findSignedEvents` and `findById` on the service, and the repository's paged JSONB query with its ordering by `updatedAt`: these are database queries that change nothing.
- ZIP encoding, Base64 decoding and object content types: an archive is the list of entry names and Base64 contents. A repeated entry name is modelled; a storage failure and invalid Base64 (which would throw) are not, so an upload whose names differ succeeds.
- Vendor implementations: only the interface exists. `sendEnvelope`, `checkStatus` and `downloadSignedDocuments` are replaced by their reply (or failure), given as an input. The model does not tie that reply to the envelope id passed to the call.
- Service.SignatureEventService.SendToProvider: ignores the vendor reply's `status` and `rawResponse`, as the code does.
- `@Transactional`: an unchecked exception is modelled as leaving everything unchanged, and the checked `ZipException` as keeping the writes made before it. Concurrent callers and last-writer-wins races are not modelled.
- Database failures at a save or at commit (a constraint or column-length violation, a lost connection): not modelled. After an upload, such a failure would roll back the row and leave the uploaded archive in the bucket as an orphan.
- The clock: each operation takes one reading `now`, while the code reads the clock several times within an operation.
- Timestamps written to the bag are `Stamp(now)`, which stands for the ISO-8601 text of the reading; the text format itself is not modelled. The same holds for the trace entries' timestamps.
- Domain.TextAt: reads a `Stamp` as not a string, while `as? String` would return the timestamp text. The service writes timestamps only under `sent_at`, `error_at`, `signed_at` and `expired_at`, which are never read as strings. Caller metadata comes from JSON, where a time is a plain string (`Text`).
- Repository.EventRepository.Save: writes the entity's `createdAt` with the other columns, while the column is `updatable = false`. The property is a `val`, and no modelled method changes it after the repository inserts or loads the entity, so for such an entity the value written equals the stored one.
- JSON values are modelled without floating point numbers, and the order of the bag's keys is not modelled.
- Random UUID generation: `CreateSignatureEvent` takes the new id as an input that is not yet stored.
- Service.SignatureEventService.SendToProvider: requires a persisted entity (`id` present). For an entity without an id, Spring's `save()` would insert it as a new row under a freshly generated UUID. The service is only ever handed loaded events.
- Service.SignatureEventService.CheckAndUpdateStatus: requires a persisted entity. For an entity without an id whose status changes, `save()` would insert it as a new row under a fresh UUID.
- Service.SignatureEventService.DownloadAndUploadSignedDocuments: requires a persisted entity. For an entity without an id, the code throws a `NullPointerException` at `event.id!!` after the download, before any upload or save.
- Service.SignatureEventService.ExpireEvent: requires a persisted entity, which every event the sweep loads from the store is.
- Domain.Uppercase: handles the ASCII letters plus the two non-ASCII characters whose upper case is an ASCII capital (U+0131 and U+017F). Other characters are kept as they are. No other character can make the name match a provider, so success and failure agree with Kotlin. Only the text carried by the failure can differ from Kotlin's full Unicode upper case.
- Service.SignatureEventService.MarkExpiredEvents: the order in which events are expired is the order of a set rather than that of `findAll()`. The events are distinct, so the final store is the same.
