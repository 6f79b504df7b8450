/**
 * `SignatureEventService`: the orchestration operations. Each takes the
 * vendor's answer as an input (`reply`) and the clock reading as `now`; a
 * thrown exception is an `Outcome` or `Result` failure. An unchecked one
 * leaves the event, the store and the bucket as they were; the checked
 * `ZipException` keeps the saves made before it.
 */
module Service {
  import opened Wrappers
  import opened Domain
  import opened Entity
  import opened Requests
  import opened Storage
  import opened Providers
  import opened Lifecycle
  import opened Repository

  /** `SignatureEventResponse`: the read-only projection returned on creation. */
  datatype SignatureEventResponse = SignatureEventResponse(
    id: Uuid,
    campaignId: string,
    cnpj: string,
    provider: ProviderType,
    status: SignatureStatus,
    envelopeId: Option<string>,
    documentsGcsPath: Option<string>,
    signedDocumentsGcsPath: Option<string>,
    createdAt: Instant,
    updatedAt: Instant)

  /**
   * `toResponse(event)`: the event's columns, and the envelope id and the two
   * archive locations as far as the bag holds them as strings.
   */
  function ToResponse(row: EventRow): (r: SignatureEventResponse)
    requires row.id.Some?
    ensures Some(r.id) == row.id && r.status == row.status && r.provider == row.provider
    ensures r.campaignId == row.campaignId && r.cnpj == row.cnpj
    ensures r.createdAt == row.createdAt && r.updatedAt == row.updatedAt
    ensures r.envelopeId.Some? <==> EnvelopeIdKey in row.metadata && row.metadata[EnvelopeIdKey].Text?
    ensures r.documentsGcsPath.Some? <==> DocumentsPathKey in row.metadata && row.metadata[DocumentsPathKey].Text?
    ensures r.signedDocumentsGcsPath.Some? <==>
              SignedDocumentsPathKey in row.metadata && row.metadata[SignedDocumentsPathKey].Text?
    ensures r.envelopeId.Some? ==> row.metadata[EnvelopeIdKey] == Text(r.envelopeId.value)
    ensures r.documentsGcsPath.Some? ==> row.metadata[DocumentsPathKey] == Text(r.documentsGcsPath.value)
    ensures r.signedDocumentsGcsPath.Some? ==>
              row.metadata[SignedDocumentsPathKey] == Text(r.signedDocumentsGcsPath.value)
  {
    SignatureEventResponse(
      row.id.value, row.campaignId, row.cnpj, row.provider, row.status,
      EnvelopeIdOf(row.metadata),
      TextAt(row.metadata, DocumentsPathKey),
      TextAt(row.metadata, SignedDocumentsPathKey),
      row.createdAt, row.updatedAt)
  }

  /**
   * The row `createSignatureEvent` leaves in the store: the built entity,
   * inserted under the generated id, with the location of its documents'
   * archive recorded.
   */
  function CreatedRow(request: CreateSignatureEventRequest, newId: Uuid, bucket: string, now: Instant)
    : (r: Result<EventRow, Error>)
    ensures r.Success? <==> ParseProvider(request.provider).Success?
    ensures r.Failure? ==> r.error == NoEnumConstant(Uppercase(request.provider))
    ensures r.Success? ==>
              && r.value.id == Some(newId)
              && r.value.status == Pending
              && r.value.provider == ParseProvider(request.provider).value
              && r.value.campaignId == request.campaignId
              && r.value.cnpj == request.cnpj
              && r.value.createdAt == now && r.value.updatedAt == now
    ensures r.Success? ==>
              TextAt(r.value.metadata, DocumentsPathKey) ==
              Some(Location(bucket, DocumentsPath(request.campaignId, request.cnpj, newId)))
  {
    match ToEntity(request, now)
    case Failure(e) => Failure(e)
    case Success(row) =>
      var location := Location(bucket, DocumentsPath(row.campaignId, row.cnpj, newId));
      Success(AfterPackaging(Inserted(row, newId, now), location))
  }

  /** The created row is the built entity, inserted and packaged. */
  lemma CreatedRowOf(request: CreateSignatureEventRequest, newId: Uuid, bucket: string, now: Instant, built: EventRow)
    requires ToEntity(request, now) == Success(built)
    ensures CreatedRow(request, newId, bucket, now) ==
              Success(AfterPackaging(Inserted(built, newId, now),
                                     Location(bucket, DocumentsPath(built.campaignId, built.cnpj, newId))))
  {
  }

  /**
   * The projection returned for a created event reports PENDING and the
   * location of the documents' archive.
   */
  lemma CreatedResponse(request: CreateSignatureEventRequest, newId: Uuid, bucket: string, now: Instant)
    requires CreatedRow(request, newId, bucket, now).Success?
    ensures ToResponse(CreatedRow(request, newId, bucket, now).value).status == Pending
    ensures ToResponse(CreatedRow(request, newId, bucket, now).value).id == newId
    ensures ToResponse(CreatedRow(request, newId, bucket, now).value).documentsGcsPath ==
              Some(Location(bucket, DocumentsPath(request.campaignId, request.cnpj, newId)))
  {
  }

  /** Writing a key twice leaves only the second value. */
  lemma OverwriteTwice(rows: map<Uuid, EventRow>, id: Uuid, first: EventRow, second: EventRow)
    ensures rows[id := first][id := second] == rows[id := second]
  {
  }

  /** Moving one id from the pending set to the finished set keeps their union and counts it. */
  lemma MoveToDone(remaining: set<Uuid>, done: set<Uuid>, id: Uuid)
    requires id in remaining && remaining !! done
    ensures (remaining - {id}) + (done + {id}) == remaining + done
    ensures (remaining - {id}) !! (done + {id})
    ensures |done + {id}| == |done| + 1
  {
  }

  class SignatureEventService {
    const repository: EventRepository
    const registry: Registry
    const storage: GcsStorage

    /** Wires the service; the registry is built once from all available gateways. */
    constructor (repository: EventRepository, providers: seq<Gateway>, storage: GcsStorage)
      ensures this.repository == repository && this.storage == storage
      ensures registry == BuildRegistry(providers)
    {
      this.repository := repository;
      this.registry := BuildRegistry(providers);
      this.storage := storage;
    }

    /**
     * `createSignatureEvent`: builds the entity, inserts it, stores the
     * documents' archive, records its location and saves again. A repeated
     * document name makes the upload throw a checked `ZipException`, on which
     * the transaction commits: the first save stays.
     */
    method CreateSignatureEvent(request: CreateSignatureEventRequest, newId: Uuid, now: Instant)
      returns (r: Result<SignatureEventResponse, Error>)
      requires repository.Valid() && newId !in repository.rows
      modifies repository, storage
      ensures repository.Valid()
      ensures ToEntity(request, now).Failure? ==>
                r == Failure(ToEntity(request, now).error) && unchanged(repository) && unchanged(storage)
      ensures ToEntity(request, now).Success? && ZipArchive(ContentMaps(request.documents)).Failure? ==>
                && r == Failure(ZipArchive(ContentMaps(request.documents)).error)
                && repository.rows == old(repository.rows)[newId := Inserted(ToEntity(request, now).value, newId, now)]
                && repository.writes == old(repository.writes) + 1
                && storage.blobs == old(storage.blobs)
      ensures var created := CreatedRow(request, newId, storage.bucketName, now);
              created.Success? && ZipArchive(ContentMaps(request.documents)).Success? ==>
                && r == Success(ToResponse(created.value))
                && repository.rows == old(repository.rows)[newId := created.value]
                && repository.writes == old(repository.writes) + 2
                && storage.blobs == old(storage.blobs)[DocumentsPath(request.campaignId, request.cnpj, newId) :=
                                                         ZipArchive(ContentMaps(request.documents)).value]
    {
      var built := ToEntity(request, now);
      if built.Failure? {
        return Failure(built.error);
      }
      var saved := SaveWithDocuments(built.value, request.documents, newId, now);
      if saved.Failure? {
        return Failure(saved.error);
      }
      CreatedRowOf(request, newId, storage.bucketName, now, built.value);
      r := Success(ToResponse(saved.value));
    }

    /**
     * The rest of `createSignatureEvent` once the entity is built: the first
     * save assigns the id, the documents' archive is stored, its location is
     * recorded and the event saved again.
     */
    method SaveWithDocuments(built: EventRow, documents: seq<DocumentData>, newId: Uuid, now: Instant)
      returns (r: Result<EventRow, Error>)
      requires repository.Valid() && built.id == None && newId !in repository.rows
      modifies repository, storage
      ensures repository.Valid()
      ensures ZipArchive(ContentMaps(documents)).Failure? ==>
                && r == Failure(ZipArchive(ContentMaps(documents)).error)
                && repository.rows == old(repository.rows)[newId := Inserted(built, newId, now)]
                && repository.writes == old(repository.writes) + 1
                && storage.blobs == old(storage.blobs)
      ensures ZipArchive(ContentMaps(documents)).Success? ==>
                && r == Success(AfterPackaging(Inserted(built, newId, now),
                                               Location(storage.bucketName, DocumentsPath(built.campaignId, built.cnpj, newId))))
                && repository.rows == old(repository.rows)[newId := r.value]
                && repository.writes == old(repository.writes) + 2
                && storage.blobs == old(storage.blobs)[DocumentsPath(built.campaignId, built.cnpj, newId) :=
                                                         ZipArchive(ContentMaps(documents)).value]
    {
      var event := new SignatureEvent(built);
      repository.Insert(event, newId, now);
      ghost var afterInsert := repository.rows;
      var documentsWithContent := ContentMaps(documents);
      r := PackageDocuments(event, documentsWithContent, now);
      if r.Success? {
        OverwriteTwice(old(repository.rows), newId, afterInsert[newId], r.value);
      }
    }

    /**
     * The second half of `createSignatureEvent` for an inserted event: store
     * the archive, record its location, save again.
     */
    method PackageDocuments(event: SignatureEvent, documents: seq<map<string, string>>, now: Instant)
      returns (r: Result<EventRow, Error>)
      requires repository.Valid() && event.id.Some?
      modifies event, repository, storage
      ensures repository.Valid()
      ensures ZipArchive(documents).Failure? ==>
                && r == Failure(ZipArchive(documents).error)
                && unchanged(event) && unchanged(repository) && storage.blobs == old(storage.blobs)
      ensures ZipArchive(documents).Success? ==>
                var path := DocumentsPath(event.campaignId, event.cnpj, old(event.id).value);
                && r == Success(event.Row())
                && event.Row() == Saved(AfterPackaging(old(event.Row()), Location(storage.bucketName, path)), now)
                && repository.rows == old(repository.rows)[event.id.value := event.Row()]
                && repository.writes == old(repository.writes) + 1
                && storage.blobs == old(storage.blobs)[path := ZipArchive(documents).value]
    {
      var gcsPath := storage.UploadDocumentsZip(event.campaignId, event.cnpj, event.id.value, documents);
      if gcsPath.Failure? {
        return Failure(gcsPath.error);
      }
      event.metadata := event.metadata[DocumentsPathKey := Text(gcsPath.value)];
      repository.Save(event, now);
      r := Success(event.Row());
    }

    /**
     * `sendToProvider`: resolves the gateway, sends, records the envelope id,
     * moves to SENT with `sent_at`, saves. No status is checked first.
     */
    method SendToProvider(event: SignatureEvent, reply: Result<ProviderResponse, Error>, now: Instant)
      returns (outcome: Outcome<Error>)
      requires repository.Valid() && event.id.Some?
      modifies event, repository
      ensures repository.Valid()
      ensures GetProvider(registry, event.provider).Failure? ==>
                outcome == Fail(ProviderNotFound(event.provider)) && unchanged(event) && unchanged(repository)
      ensures GetProvider(registry, event.provider).Success? && reply.Failure? ==>
                outcome == Fail(reply.error) && unchanged(event) && unchanged(repository)
      ensures GetProvider(registry, event.provider).Success? && reply.Success? ==>
                && outcome == Pass
                && event.Row() == Saved(AfterSend(old(event.Row()), reply.value.envelopeId, now), now)
                && repository.rows == old(repository.rows)[event.id.value := event.Row()]
                && repository.writes == old(repository.writes) + 1
    {
      var provider := GetProvider(registry, event.provider);
      if provider.Failure? {
        return Fail(provider.error);
      }
      if reply.Failure? {
        return Fail(reply.error);
      }
      event.SetEnvelopeId(reply.value.envelopeId);
      event.status := Sent;
      event.metadata := event.metadata[SentAtKey := Stamp(now)];
      repository.Save(event, now);
      outcome := Pass;
    }

    /**
     * `markAsError`: loads the event (throwing when the id is unknown) and
     * moves it to ERROR from whatever status it had.
     */
    method MarkAsError(eventId: Uuid, errorMessage: Option<string>, now: Instant) returns (outcome: Outcome<Error>)
      requires repository.Valid()
      modifies repository
      ensures repository.Valid()
      ensures eventId !in old(repository.rows) ==> outcome == Fail(NoSuchElement) && unchanged(repository)
      ensures eventId in old(repository.rows) ==>
                && outcome == Pass
                && repository.rows == old(repository.rows)[eventId :=
                     Saved(AfterError(old(repository.rows)[eventId], errorMessage, now), now)]
                && repository.writes == old(repository.writes) + 1
    {
      var found := repository.FindById(eventId);
      if found.None? {
        return Fail(NoSuchElement);
      }
      var event := found.value;
      event.status := Error;
      event.metadata := event.metadata[ErrorMessageKey := Text(ErrorText(errorMessage))];
      event.metadata := event.metadata[ErrorAtKey := Stamp(now)];
      repository.Save(event, now);
      outcome := Pass;
    }

    /**
     * `checkAndUpdateStatus`: returns at once without an envelope id;
     * otherwise maps the vendor's status and saves only when it differs from
     * the current one.
     */
    method CheckAndUpdateStatus(event: SignatureEvent, reply: Result<StatusCheckResponse, Error>, now: Instant)
      returns (outcome: Outcome<Error>)
      requires repository.Valid() && event.id.Some?
      modifies event, repository
      ensures repository.Valid()
      ensures EnvelopeIdOf(old(event.metadata)).None? ==>
                outcome == Pass && unchanged(event) && unchanged(repository)
      ensures EnvelopeIdOf(old(event.metadata)).Some? && GetProvider(registry, event.provider).Failure? ==>
                outcome == Fail(ProviderNotFound(event.provider)) && unchanged(event) && unchanged(repository)
      ensures EnvelopeIdOf(old(event.metadata)).Some? && GetProvider(registry, event.provider).Success? &&
              reply.Failure? ==>
                outcome == Fail(reply.error) && unchanged(event) && unchanged(repository)
      ensures EnvelopeIdOf(old(event.metadata)).Some? && GetProvider(registry, event.provider).Success? &&
              reply.Success? && VendorStatus(reply.value.status) == old(event.status) ==>
                outcome == Pass && unchanged(event) && unchanged(repository)
      ensures EnvelopeIdOf(old(event.metadata)).Some? && GetProvider(registry, event.provider).Success? &&
              reply.Success? && VendorStatus(reply.value.status) != old(event.status) ==>
                && outcome == Pass
                && event.Row() == Saved(AfterCheck(old(event.Row()), reply.value.status, now), now)
                && repository.rows == old(repository.rows)[event.id.value := event.Row()]
                && repository.writes == old(repository.writes) + 1
    {
      var envelopeId := event.EnvelopeId();
      if envelopeId.None? {
        return Pass;
      }
      var provider := GetProvider(registry, event.provider);
      if provider.Failure? {
        return Fail(provider.error);
      }
      if reply.Failure? {
        return Fail(reply.error);
      }
      var newStatus := VendorStatus(reply.value.status);
      if newStatus != event.status {
        event.status := newStatus;
        if newStatus == Signed {
          event.metadata := event.metadata[SignedAtKey := Stamp(now)];
        }
        repository.Save(event, now);
      }
      outcome := Pass;
    }

    /**
     * `markExpiredEvents`: selects every SENT event created before now minus
     * 30 days, expires and saves each one, and returns how many there were.
     */
    method MarkExpiredEvents(now: Instant) returns (count: nat)
      requires repository.Valid()
      modifies repository
      ensures repository.Valid()
      ensures repository.rows == Sweep(old(repository.rows), now)
      ensures count == |ExpirableIds(old(repository.rows), now)|
      ensures repository.writes == old(repository.writes) + count
    {
      var thirtyDaysAgo := ExpiryCutoff(now);
      var expiredEvents := set id | id in repository.rows &&
                                    repository.rows[id].status == Sent && repository.rows[id].createdAt < thirtyDaysAgo;
      ghost var before := repository.rows;
      assert expiredEvents == ExpirableIds(before, now);
      var remaining := expiredEvents;
      ghost var done: set<Uuid> := {};
      while remaining != {}
        invariant remaining + done == expiredEvents && remaining !! done
        invariant expiredEvents <= before.Keys
        invariant repository.Valid()
        invariant SweptSoFar(before, repository.rows, done, now)
        invariant repository.writes == old(repository.writes) + |done|
        decreases remaining
      {
        var id :| id in remaining;
        ghost var current := repository.rows;
        SweptSoFarStep(before, current, done, id, now);
        var found := repository.FindById(id);
        var event := found.value;
        assert event.id == Some(id) by {
          assert event.Row() == current[id];
        }
        ExpireEvent(event, now);
        assert repository.rows == current[id := Saved(AfterExpiry(current[id], now), now)];
        MoveToDone(remaining, done, id);
        remaining := remaining - {id};
        done := done + {id};
      }
      count := |expiredEvents|;
      SweptSoFarComplete(before, repository.rows, now);
    }

    /** The body of the sweep's `forEach`: expire one loaded event and save it. */
    method ExpireEvent(event: SignatureEvent, now: Instant)
      requires repository.Valid() && event.id.Some?
      modifies event, repository
      ensures repository.Valid()
      ensures event.Row() == Saved(AfterExpiry(old(event.Row()), now), now)
      ensures repository.rows == old(repository.rows)[event.id.value := event.Row()]
      ensures repository.writes == old(repository.writes) + 1
    {
      event.status := Expired;
      event.metadata := event.metadata[ExpiredAtKey := Stamp(now)];
      event.metadata := event.metadata[ExpirationReasonKey := Text(ExpirationReasonText)];
      repository.Save(event, now);
    }

    /**
     * `downloadAndUploadSignedDocuments`: resolves the gateway first, then
     * requires an envelope id, downloads, stores the signed archive and moves
     * the event to UPLOADED. No status is checked.
     */
    method DownloadAndUploadSignedDocuments(event: SignatureEvent, reply: Result<seq<SignedDocumentData>, Error>, now: Instant)
      returns (outcome: Outcome<Error>)
      requires repository.Valid() && event.id.Some?
      modifies event, repository, storage
      ensures repository.Valid()
      ensures GetProvider(registry, event.provider).Failure? ==>
                && outcome == Fail(ProviderNotFound(event.provider))
                && unchanged(event) && unchanged(repository) && unchanged(storage)
      ensures GetProvider(registry, event.provider).Success? && EnvelopeIdOf(old(event.metadata)).None? ==>
                && outcome == Fail(IllegalState(NoEnvelopeIdMessage))
                && unchanged(event) && unchanged(repository) && unchanged(storage)
      ensures GetProvider(registry, event.provider).Success? && EnvelopeIdOf(old(event.metadata)).Some? &&
              reply.Failure? ==>
                outcome == Fail(reply.error) && unchanged(event) && unchanged(repository) && unchanged(storage)
      ensures GetProvider(registry, event.provider).Success? && EnvelopeIdOf(old(event.metadata)).Some? &&
              reply.Success? && ZipArchive(SignedContentMaps(reply.value)).Failure? ==>
                && outcome == Fail(ZipArchive(SignedContentMaps(reply.value)).error)
                && unchanged(event) && unchanged(repository) && storage.blobs == old(storage.blobs)
      ensures GetProvider(registry, event.provider).Success? && EnvelopeIdOf(old(event.metadata)).Some? &&
              reply.Success? && ZipArchive(SignedContentMaps(reply.value)).Success? ==>
                var path := SignedDocumentsPath(event.campaignId, event.cnpj, old(event.id).value);
                && outcome == Pass
                && storage.blobs == old(storage.blobs)[path := ZipArchive(SignedContentMaps(reply.value)).value]
                && event.Row() == Saved(AfterUpload(old(event.Row()), Location(storage.bucketName, path)), now)
                && repository.rows == old(repository.rows)[event.id.value := event.Row()]
                && repository.writes == old(repository.writes) + 1
    {
      var provider := GetProvider(registry, event.provider);
      if provider.Failure? {
        return Fail(provider.error);
      }
      var envelopeId := event.EnvelopeId();
      if envelopeId.None? {
        return Fail(IllegalState(NoEnvelopeIdMessage));
      }
      if reply.Failure? {
        return Fail(reply.error);
      }
      var documentsWithContent := SignedContentMaps(reply.value);
      var gcsPath := storage.UploadSignedDocumentsZip(event.campaignId, event.cnpj, event.id.value, documentsWithContent);
      if gcsPath.Failure? {
        return Fail(gcsPath.error);
      }
      event.metadata := event.metadata[SignedDocumentsPathKey := Text(gcsPath.value)];
      event.status := Uploaded;
      repository.Save(event, now);
      outcome := Pass;
    }

    /**
     * A status-check task delivered twice with the same vendor answer: the
     * store is written at most once, and the event ends in the mapped status.
     */
    method RedeliveredStatusCheck(event: SignatureEvent, reply: Result<StatusCheckResponse, Error>, t1: Instant, t2: Instant)
      requires repository.Valid() && event.id.Some?
      modifies event, repository
      ensures repository.Valid()
      ensures repository.writes <= old(repository.writes) + 1
      ensures EnvelopeIdOf(old(event.metadata)).Some? &&
              GetProvider(registry, event.provider).Success? && reply.Success? ==>
                event.status == VendorStatus(reply.value.status)
      ensures EnvelopeIdOf(old(event.metadata)).Some? && GetProvider(registry, event.provider).Success? &&
              reply.Success? && VendorStatus(reply.value.status) != old(event.status) ==>
                && event.Row() == Saved(AfterCheck(old(event.Row()), reply.value.status, t1), t1)
                && repository.rows == old(repository.rows)[event.id.value := event.Row()]
                && repository.writes == old(repository.writes) + 1
      ensures !(EnvelopeIdOf(old(event.metadata)).Some? && GetProvider(registry, event.provider).Success? &&
                reply.Success? && VendorStatus(reply.value.status) != old(event.status)) ==>
                unchanged(event) && unchanged(repository)
    {
      var first := CheckAndUpdateStatus(event, reply, t1);
      var second := CheckAndUpdateStatus(event, reply, t2);
    }

    /** Two sweeps at the same time: the second expires nothing. */
    method RepeatedSweep(now: Instant) returns (first: nat, second: nat)
      requires repository.Valid()
      modifies repository
      ensures repository.Valid()
      ensures second == 0
      ensures repository.rows == Sweep(old(repository.rows), now)
    {
      first := MarkExpiredEvents(now);
      SweepIdempotent(old(repository.rows), now);
      second := MarkExpiredEvents(now);
    }
  }
}
