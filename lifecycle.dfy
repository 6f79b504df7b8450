/**
 * The state changes `SignatureEventService` makes to an event, as functions
 * on the event's column values, and what they promise: which fields and
 * metadata keys each one touches, the vendor-status mapping, the save-only-
 * on-change rule, the 30-day expiry sweep, and where the code does not keep
 * to the transition table of the intended lifecycle.
 */
module Lifecycle {
  import opened Wrappers
  import opened Domain
  import opened Entity

  const ExpiryWindowDays: int := 30
  const TicksPerDay: int := 86_400_000_000_000

  /** `LocalDateTime.now().minusDays(30)`: a zone-free clock, so exactly 30 days of ticks. */
  function ExpiryCutoff(now: Instant): (cutoff: Instant)
    ensures cutoff < now
    ensures now - cutoff == 30 * 86_400_000_000_000
  {
    now - ExpiryWindowDays * TicksPerDay
  }

  /** `sendToProvider` after the vendor answered: envelope id recorded, SENT, `sent_at` stamped. */
  function AfterSend(row: EventRow, envelopeId: string, now: Instant): (r: EventRow)
    ensures SameIdentity(row, r) && r.updatedAt == row.updatedAt
    ensures r.status == Sent
    ensures EnvelopeIdOf(r.metadata) == Some(envelopeId)
    ensures SentAtKey in r.metadata && r.metadata[SentAtKey] == Stamp(now)
    ensures OnlyKeysChanged(row.metadata, r.metadata, {EnvelopeIdKey, SentAtKey})
  {
    row.(status := Sent, metadata := WithEnvelopeId(row.metadata, envelopeId)[SentAtKey := Stamp(now)])
  }

  /** `errorMessage ?: "Unknown error"`: the caller's message when there is one. */
  function ErrorText(message: Option<string>): (text: string)
    ensures message.Some? ==> text == message.value
    ensures message.None? ==> text == "Unknown error"
  {
    match message
    case Some(m) => m
    case None => UnknownErrorText
  }

  /** `markAsError` on a found event: ERROR whatever the prior status, message and time recorded. */
  function AfterError(row: EventRow, message: Option<string>, now: Instant): (r: EventRow)
    ensures SameIdentity(row, r) && r.updatedAt == row.updatedAt
    ensures r.status == Error
    ensures TextAt(r.metadata, ErrorMessageKey) == Some(if message.Some? then message.value else "Unknown error")
    ensures ErrorAtKey in r.metadata && r.metadata[ErrorAtKey] == Stamp(now)
    ensures OnlyKeysChanged(row.metadata, r.metadata, {ErrorMessageKey, ErrorAtKey})
  {
    row.(status := Error, metadata := row.metadata[ErrorMessageKey := Text(ErrorText(message))][ErrorAtKey := Stamp(now)])
  }

  /** The `when` of `checkAndUpdateStatus`: the vendor's status string as a lifecycle status. */
  function VendorStatus(answer: string): (s: SignatureStatus)
    ensures s == Signed <==> answer == "SIGNED"
    ensures s == Rejected <==> answer == "REJECTED"
    ensures s == Sent <==> answer != "SIGNED" && answer != "REJECTED"
  {
    if answer == "SIGNED" then Signed
    else if answer == "REJECTED" then Rejected
    else Sent
  }

  /**
   * `checkAndUpdateStatus` after the vendor answered: the event takes the
   * mapped status; only a change is applied, and `signed_at` is stamped only
   * on a change to SIGNED.
   */
  function AfterCheck(row: EventRow, answer: string, now: Instant): (r: EventRow)
    ensures SameIdentity(row, r) && r.updatedAt == row.updatedAt
    ensures r.status == VendorStatus(answer)
    ensures r == row <==> row.status == VendorStatus(answer)
    ensures OnlyKeysChanged(row.metadata, r.metadata, {SignedAtKey})
    ensures row.status != Signed && r.status == Signed ==>
              SignedAtKey in r.metadata && r.metadata[SignedAtKey] == Stamp(now)
    ensures !(row.status != Signed && r.status == Signed) ==> r.metadata == row.metadata
  {
    var next := VendorStatus(answer);
    if next == row.status then row
    else row.(status := next, metadata := if next == Signed then row.metadata[SignedAtKey := Stamp(now)] else row.metadata)
  }

  /**
   * A redelivered check with the same vendor answer finds nothing to change,
   * so the operation performs no second save.
   */
  lemma CheckTwice(row: EventRow, answer: string, t1: Instant, t2: Instant)
    ensures AfterCheck(AfterCheck(row, answer, t1), answer, t2) == AfterCheck(row, answer, t1)
    ensures AfterCheck(row, answer, t1).status == VendorStatus(answer)
  {
  }

  /** The filter of `markExpiredEvents`: SENT and created before now minus 30 days. */
  predicate Expirable(row: EventRow, now: Instant): (selected: bool)
    ensures selected <==> row.status == Sent && now - row.createdAt > 30 * 86_400_000_000_000
  {
    row.status == Sent && row.createdAt < ExpiryCutoff(now)
  }

  /** One event as the sweep leaves it: EXPIRED, with time and reason recorded. */
  function AfterExpiry(row: EventRow, now: Instant): (r: EventRow)
    ensures SameIdentity(row, r) && r.updatedAt == row.updatedAt
    ensures r.status == Expired
    ensures ExpiredAtKey in r.metadata && r.metadata[ExpiredAtKey] == Stamp(now)
    ensures TextAt(r.metadata, ExpirationReasonKey) == Some("30 days without signature")
    ensures OnlyKeysChanged(row.metadata, r.metadata, {ExpiredAtKey, ExpirationReasonKey})
  {
    row.(status := Expired, metadata := row.metadata[ExpiredAtKey := Stamp(now)][ExpirationReasonKey := Text(ExpirationReasonText)])
  }

  /** The ids the sweep selects. */
  function ExpirableIds(rows: map<Uuid, EventRow>, now: Instant): (ids: set<Uuid>)
    ensures ids <= rows.Keys
    ensures forall id :: id in rows ==> (id in ids <==> Expirable(rows[id], now))
  {
    set id | id in rows && Expirable(rows[id], now)
  }

  /** The whole store after `markExpiredEvents`: each selected event expired and saved. */
  function Sweep(rows: map<Uuid, EventRow>, now: Instant): (r: map<Uuid, EventRow>)
    ensures r.Keys == rows.Keys
    ensures forall id :: id in rows ==> (r[id] != rows[id] <==> Expirable(rows[id], now))
    ensures forall id :: id in rows && Expirable(rows[id], now) ==>
              r[id].status == Expired && SameIdentity(rows[id], r[id]) && r[id].updatedAt == now
    ensures forall id :: id in rows && Expirable(rows[id], now) ==>
              && ExpiredAtKey in r[id].metadata && r[id].metadata[ExpiredAtKey] == Stamp(now)
              && TextAt(r[id].metadata, ExpirationReasonKey) == Some("30 days without signature")
              && OnlyKeysChanged(rows[id].metadata, r[id].metadata, {ExpiredAtKey, ExpirationReasonKey})
  {
    map id | id in rows :: if Expirable(rows[id], now) then Saved(AfterExpiry(rows[id], now), now) else rows[id]
  }

  /** The store part-way through a sweep: the ids in `done` are expired and saved, every other row is as before. */
  ghost predicate SweptSoFar(before: map<Uuid, EventRow>, current: map<Uuid, EventRow>, done: set<Uuid>, now: Instant)
  {
    && current.Keys == before.Keys
    && forall id :: id in before ==>
         current[id] == if id in done then Saved(AfterExpiry(before[id], now), now) else before[id]
  }

  /** Expiring one more untouched event extends a partial sweep by that event. */
  lemma SweptSoFarStep(before: map<Uuid, EventRow>, current: map<Uuid, EventRow>, done: set<Uuid>, id: Uuid, now: Instant)
    requires SweptSoFar(before, current, done, now)
    requires id in before && id !in done
    ensures current[id] == before[id]
    ensures SweptSoFar(before, current[id := Saved(AfterExpiry(current[id], now), now)], done + {id}, now)
  {
  }

  /** A partial sweep that has done exactly the selected ids is the whole sweep. */
  lemma SweptSoFarComplete(before: map<Uuid, EventRow>, current: map<Uuid, EventRow>, now: Instant)
    requires SweptSoFar(before, current, ExpirableIds(before, now), now)
    ensures current == Sweep(before, now)
  {
    var swept := Sweep(before, now);
    assert current.Keys == swept.Keys;
    forall id | id in current ensures current[id] == swept[id] { }
  }

  /** A second sweep at the same time selects nothing and changes nothing. */
  lemma SweepIdempotent(rows: map<Uuid, EventRow>, now: Instant)
    ensures ExpirableIds(Sweep(rows, now), now) == {}
    ensures Sweep(Sweep(rows, now), now) == Sweep(rows, now)
  {
    var once := Sweep(rows, now);
    forall id | id in once
      ensures !Expirable(once[id], now)
    {
      if Expirable(rows[id], now) {
        assert once[id].status == Expired;
      } else {
        assert once[id] == rows[id];
      }
    }
    var twice := Sweep(once, now);
    assert twice.Keys == once.Keys;
    forall id | id in twice ensures twice[id] == once[id] { }
    assert forall id :: id in once ==> id !in ExpirableIds(once, now);
  }

  /** The sweep only ever moves SENT events to EXPIRED, and never touches a recent event. */
  lemma SweepOnlyExpiresOldSent(rows: map<Uuid, EventRow>, now: Instant, id: Uuid)
    requires id in rows
    ensures Sweep(rows, now)[id] != rows[id] ==>
              rows[id].status == Sent && Sweep(rows, now)[id].status == Expired
    ensures rows[id].createdAt >= ExpiryCutoff(now) ==> Sweep(rows, now)[id] == rows[id]
  {
  }

  /** `downloadAndUploadSignedDocuments` after the upload: UPLOADED, with the archive location. */
  function AfterUpload(row: EventRow, location: string): (r: EventRow)
    ensures SameIdentity(row, r) && r.updatedAt == row.updatedAt
    ensures r.status == Uploaded
    ensures TextAt(r.metadata, SignedDocumentsPathKey) == Some(location)
    ensures OnlyKeysChanged(row.metadata, r.metadata, {SignedDocumentsPathKey})
  {
    row.(status := Uploaded, metadata := row.metadata[SignedDocumentsPathKey := Text(location)])
  }

  /** `createSignatureEvent` after the first save and the upload: the documents' location recorded. */
  function AfterPackaging(row: EventRow, location: string): (r: EventRow)
    ensures SameIdentity(row, r) && r.status == row.status && r.updatedAt == row.updatedAt
    ensures TextAt(r.metadata, DocumentsPathKey) == Some(location)
    ensures OnlyKeysChanged(row.metadata, r.metadata, {DocumentsPathKey})
  {
    row.(metadata := row.metadata[DocumentsPathKey := Text(location)])
  }

  /**
   * The transition table of the intended lifecycle: PENDING to SENT; SENT to SIGNED,
   * REJECTED, SENT or EXPIRED; SIGNED to UPLOADED; PENDING, SENT or SIGNED to
   * ERROR.
   */
  predicate TableAllows(from: SignatureStatus, to: SignatureStatus)
  {
    || (from == Pending && to == Sent)
    || (from == Sent && to in {Signed, Rejected, Sent, Expired})
    || (from == Signed && to == Uploaded)
    || (from in {Pending, Sent, Signed} && to == Error)
  }

  /** Where the code's own guards or the caller's state keep it on the table. */
  lemma GuardedStepsFollowTable(row: EventRow, answer: string, envelopeId: string, location: string, now: Instant)
    ensures row.status == Pending ==> TableAllows(row.status, AfterSend(row, envelopeId, now).status)
    ensures row.status == Sent ==> TableAllows(row.status, AfterCheck(row, answer, now).status)
    ensures Expirable(row, now) ==> TableAllows(row.status, AfterExpiry(row, now).status)
    ensures row.status == Signed ==> TableAllows(row.status, AfterUpload(row, location).status)
    ensures row.status in {Pending, Sent, Signed} ==> TableAllows(row.status, AfterError(row, None, now).status)
  {
  }

  /** `checkAndUpdateStatus` has no status guard: a REJECTED event goes back to SENT on any other answer. */
  lemma CheckRevivesRejected(row: EventRow, answer: string, now: Instant)
    requires row.status == Rejected && answer != "SIGNED" && answer != "REJECTED"
    ensures AfterCheck(row, answer, now).status == Sent
    ensures !TableAllows(Rejected, Sent)
  {
  }

  /** An UPLOADED event whose vendor still reports SIGNED drops back to SIGNED, with `signed_at` stamped anew. */
  lemma CheckDemotesUploaded(row: EventRow, now: Instant)
    requires row.status == Uploaded
    ensures AfterCheck(row, "SIGNED", now).status == Signed
    ensures AfterCheck(row, "SIGNED", now).metadata[SignedAtKey] == Stamp(now)
    ensures !TableAllows(Uploaded, Signed)
  {
  }

  /** `sendToProvider` has no guard: a second send replaces the envelope id already recorded. */
  lemma ResendReplacesEnvelopeId(row: EventRow, first: string, second: string, now: Instant)
    requires EnvelopeIdOf(row.metadata) == Some(first) && first != second
    ensures EnvelopeIdOf(AfterSend(row, second, now).metadata) == Some(second)
    ensures EnvelopeIdOf(AfterSend(row, second, now).metadata) != EnvelopeIdOf(row.metadata)
  {
  }

  /** `markAsError` has no guard: it leaves a terminal status too. */
  lemma ErrorLeavesTerminalStates(row: EventRow, message: Option<string>, now: Instant)
    requires row.status in {Uploaded, Expired, Rejected, Error}
    ensures AfterError(row, message, now).status == Error
    ensures row.status != Error ==> !TableAllows(row.status, Error)
  {
  }

  /** `downloadAndUploadSignedDocuments` checks the envelope id but not the status: a SENT or PENDING event becomes UPLOADED. */
  lemma UploadSkipsSigned(row: EventRow, location: string)
    requires row.status in {Pending, Sent}
    ensures AfterUpload(row, location).status == Uploaded
    ensures !TableAllows(row.status, Uploaded)
  {
  }
}
