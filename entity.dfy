/**
 * The `SignatureEvent` entity: an object whose status and metadata bag the
 * service updates in place, and the pure metadata operations its helper
 * methods perform.
 */
module Entity {
  import opened Wrappers
  import opened Domain

  /** `getEnvelopeId()`: the envelope id, when the bag holds it as a string. */
  function EnvelopeIdOf(meta: Metadata): (r: Option<string>)
    ensures r.Some? <==> EnvelopeIdKey in meta && meta[EnvelopeIdKey].Text?
    ensures r.Some? ==> meta[EnvelopeIdKey] == Text(r.value)
  {
    TextAt(meta, EnvelopeIdKey)
  }

  /** `setEnvelopeId(envelopeId)` on the bag: the id reads back, nothing else moves. */
  function WithEnvelopeId(meta: Metadata, envelopeId: string): (r: Metadata)
    ensures EnvelopeIdOf(r) == Some(envelopeId)
    ensures OnlyKeysChanged(meta, r, {EnvelopeIdKey})
  {
    meta[EnvelopeIdKey := Text(envelopeId)]
  }

  /** One `{timestamp, payload}` entry of the `requests` or `responses` trace. */
  function TraceEntry(payload: map<string, Value>, now: Instant): (entry: Value)
    ensures entry.Fields? && entry.entries.Keys == {"timestamp", "payload"}
    ensures entry.entries["timestamp"] == Stamp(now) && entry.entries["payload"] == Fields(payload)
  {
    Fields(map["timestamp" := Stamp(now), "payload" := Fields(payload)])
  }

  /** The trace stored under `key`; a missing key reads as the empty list. */
  function TraceOf(meta: Metadata, key: string): (trace: seq<Value>)
    ensures key in meta && meta[key].Items? ==> trace == meta[key].elems
    ensures key !in meta ==> trace == []
  {
    if key in meta && meta[key].Items? then meta[key].elems else []
  }

  /**
   * `addRequest` / `addResponse` on the bag: `getOrDefault(key, [])` cast to a
   * mutable list, one entry appended, the list stored back. The cast throws
   * when the key holds anything but a list (a caller may have put any value
   * there at creation): a `ClassCastException`, or a `NullPointerException`
   * for a JSON null; both are the one `NotAList` failure here.
   */
  function AppendTrace(meta: Metadata, key: string, payload: map<string, Value>, now: Instant)
    : (r: Result<Metadata, Error>)
    ensures r.Failure? <==> key in meta && !meta[key].Items?
    ensures r.Failure? ==> r.error == NotAList(key)
    ensures r.Success? ==> key in r.value && r.value[key].Items?
    ensures r.Success? ==> TraceOf(r.value, key) == TraceOf(meta, key) + [TraceEntry(payload, now)]
    ensures r.Success? ==> OnlyKeysChanged(meta, r.value, {key})
  {
    if key !in meta then Success(meta[key := Items([TraceEntry(payload, now)])])
    else if meta[key].Items? then Success(meta[key := Items(meta[key].elems + [TraceEntry(payload, now)])])
    else Failure(NotAList(key))
  }

  /**
   * Two successive appends to one trace keep both entries, in call order,
   * after every entry that was already there.
   */
  lemma AppendTraceTwice(meta: Metadata, key: string, p1: map<string, Value>, p2: map<string, Value>, t1: Instant, t2: Instant)
    requires AppendTrace(meta, key, p1, t1).Success?
    ensures AppendTrace(AppendTrace(meta, key, p1, t1).value, key, p2, t2).Success?
    ensures TraceOf(AppendTrace(AppendTrace(meta, key, p1, t1).value, key, p2, t2).value, key)
         == TraceOf(meta, key) + [TraceEntry(p1, t1), TraceEntry(p2, t2)]
  {
    var once := AppendTrace(meta, key, p1, t1).value;
    var twice := AppendTrace(once, key, p2, t2).value;
    assert TraceOf(twice, key) == (TraceOf(meta, key) + [TraceEntry(p1, t1)]) + [TraceEntry(p2, t2)];
  }

  /** The JPA entity `SignatureEvent`. */
  class SignatureEvent {
    var id: Option<Uuid>
    const campaignId: string
    const cnpj: string
    const provider: ProviderType
    var status: SignatureStatus
    var metadata: Metadata
    var createdAt: Instant
    var updatedAt: Instant

    /** The event's current column values. */
    function Row(): EventRow
      reads this
    {
      EventRow(id, campaignId, cnpj, provider, status, metadata, createdAt, updatedAt)
    }

    /** Builds an entity object holding the given column values. */
    constructor (row: EventRow)
      ensures Row() == row
    {
      id := row.id;
      campaignId := row.campaignId;
      cnpj := row.cnpj;
      provider := row.provider;
      status := row.status;
      metadata := row.metadata;
      createdAt := row.createdAt;
      updatedAt := row.updatedAt;
    }

    /** `getEnvelopeId()`: present exactly when the bag holds a string under `envelope_id`. */
    function EnvelopeId(): (r: Option<string>)
      reads this
      ensures r.Some? <==> EnvelopeIdKey in metadata && metadata[EnvelopeIdKey].Text?
      ensures r.Some? ==> metadata[EnvelopeIdKey] == Text(r.value)
    {
      EnvelopeIdOf(metadata)
    }

    /** `setEnvelopeId(envelopeId)`. */
    method SetEnvelopeId(envelopeId: string)
      modifies this
      ensures Row() == old(Row()).(metadata := WithEnvelopeId(old(metadata), envelopeId))
      ensures EnvelopeId() == Some(envelopeId)
    {
      metadata := metadata[EnvelopeIdKey := Text(envelopeId)];
    }

    /** `addRequest(request)`: appends one timestamped entry to the `requests` trace. */
    method AddRequest(request: map<string, Value>, now: Instant) returns (outcome: Outcome<Error>)
      modifies this
      ensures AppendTrace(old(metadata), RequestsKey, request, now).Failure? ==>
                outcome == Fail(NotAList(RequestsKey)) && Row() == old(Row())
      ensures AppendTrace(old(metadata), RequestsKey, request, now).Success? ==>
                outcome == Pass &&
                Row() == old(Row()).(metadata := AppendTrace(old(metadata), RequestsKey, request, now).value)
    {
      outcome := Append(RequestsKey, request, now);
    }

    /** `addResponse(response)`: appends one timestamped entry to the `responses` trace. */
    method AddResponse(response: map<string, Value>, now: Instant) returns (outcome: Outcome<Error>)
      modifies this
      ensures AppendTrace(old(metadata), ResponsesKey, response, now).Failure? ==>
                outcome == Fail(NotAList(ResponsesKey)) && Row() == old(Row())
      ensures AppendTrace(old(metadata), ResponsesKey, response, now).Success? ==>
                outcome == Pass &&
                Row() == old(Row()).(metadata := AppendTrace(old(metadata), ResponsesKey, response, now).value)
    {
      outcome := Append(ResponsesKey, response, now);
    }

    /** The body shared by `addRequest` and `addResponse`. */
    method Append(key: string, payload: map<string, Value>, now: Instant) returns (outcome: Outcome<Error>)
      modifies this
      ensures AppendTrace(old(metadata), key, payload, now).Failure? ==>
                outcome == Fail(NotAList(key)) && Row() == old(Row())
      ensures AppendTrace(old(metadata), key, payload, now).Success? ==>
                outcome == Pass &&
                Row() == old(Row()).(metadata := AppendTrace(old(metadata), key, payload, now).value)
    {
      var trace: seq<Value>;
      if key !in metadata {
        trace := [];
      } else if metadata[key].Items? {
        trace := metadata[key].elems;
      } else {
        return Fail(NotAList(key));
      }
      trace := trace + [TraceEntry(payload, now)];
      metadata := metadata[key := Items(trace)];
      outcome := Pass;
    }
  }
}
