/**
 * The vocabulary of the signature service: the two enums, the JSON-like
 * metadata bag, the persisted shape of a signature event and the exceptions
 * the service operations can raise.
 */
module Domain {
  import opened Wrappers

  /** `SignatureStatus`: the lifecycle states of an event. */
  datatype SignatureStatus = Pending | Sent | Signed | Rejected | Uploaded | Error | Expired

  /** `SignatureProvider` (the enum): the e-signature vendors. */
  datatype ProviderType = Certisign | Docusign
  {
    /** The enum constant's name, as `valueOf` matches it. */
    function Name(): string
    {
      match this
      case Certisign => "CERTISIGN"
      case Docusign => "DOCUSIGN"
    }
  }

  /** A point on the local clock (`LocalDateTime`), counted in nanoseconds. */
  type Instant = int

  /** A generated event id, represented by its canonical text. */
  type Uuid = string

  /**
   * A value stored in the JSONB metadata column. `Stamp(t)` stands for the
   * text `LocalDateTime.toString()` produces for the instant `t`.
   */
  datatype Value =
    | Null
    | Bool(b: bool)
    | Num(n: int)
    | Text(s: string)
    | Stamp(at: Instant)
    | Items(elems: seq<Value>)
    | Fields(entries: map<string, Value>)

  /** The `metadata: MutableMap<String, Any>` bag of an event. */
  type Metadata = map<string, Value>

  // Keys the service writes into the metadata bag.
  const EnvelopeIdKey: string := "envelope_id"
  const RequestsKey: string := "requests"
  const ResponsesKey: string := "responses"
  const DocumentsKey: string := "documents"
  const SignerKey: string := "signer"
  const DocumentsPathKey: string := "documents_gcs_path"
  const SignedDocumentsPathKey: string := "signed_documents_gcs_path"
  const SentAtKey: string := "sent_at"
  const SignedAtKey: string := "signed_at"
  const ErrorMessageKey: string := "error_message"
  const ErrorAtKey: string := "error_at"
  const ExpiredAtKey: string := "expired_at"
  const ExpirationReasonKey: string := "expiration_reason"

  const UnknownErrorText: string := "Unknown error"
  const ExpirationReasonText: string := "30 days without signature"
  const NoEnvelopeIdMessage: string := "No envelope ID"

  /** The columns of one `signature_events` row: a snapshot of a `SignatureEvent`. */
  datatype EventRow = EventRow(
    id: Option<Uuid>,
    campaignId: string,
    cnpj: string,
    provider: ProviderType,
    status: SignatureStatus,
    metadata: Metadata,
    createdAt: Instant,
    updatedAt: Instant)

  /** The exceptions the modelled operations throw. */
  datatype Error =
    | NoEnumConstant(name: string)              // SignatureProvider.valueOf on an unknown name
    | ProviderNotFound(providerType: ProviderType) // no gateway registered for the provider
    | NoSuchElement                             // findById(..).orElseThrow() on a missing id
    | IllegalState(message: string)             // a required metadata entry is missing
    | NotAList(key: string)                     // the list cast fails: ClassCastException, or NullPointerException on a JSON null
    | VendorFailure(message: string)            // a call into the vendor's API failed
    | DuplicateZipEntry(entryName: string)      // ZipException: two archive entries share a name

  /** Two snapshots of the same event: the fields no operation may change agree. */
  predicate SameIdentity(a: EventRow, b: EventRow)
  {
    a.id == b.id && a.campaignId == b.campaignId && a.cnpj == b.cnpj &&
    a.provider == b.provider && a.createdAt == b.createdAt
  }

  /** Every key outside `keys` is absent from both bags or bound to the same value in both. */
  ghost predicate OnlyKeysChanged(before: Metadata, after: Metadata, keys: set<string>)
  {
    forall k :: k !in keys ==> (k in before <==> k in after) && (k in before ==> before[k] == after[k])
  }

  /** `metadata[key] as? String`. */
  function TextAt(meta: Metadata, key: string): (r: Option<string>)
    ensures r.Some? <==> key in meta && meta[key].Text?
    ensures r.Some? ==> meta[key] == Text(r.value)
  {
    if key in meta && meta[key].Text? then Some(meta[key].s) else None
  }

  /** A row as a save leaves it: `@UpdateTimestamp` sets `updatedAt` to the time of the save. */
  function Saved(row: EventRow, now: Instant): (r: EventRow)
    ensures SameIdentity(row, r) && r.status == row.status && r.metadata == row.metadata
    ensures r.updatedAt == now
  {
    row.(updatedAt := now)
  }

  /**
   * A row as its first save leaves it: the generated id is assigned and
   * `@CreationTimestamp` / `@UpdateTimestamp` both take the time of the save.
   */
  function Inserted(row: EventRow, id: Uuid, now: Instant): (r: EventRow)
    ensures r.id == Some(id) && r.createdAt == now && r.updatedAt == now
    ensures r.campaignId == row.campaignId && r.cnpj == row.cnpj && r.provider == row.provider
    ensures r.status == row.status && r.metadata == row.metadata
  {
    row.(id := Some(id), createdAt := now, updatedAt := now)
  }

  /**
   * Kotlin's `Char.uppercase()` (locale-independent), as far as it can decide
   * whether the result is the name of a provider: ASCII letters, the dotless
   * i (U+0131) and the long s (U+017F) become the ASCII capitals; every other
   * character is kept, and no other character has an upper case that occurs
   * in a provider name.
   */
  function UpperChar(c: char): (u: char)
    ensures 'a' <= c <= 'z' ==> u as int == c as int - 32
    ensures 'A' <= u <= 'Z' <==> 'A' <= c <= 'Z' || 'a' <= c <= 'z' || c == 'ı' || c == 'ſ'
    ensures !('a' <= c <= 'z') && c != 'ı' && c != 'ſ' ==> u == c
  {
    if 'a' <= c <= 'z' then (c as int - 32) as char
    else if c == 'ı' then 'I'
    else if c == 'ſ' then 'S'
    else c
  }

  /** `String.uppercase()`, character by character. */
  function Uppercase(s: string): (r: string)
    ensures |r| == |s|
    ensures forall i :: 0 <= i < |s| ==> r[i] == UpperChar(s[i])
  {
    if s == [] then [] else [UpperChar(s[0])] + Uppercase(s[1..])
  }

  /** `SignatureProvider.valueOf(name.uppercase())`. */
  function ParseProvider(name: string): (r: Result<ProviderType, Error>)
    ensures r.Success? ==> Uppercase(name) == r.value.Name()
    ensures r.Failure? ==> r.error == NoEnumConstant(Uppercase(name))
    ensures r.Failure? ==> forall p: ProviderType :: Uppercase(name) != p.Name()
  {
    var upper := Uppercase(name);
    if upper == Certisign.Name() then Success(Certisign)
    else if upper == Docusign.Name() then Success(Docusign)
    else Failure(NoEnumConstant(upper))
  }

  /** Every spelling whose upper case is a provider's name parses to that provider. */
  lemma ParseProviderAnyCase(name: string, p: ProviderType)
    requires Uppercase(name) == p.Name()
    ensures ParseProvider(name) == Success(p)
  {
  }

  /** The enum names themselves parse back to their providers. */
  lemma ParseProviderName(p: ProviderType)
    ensures ParseProvider(p.Name()) == Success(p)
  {
    var n := p.Name();
    assert Uppercase(n) == n by {
      forall i | 0 <= i < |n| ensures Uppercase(n)[i] == n[i] { }
    }
  }
}
