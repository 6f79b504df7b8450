/** `CreateSignatureEventRequest` and its `toEntity` conversion. */
module Requests {
  import opened Wrappers
  import opened Domain
  import opened Storage

  /** `DocumentData`: one input document. */
  datatype DocumentData = DocumentData(fileName: string, base64Content: string)

  /** The creation request as the HTTP layer hands it over (already validated there). */
  datatype CreateSignatureEventRequest = CreateSignatureEventRequest(
    campaignId: string,
    cnpj: string,
    provider: string,
    documents: seq<DocumentData>,
    signerName: string,
    signerEmail: string,
    signerCpf: Option<string>,
    metadata: Option<map<string, Value>>)

  /** `DocumentData.toMap()`: only the file name goes into the metadata bag, never the content. */
  function DocumentEntry(doc: DocumentData): (entry: Value)
    ensures entry.Fields? && entry.entries.Keys == {"fileName"}
    ensures entry.entries["fileName"] == Text(doc.fileName)
  {
    Fields(map["fileName" := Text(doc.fileName)])
  }

  /** `documents.map { it.toMap() }`. */
  function DocumentList(docs: seq<DocumentData>): (v: Value)
    ensures v.Items? && |v.elems| == |docs|
    ensures forall i :: 0 <= i < |docs| ==> v.elems[i] == DocumentEntry(docs[i])
  {
    Items(seq(|docs|, i requires 0 <= i < |docs| => DocumentEntry(docs[i])))
  }

  /** The `signer` record; a missing CPF is stored as JSON null. */
  function SignerRecord(request: CreateSignatureEventRequest): (signer: Value)
    ensures signer.Fields? && signer.entries.Keys == {"name", "email", "cpf"}
    ensures signer.entries["name"] == Text(request.signerName)
    ensures signer.entries["email"] == Text(request.signerEmail)
    ensures signer.entries["cpf"] == Null <==> request.signerCpf.None?
    ensures request.signerCpf.Some? ==> signer.entries["cpf"] == Text(request.signerCpf.value)
  {
    Fields(map[
      "name" := Text(request.signerName),
      "email" := Text(request.signerEmail),
      "cpf" := if request.signerCpf.Some? then Text(request.signerCpf.value) else Null])
  }

  /** The caller's metadata; `null` contributes nothing. */
  function CallerMetadata(request: CreateSignatureEventRequest): (extra: Metadata)
    ensures request.metadata.Some? ==> extra == request.metadata.value
    ensures request.metadata.None? ==> extra == map[]
  {
    if request.metadata.Some? then request.metadata.value else map[]
  }

  /**
   * `toEntity()`: a PENDING event for the parsed provider, whose bag holds the
   * document names and the signer, then every caller entry on top (so a
   * caller entry under `documents` or `signer` replaces the service's own).
   * An unknown provider name throws before anything is built.
   */
  function ToEntity(request: CreateSignatureEventRequest, now: Instant): (r: Result<EventRow, Error>)
    ensures r.Success? <==> ParseProvider(request.provider).Success?
    ensures r.Failure? ==> r.error == ParseProvider(request.provider).error
    ensures r.Success? ==>
              && r.value.id == None
              && r.value.status == Pending
              && r.value.provider == ParseProvider(request.provider).value
              && r.value.campaignId == request.campaignId
              && r.value.cnpj == request.cnpj
              && r.value.createdAt == now && r.value.updatedAt == now
    ensures r.Success? ==> r.value.metadata.Keys == {DocumentsKey, SignerKey} + CallerMetadata(request).Keys
    ensures r.Success? ==>
              forall k :: k in CallerMetadata(request) ==> r.value.metadata[k] == CallerMetadata(request)[k]
    ensures r.Success? && DocumentsKey !in CallerMetadata(request) ==>
              r.value.metadata[DocumentsKey] == DocumentList(request.documents)
    ensures r.Success? && SignerKey !in CallerMetadata(request) ==>
              r.value.metadata[SignerKey] == SignerRecord(request)
  {
    match ParseProvider(request.provider)
    case Failure(e) => Failure(e)
    case Success(p) =>
      var own := map[DocumentsKey := DocumentList(request.documents), SignerKey := SignerRecord(request)];
      Success(EventRow(None, request.campaignId, request.cnpj, p, Pending, own + CallerMetadata(request), now, now))
  }

  /**
   * The caller's metadata can pre-set the envelope id: the new PENDING event
   * then already answers `getEnvelopeId()` with it.
   */
  lemma CallerCanPresetEnvelopeId(request: CreateSignatureEventRequest, now: Instant, envelopeId: string)
    requires ParseProvider(request.provider).Success?
    requires request.metadata == Some(map[EnvelopeIdKey := Text(envelopeId)])
    ensures ToEntity(request, now).Success?
    ensures ToEntity(request, now).value.status == Pending
    ensures TextAt(ToEntity(request, now).value.metadata, EnvelopeIdKey) == Some(envelopeId)
  {
  }

  /** `documentsWithContent`: file name and Base64 content of each input document. */
  function ContentMaps(docs: seq<DocumentData>): (maps: seq<map<string, string>>)
    ensures |maps| == |docs|
    ensures forall i :: 0 <= i < |docs| ==>
              maps[i].Keys == {"fileName", "content"} &&
              maps[i]["fileName"] == docs[i].fileName && maps[i]["content"] == docs[i].base64Content
  {
    seq(|docs|, i requires 0 <= i < |docs| => map["fileName" := docs[i].fileName, "content" := docs[i].base64Content])
  }

  /**
   * The archive of the input documents has one entry per document, named by
   * its file name and holding its content: the default name never applies.
   * It can be written exactly when no two documents share a file name.
   */
  lemma ArchiveOfRequestDocuments(docs: seq<DocumentData>)
    ensures |Archive(ContentMaps(docs))| == |docs|
    ensures forall i :: 0 <= i < |docs| ==>
              Archive(ContentMaps(docs))[i] == ArchiveEntry(docs[i].fileName, docs[i].base64Content)
    ensures ZipArchive(ContentMaps(docs)).Success? <==>
              forall i, j :: 0 <= i < j < |docs| ==> docs[i].fileName != docs[j].fileName
  {
    var maps := ContentMaps(docs);
    assert forall i :: 0 <= i < |docs| ==> EntryOf(maps[i]).name == docs[i].fileName;
  }
}
