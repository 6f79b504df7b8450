/**
 * The vendor boundary: the values a `SignatureProvider` implementation
 * returns, and `SignatureProviderFactory`, the registry that picks the
 * implementation for a provider type.
 */
module Providers {
  import opened Wrappers
  import opened Domain
  import opened Storage

  /** `ProviderResponse`: the answer to `sendEnvelope`. */
  datatype ProviderResponse = ProviderResponse(envelopeId: string, status: string, rawResponse: map<string, Value>)

  /** `StatusCheckResponse`: the answer to `checkStatus`. */
  datatype StatusCheckResponse = StatusCheckResponse(status: string, signedAt: Option<string>, rawResponse: map<string, Value>)

  /** `SignedDocumentData`: one document returned by `downloadSignedDocuments`. */
  datatype SignedDocumentData = SignedDocumentData(documentId: string, documentName: string, base64Content: string)

  /**
   * A registered `SignatureProvider` implementation, known by a name and by the
   * type its `getProviderType()` declares. Its calls are not modelled: their
   * answers are inputs of the service operations.
   */
  datatype Gateway = Gateway(name: string, providerType: ProviderType)

  type Registry = map<ProviderType, Gateway>

  /**
   * `providers.associateBy { it.getProviderType() }`: every declared type is a
   * key, and each key maps to a gateway declaring it.
   */
  function BuildRegistry(providers: seq<Gateway>): (m: Registry)
    ensures forall i :: 0 <= i < |providers| ==> providers[i].providerType in m
    ensures forall t :: t in m ==> m[t] in providers && m[t].providerType == t
  {
    if providers == [] then map[]
    else
      var last := providers[|providers| - 1];
      BuildRegistry(providers[..|providers| - 1])[last.providerType := last]
  }

  /** When several gateways declare one type, the last one in the list is registered. */
  lemma {:induction false} LastDeclarationWins(providers: seq<Gateway>, i: nat)
    requires i < |providers|
    requires forall j :: i < j < |providers| ==> providers[j].providerType != providers[i].providerType
    ensures BuildRegistry(providers)[providers[i].providerType] == providers[i]
  {
    if i < |providers| - 1 {
      var init := providers[..|providers| - 1];
      assert init[i] == providers[i];
      LastDeclarationWins(init, i);
    }
  }

  /** `getProvider(type)`: the registered gateway, or "Provider not found". */
  function GetProvider(registry: Registry, providerType: ProviderType): (r: Result<Gateway, Error>)
    ensures r.Success? <==> providerType in registry
    ensures r.Failure? ==> r.error == ProviderNotFound(providerType)
  {
    if providerType in registry then Success(registry[providerType]) else Failure(ProviderNotFound(providerType))
  }

  /**
   * Resolution through a registry built from a list succeeds exactly for the
   * declared types, and yields a listed gateway declaring the requested type.
   */
  lemma GetProviderFromList(providers: seq<Gateway>, providerType: ProviderType)
    ensures GetProvider(BuildRegistry(providers), providerType).Success? <==>
              exists i :: 0 <= i < |providers| && providers[i].providerType == providerType
    ensures GetProvider(BuildRegistry(providers), providerType).Success? ==>
              var g := GetProvider(BuildRegistry(providers), providerType).value;
              g in providers && g.providerType == providerType
  {
    var m := BuildRegistry(providers);
    if providerType in m {
      var g := m[providerType];
      var i :| 0 <= i < |providers| && providers[i] == g;
      assert providers[i].providerType == providerType;
    }
  }

  /** `signedDocs.map { {fileName: documentName, content: base64Content} }`: the vendor's document id is dropped. */
  function SignedContentMaps(docs: seq<SignedDocumentData>): (maps: seq<map<string, string>>)
    ensures |maps| == |docs|
    ensures forall i :: 0 <= i < |docs| ==>
              maps[i].Keys == {"fileName", "content"} &&
              maps[i]["fileName"] == docs[i].documentName && maps[i]["content"] == docs[i].base64Content
  {
    seq(|docs|, i requires 0 <= i < |docs| => map["fileName" := docs[i].documentName, "content" := docs[i].base64Content])
  }

  /**
   * The signed archive has one entry per downloaded document, under the
   * vendor's document name; it can be written exactly when no two downloaded
   * documents share a name.
   */
  lemma ArchiveOfSignedDocuments(docs: seq<SignedDocumentData>)
    ensures |Archive(SignedContentMaps(docs))| == |docs|
    ensures forall i :: 0 <= i < |docs| ==>
              Archive(SignedContentMaps(docs))[i] == ArchiveEntry(docs[i].documentName, docs[i].base64Content)
    ensures ZipArchive(SignedContentMaps(docs)).Success? <==>
              forall i, j :: 0 <= i < j < |docs| ==> docs[i].documentName != docs[j].documentName
  {
    var maps := SignedContentMaps(docs);
    assert forall i :: 0 <= i < |docs| ==> EntryOf(maps[i]).name == docs[i].documentName;
  }
}
