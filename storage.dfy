/**
 * `GcsStorageService`: where the document archives of an event are stored,
 * the `gs://` location handed back to the caller, and the archive as a list
 * of named entries. Bytes, Base64 decoding and the ZIP format are not modelled.
 */
module Storage {
  import opened Wrappers
  import opened Domain

  const DocumentsArchiveName: string := "documents.zip"
  const SignedDocumentsArchiveName: string := "signed_documents.zip"
  const DefaultEntryName: string := "document.pdf"
  const LocationScheme: string := "gs://"

  /**
   * The object path `campaignId/cnpj/eventId/archiveName`: as long as its four
   * components and three separators, and ending with the archive name.
   */
  function ObjectPath(campaignId: string, cnpj: string, eventId: Uuid, archiveName: string): (path: string)
    ensures |path| == |campaignId| + |cnpj| + |eventId| + |archiveName| + 3
    ensures path[|path| - |archiveName|..] == archiveName
  {
    campaignId + "/" + cnpj + "/" + eventId + "/" + archiveName
  }

  /** The path `uploadDocumentsZip` writes to; it is shorter than, so never the same as, the signed archive's path of the event. */
  function DocumentsPath(campaignId: string, cnpj: string, eventId: Uuid): (path: string)
    ensures |path| > |DocumentsArchiveName| && path[|path| - |DocumentsArchiveName|..] == DocumentsArchiveName
    ensures |path| < |SignedDocumentsPath(campaignId, cnpj, eventId)|
  {
    ObjectPath(campaignId, cnpj, eventId, DocumentsArchiveName)
  }

  /** The path `uploadSignedDocumentsZip` writes to. */
  function SignedDocumentsPath(campaignId: string, cnpj: string, eventId: Uuid): (path: string)
    ensures |path| > |SignedDocumentsArchiveName| && path[|path| - |SignedDocumentsArchiveName|..] == SignedDocumentsArchiveName
  {
    ObjectPath(campaignId, cnpj, eventId, SignedDocumentsArchiveName)
  }

  /** The location string returned by both uploads: the `gs://` scheme, the bucket, a separator, the path. */
  function Location(bucket: string, path: string): (location: string)
    ensures |location| == |LocationScheme| + |bucket| + 1 + |path|
    ensures location[..|LocationScheme|] == "gs://"
    ensures location[|LocationScheme|..|LocationScheme| + |bucket|] == bucket
    ensures location[|location| - |path| - 1..] == "/" + path
  {
    LocationScheme + bucket + "/" + path
  }

  /** The segments of `s` between its `/` separators (a reference reading of a path). */
  function Segments(s: string): (parts: seq<string>)
    ensures |parts| >= 1
  {
    if s == [] then [""]
    else if s[0] == '/' then [""] + Segments(s[1..])
    else var rest := Segments(s[1..]); [[s[0]] + rest[0]] + rest[1..]
  }

  /** The index of the first `/` in `s`, if any. */
  function FirstSlash(s: string): (r: Option<nat>)
    ensures r.Some? ==> r.value < |s| && s[r.value] == '/'
  {
    if s == [] then None
    else if s[0] == '/' then Some(0)
    else match FirstSlash(s[1..])
      case None => None
      case Some(i) => Some(i + 1)
  }

  /** Reads a `gs://bucket/path` location back into its bucket and object path. */
  function ParseLocation(location: string): Option<(string, string)>
  {
    if |location| < |LocationScheme| || location[..|LocationScheme|] != LocationScheme then None
    else
      var rest := location[|LocationScheme|..];
      match FirstSlash(rest)
      case None => None
      case Some(i) => Some((rest[..i], rest[i + 1..]))
  }

  /** A segment without `/` stays one segment when a separator and more text follow it. */
  lemma {:induction false} SegmentsAfter(a: string, b: string)
    requires '/' !in a
    ensures Segments(a + "/" + b) == [a] + Segments(b)
  {
    if a == [] {
      assert a + "/" + b == ['/'] + b;
      assert (['/'] + b)[1..] == b;
    } else {
      assert (a + "/" + b)[0] == a[0];
      assert (a + "/" + b)[1..] == a[1..] + "/" + b;
      SegmentsAfter(a[1..], b);
      assert [a[0]] + a[1..] == a;
    }
  }

  /** A string without `/` is a single segment. */
  lemma {:induction false} SegmentsOfPlain(a: string)
    requires '/' !in a
    ensures Segments(a) == [a]
  {
    if a != [] {
      SegmentsOfPlain(a[1..]);
      assert [a[0]] + a[1..] == a;
    }
  }

  /** The first `/` after a slash-free prefix is the one right after it. */
  lemma {:induction false} FirstSlashAfter(a: string, b: string)
    requires '/' !in a
    ensures FirstSlash(a + "/" + b) == Some(|a|)
  {
    if a == [] {
      assert (a + "/" + b)[0] == '/';
    } else {
      assert (a + "/" + b)[0] == a[0];
      assert (a + "/" + b)[1..] == a[1..] + "/" + b;
      FirstSlashAfter(a[1..], b);
    }
  }

  /**
   * When no component contains `/`, the object path splits back into exactly
   * campaign id, tax id, event id and archive name.
   */
  lemma ObjectPathSegments(campaignId: string, cnpj: string, eventId: Uuid, archiveName: string)
    requires '/' !in campaignId && '/' !in cnpj && '/' !in eventId && '/' !in archiveName
    ensures Segments(ObjectPath(campaignId, cnpj, eventId, archiveName)) == [campaignId, cnpj, eventId, archiveName]
  {
    var tail2 := eventId + "/" + archiveName;
    var tail1 := cnpj + "/" + tail2;
    assert ObjectPath(campaignId, cnpj, eventId, archiveName) == campaignId + "/" + tail1;
    SegmentsAfter(campaignId, tail1);
    SegmentsAfter(cnpj, tail2);
    SegmentsAfter(eventId, archiveName);
    SegmentsOfPlain(archiveName);
  }

  /**
   * Distinct events (or the two archives of one event) never share an object
   * path, as long as the campaign and tax ids contain no `/`.
   */
  lemma ObjectPathInjective(c1: string, n1: string, e1: Uuid, a1: string, c2: string, n2: string, e2: Uuid, a2: string)
    requires '/' !in c1 && '/' !in n1 && '/' !in e1 && '/' !in a1
    requires '/' !in c2 && '/' !in n2 && '/' !in e2 && '/' !in a2
    requires ObjectPath(c1, n1, e1, a1) == ObjectPath(c2, n2, e2, a2)
    ensures c1 == c2 && n1 == n2 && e1 == e2 && a1 == a2
  {
    ObjectPathSegments(c1, n1, e1, a1);
    ObjectPathSegments(c2, n2, e2, a2);
  }

  /** When one split of the same text has the shorter head, its tail holds the other split's separator. */
  lemma SeparatorInTail(x: string, a: string, y: string, b: string)
    requires x + "/" + a == y + "/" + b
    ensures |y| < |x| ==> '/' in b
  {
    if |y| < |x| {
      var s := x + "/" + a;
      assert s[|x|] == '/';
      assert s[|x|] == b[|x| - |y| - 1];
    }
  }

  /** Text joined at a separator splits back at its last separator when the tail holds none. */
  lemma SplitAtLastSlash(x: string, a: string, y: string, b: string)
    requires '/' !in a && '/' !in b
    requires x + "/" + a == y + "/" + b
    ensures x == y && a == b
  {
    var s := x + "/" + a;
    SeparatorInTail(x, a, y, b);
    SeparatorInTail(y, b, x, a);
    assert a == s[|s| - |a|..];
    assert b == s[|s| - |b|..];
    assert x == s[..|x|];
    assert y == s[..|y|];
  }

  /**
   * Two objects share a path only when they are the same archive of the same
   * event, whatever the campaign and tax ids hold: the event id and the
   * archive name contain no separator, so the path ends with them.
   */
  lemma ObjectPathSameEvent(c1: string, n1: string, e1: Uuid, a1: string, c2: string, n2: string, e2: Uuid, a2: string)
    requires '/' !in e1 && '/' !in a1 && '/' !in e2 && '/' !in a2
    requires ObjectPath(c1, n1, e1, a1) == ObjectPath(c2, n2, e2, a2)
    ensures e1 == e2 && a1 == a2
  {
    assert ObjectPath(c1, n1, e1, a1) == (c1 + "/" + n1 + "/" + e1) + "/" + a1;
    assert ObjectPath(c2, n2, e2, a2) == (c2 + "/" + n2 + "/" + e2) + "/" + a2;
    SplitAtLastSlash(c1 + "/" + n1 + "/" + e1, a1, c2 + "/" + n2 + "/" + e2, a2);
    assert (c1 + "/" + n1) + "/" + e1 == c1 + "/" + n1 + "/" + e1;
    assert (c2 + "/" + n2) + "/" + e2 == c2 + "/" + n2 + "/" + e2;
    SplitAtLastSlash(c1 + "/" + n1, e1, c2 + "/" + n2, e2);
  }

  /** A location reads back as the bucket and path it was built from. */
  lemma LocationRoundTrip(bucket: string, path: string)
    requires '/' !in bucket
    ensures ParseLocation(Location(bucket, path)) == Some((bucket, path))
  {
    var loc := Location(bucket, path);
    assert loc[..|LocationScheme|] == LocationScheme;
    var rest := loc[|LocationScheme|..];
    assert rest == bucket + "/" + path;
    FirstSlashAfter(bucket, path);
    assert rest[..|bucket|] == bucket;
    assert rest[|bucket| + 1..] == path;
  }

  /** One entry of the ZIP archive: its file name and its (Base64) content. */
  datatype ArchiveEntry = ArchiveEntry(name: string, content: string)

  /** The entry written for one document: its file name, or `document.pdf` when it has none, and its content, or nothing. */
  function EntryOf(doc: map<string, string>): (entry: ArchiveEntry)
    ensures "fileName" in doc ==> entry.name == doc["fileName"]
    ensures "fileName" !in doc ==> entry.name == "document.pdf"
    ensures "content" in doc ==> entry.content == doc["content"]
    ensures "content" !in doc ==> entry.content == ""
  {
    ArchiveEntry(
      if "fileName" in doc then doc["fileName"] else DefaultEntryName,
      if "content" in doc then doc["content"] else "")
  }

  /** `createZipFromBase64Documents`: one entry per document, in order. */
  function Archive(documents: seq<map<string, string>>): (entries: seq<ArchiveEntry>)
    ensures |entries| == |documents|
    ensures forall i :: 0 <= i < |documents| ==> entries[i] == EntryOf(documents[i])
  {
    if documents == [] then [] else [EntryOf(documents[0])] + Archive(documents[1..])
  }

  /**
   * Writing `entries` after the names in `written`: the name of the first
   * entry whose name is already written, or none when every name is new.
   */
  function FirstRepeat(entries: seq<ArchiveEntry>, written: set<string>): (r: Option<string>)
    ensures r.None? <==>
              && (forall i :: 0 <= i < |entries| ==> entries[i].name !in written)
              && (forall i, j :: 0 <= i < j < |entries| ==> entries[i].name != entries[j].name)
    ensures r.Some? ==>
              exists j :: 0 <= j < |entries| && entries[j].name == r.value &&
                          (r.value in written || exists i :: 0 <= i < j && entries[i].name == r.value)
    decreases |entries|
  {
    if entries == [] then None
    else if entries[0].name in written then Some(entries[0].name)
    else
      var rest := FirstRepeat(entries[1..], written + {entries[0].name});
      assert forall i :: 0 < i < |entries| ==> entries[i] == entries[1..][i - 1];
      rest
  }

  /** The name `putNextEntry` refuses first, starting from an empty archive. */
  function DuplicateName(entries: seq<ArchiveEntry>): (r: Option<string>)
    ensures r.None? <==> forall i, j :: 0 <= i < j < |entries| ==> entries[i].name != entries[j].name
    ensures r.Some? ==> exists i, j :: 0 <= i < j < |entries| && entries[i].name == r.value && entries[j].name == r.value
  {
    FirstRepeat(entries, {})
  }

  /** No two documents give their archive entries the same name. */
  predicate DistinctEntryNames(documents: seq<map<string, string>>)
  {
    forall i, j :: 0 <= i < j < |documents| ==> EntryOf(documents[i]).name != EntryOf(documents[j]).name
  }

  /** `name` is the entry name of two different documents. */
  predicate RepeatedEntryName(documents: seq<map<string, string>>, name: string)
  {
    exists i, j :: 0 <= i < j < |documents| && EntryOf(documents[i]).name == name && EntryOf(documents[j]).name == name
  }

  /**
   * What `createZipFromBase64Documents` produces: the archive when all entry
   * names differ, otherwise the `ZipException` for the first repeated name.
   */
  function ZipArchive(documents: seq<map<string, string>>): (r: Result<seq<ArchiveEntry>, Error>)
    ensures r.Success? <==> DistinctEntryNames(documents)
    ensures r.Success? ==> r.value == Archive(documents)
    ensures r.Failure? ==> r.error.DuplicateZipEntry? && RepeatedEntryName(documents, r.error.entryName)
  {
    var entries := Archive(documents);
    match DuplicateName(entries)
    case None => Success(entries)
    case Some(name) => Failure(DuplicateZipEntry(name))
  }

  /**
   * `createZipFromBase64Documents`: writes one entry per document in order,
   * keeping the set of names written so far, and stops with a `ZipException`
   * at the first name already written.
   */
  method CreateZip(documents: seq<map<string, string>>) returns (r: Result<seq<ArchiveEntry>, Error>)
    ensures r == ZipArchive(documents)
  {
    ghost var all := Archive(documents);
    var entries: seq<ArchiveEntry> := [];
    var names: set<string> := {};
    for k := 0 to |documents|
      invariant entries == all[..k]
      invariant FirstRepeat(all[k..], names) == DuplicateName(all)
    {
      var entry := EntryOf(documents[k]);
      WriteOneEntry(all, k, names);
      if entry.name in names {
        return Failure(DuplicateZipEntry(entry.name));
      }
      names := names + {entry.name};
      entries := entries + [entry];
    }
    assert all[|documents|..] == [];
    assert all[..|documents|] == all;
    r := Success(entries);
  }

  /** Writing the entry at `k`: it is refused when its name is written already, and otherwise joins the written names. */
  lemma WriteOneEntry(all: seq<ArchiveEntry>, k: nat, names: set<string>)
    requires k < |all|
    ensures all[..k] + [all[k]] == all[..k + 1]
    ensures all[k].name in names ==> FirstRepeat(all[k..], names) == Some(all[k].name)
    ensures all[k].name !in names ==> FirstRepeat(all[k..], names) == FirstRepeat(all[k + 1..], names + {all[k].name})
  {
    assert all[k..][0] == all[k] && all[k..][1..] == all[k + 1..];
  }

  /** The bucket behind `GcsStorageService`: object path to stored archive. */
  class GcsStorage {
    const bucketName: string
    var blobs: map<string, seq<ArchiveEntry>>

    constructor (bucketName: string)
      ensures this.bucketName == bucketName && blobs == map[]
    {
      this.bucketName := bucketName;
      blobs := map[];
    }

    /**
     * `uploadDocumentsZip`: stores the archive of the input documents and
     * returns its location; a repeated entry name throws before anything is
     * stored.
     */
    method UploadDocumentsZip(campaignId: string, cnpj: string, eventId: Uuid, documents: seq<map<string, string>>)
      returns (r: Result<string, Error>)
      modifies this
      ensures ZipArchive(documents).Failure? ==> r == Failure(ZipArchive(documents).error) && blobs == old(blobs)
      ensures ZipArchive(documents).Success? ==>
                && blobs == old(blobs)[DocumentsPath(campaignId, cnpj, eventId) := ZipArchive(documents).value]
                && r == Success(Location(bucketName, DocumentsPath(campaignId, cnpj, eventId)))
    {
      var path := campaignId + "/" + cnpj + "/" + eventId + "/" + DocumentsArchiveName;
      var zipped := CreateZip(documents);
      if zipped.Failure? {
        return Failure(zipped.error);
      }
      blobs := blobs[path := zipped.value];
      r := Success(LocationScheme + bucketName + "/" + path);
    }

    /** `uploadSignedDocumentsZip`: the same for the signed archive. */
    method UploadSignedDocumentsZip(campaignId: string, cnpj: string, eventId: Uuid, documents: seq<map<string, string>>)
      returns (r: Result<string, Error>)
      modifies this
      ensures ZipArchive(documents).Failure? ==> r == Failure(ZipArchive(documents).error) && blobs == old(blobs)
      ensures ZipArchive(documents).Success? ==>
                && blobs == old(blobs)[SignedDocumentsPath(campaignId, cnpj, eventId) := ZipArchive(documents).value]
                && r == Success(Location(bucketName, SignedDocumentsPath(campaignId, cnpj, eventId)))
    {
      var path := campaignId + "/" + cnpj + "/" + eventId + "/" + SignedDocumentsArchiveName;
      var zipped := CreateZip(documents);
      if zipped.Failure? {
        return Failure(zipped.error);
      }
      blobs := blobs[path := zipped.value];
      r := Success(LocationScheme + bucketName + "/" + path);
    }
  }
}
