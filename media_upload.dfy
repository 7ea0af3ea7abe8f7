/**
 * Uploading files through presigned storage URLs: each file gets a presigned
 * URL, is sent there with a PUT, and is recorded with the URL stripped of its
 * query. The presign service and the PUT are outside the model: the k-th
 * presign answer is a parameter, and the PUT requests issued are returned.
 */
module MediaUpload {
  import opened Text

  /** A file picked by the member. */
  datatype FileRef = FileRef(name: string, mimeType: string)

  /** The presign service's answer: an id and a URL with a signing query. */
  datatype Presign = Presign(id: int, presignedUrl: string)

  /** An uploaded file as the application records it. */
  datatype MediaInfo = MediaInfo(id: int, presignedUrl: string)

  /** An uploaded document, with its file name. */
  datatype DocumentInfo = DocumentInfo(id: int, presignedUrl: string, fileName: string)

  /** A PUT issued to storage. */
  datatype PutRequest = PutRequest(url: string, contentType: string, file: FileRef)

  const S3Host: string := "https://s3-test-yunjae.s3.ap-northeast-2.amazonaws.com"
  const DevProxy: string := "/aws-s3"
  const DefaultContentType: string := "application/octet-stream"

  /** The URL the PUT goes to: in development the storage host is swapped for the local proxy, once. */
  function UploadUrl(presignedUrl: string, dev: bool): (r: string)
    ensures dev ==> r == presignedUrl || |r| == |presignedUrl| - |S3Host| + |DevProxy|
  {
    if dev then ReplaceFirst(presignedUrl, S3Host, DevProxy) else presignedUrl
  }

  /** Outside development the URL is used as it is. */
  lemma UploadUrlOutsideDev(u: string)
    ensures UploadUrl(u, false) == u
  {
  }

  /** In development a URL on the storage host is sent to the proxy with the same path and query. */
  lemma {:induction false} UploadUrlOnHost(rest: string)
    ensures UploadUrl(S3Host + rest, true) == DevProxy + rest
  {
    var u := S3Host + rest;
    assert u[0..] == u;
    assert u[..|S3Host|] == S3Host;
    ReplaceFirstAt(u, S3Host, DevProxy, 0);
    assert u[..0] == [];
    assert u[|S3Host|..] == rest;
  }

  /** In development a URL that does not mention the storage host is left alone. */
  lemma UploadUrlOffHost(u: string)
    requires !Includes(u, S3Host)
    ensures UploadUrl(u, true) == u
  {
    ReplaceFirstAbsent(u, S3Host, DevProxy);
  }

  /** `file.type || 'application/octet-stream'`. */
  function ContentType(f: FileRef): (r: string)
    ensures r != ""
    ensures f.mimeType != "" ==> r == f.mimeType
  {
    if f.mimeType != "" then f.mimeType else DefaultContentType
  }

  /** `cleanUrl`: the URL before its first '?'. */
  function CleanUrl(presignedUrl: string): (r: string)
    ensures r <= presignedUrl && '?' !in r
  {
    SplitFirst(presignedUrl, '?');
    Split(presignedUrl, '?')[0]
  }

  /**
   * The cleaned URL is the input up to the first '?', exclusive: a prefix
   * of the input holding no '?', and the whole input when there is none.
   */
  lemma CleanUrlMeaning(u: string)
    ensures CleanUrl(u) == u[..IndexOf(u, '?')]
    ensures CleanUrl(u) <= u
    ensures '?' !in CleanUrl(u)
    ensures '?' !in u ==> CleanUrl(u) == u
  {
    SplitFirst(u, '?');
  }

  /** Cleaning a cleaned URL changes nothing. */
  lemma CleanUrlIdempotent(u: string)
    ensures CleanUrl(CleanUrl(u)) == CleanUrl(u)
  {
    CleanUrlMeaning(u);
    CleanUrlMeaning(CleanUrl(u));
  }

  /** `putToS3`: the request for one file. */
  function Put(presignedUrl: string, f: FileRef, dev: bool): (r: PutRequest)
    ensures r.file == f && r.contentType != ""
    ensures f.mimeType != "" ==> r.contentType == f.mimeType
    ensures !dev ==> r.url == presignedUrl
  {
    PutRequest(UploadUrl(presignedUrl, dev), ContentType(f), f)
  }

  /**
   * `uploadImageFiles`: one presign and one PUT per file, in file order;
   * each result carries its own presign id and the cleaned URL.
   */
  method UploadImageFiles(files: seq<FileRef>, presign: nat -> Presign, dev: bool)
    returns (results: seq<MediaInfo>, puts: seq<PutRequest>)
    ensures |results| == |files| && |puts| == |files|
    ensures forall k :: 0 <= k < |files| ==>
      results[k] == MediaInfo(presign(k).id, CleanUrl(presign(k).presignedUrl))
    ensures forall k :: 0 <= k < |files| ==> puts[k] == Put(presign(k).presignedUrl, files[k], dev)
  {
    results := [];
    puts := [];
    for k := 0 to |files|
      invariant |results| == k && |puts| == k
      invariant forall j :: 0 <= j < k ==> results[j] == MediaInfo(presign(j).id, CleanUrl(presign(j).presignedUrl))
      invariant forall j :: 0 <= j < k ==> puts[j] == Put(presign(j).presignedUrl, files[j], dev)
    {
      var p := presign(k);
      puts := puts + [Put(p.presignedUrl, files[k], dev)];
      results := results + [MediaInfo(p.id, CleanUrl(p.presignedUrl))];
    }
  }

  /** `uploadVideoFile`: one presign, one PUT, one cleaned result. */
  method UploadVideoFile(file: FileRef, p: Presign, dev: bool) returns (result: MediaInfo, put: PutRequest)
    ensures result == MediaInfo(p.id, CleanUrl(p.presignedUrl))
    ensures put == Put(p.presignedUrl, file, dev)
    ensures '?' !in result.presignedUrl
  {
    put := Put(p.presignedUrl, file, dev);
    result := MediaInfo(p.id, CleanUrl(p.presignedUrl));
    CleanUrlMeaning(p.presignedUrl);
  }

  /** `uploadDocumentFiles`: as for images, and each result also records the file's name. */
  method UploadDocumentFiles(files: seq<FileRef>, presign: nat -> Presign, dev: bool)
    returns (results: seq<DocumentInfo>, puts: seq<PutRequest>)
    ensures |results| == |files| && |puts| == |files|
    ensures forall k :: 0 <= k < |files| ==>
      results[k] == DocumentInfo(presign(k).id, CleanUrl(presign(k).presignedUrl), files[k].name)
    ensures forall k :: 0 <= k < |files| ==> puts[k] == Put(presign(k).presignedUrl, files[k], dev)
  {
    results := [];
    puts := [];
    for k := 0 to |files|
      invariant |results| == k && |puts| == k
      invariant forall j :: 0 <= j < k ==>
        results[j] == DocumentInfo(presign(j).id, CleanUrl(presign(j).presignedUrl), files[j].name)
      invariant forall j :: 0 <= j < k ==> puts[j] == Put(presign(j).presignedUrl, files[j], dev)
    {
      var p := presign(k);
      puts := puts + [Put(p.presignedUrl, files[k], dev)];
      results := results + [DocumentInfo(p.id, CleanUrl(p.presignedUrl), files[k].name)];
    }
  }
}
