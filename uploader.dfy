/**
 * The S3 uploader of the source-agent subsystem (`source_agents/uploader.py`). `put_object` is not
 * modelled: whether the upload of a document raises is an input, and a batch skips the documents
 * whose upload raised.
 */
module Uploader {
  import opened Wrappers
  import opened Documents

  const DefaultRegion: string := "us-east-1"
  const Boto3Missing: string := "boto3 is required for S3Uploader. Install with: pip install boto3"

  datatype S3Uploader = S3Uploader(bucketName: string, region: string)

  /** The constructor, which raises `ImportError` when boto3 cannot be imported. */
  function NewS3Uploader(boto3Available: bool, bucketName: string, region: string): (r: Result<S3Uploader, string>)
    ensures r.Ok? <==> boto3Available
    ensures r.Ok? ==> r.value.bucketName == bucketName && r.value.region == region
    ensures r.Err? ==> r.error == Boto3Missing
  {
    if !boto3Available then Err(Boto3Missing) else Ok(S3Uploader(bucketName, region))
  }

  /** `upload_document`: the document's key when the upload goes through, `None` when it raises. */
  function UploadDocument(doc: Document, uploads: bool): (r: Option<string>)
    ensures r.Some? <==> uploads
    ensures r.Some? ==> r.value == ToS3Key(doc)
  {
    if uploads then Some(ToS3Key(doc)) else None
  }

  /** The keys `upload_batch` returns when the uploads of the documents at the indices in `failed` raise. */
  function UploadedKeys(docs: seq<Document>, failed: set<nat>): seq<string> {
    if docs == [] then []
    else
      var last := |docs| - 1;
      UploadedKeys(docs[..last], failed) + (if last in failed then [] else [ToS3Key(docs[last])])
  }

  /** The indices below `n` that are not in `failed`, in increasing order. */
  function Succeeded(n: nat, failed: set<nat>): seq<nat> {
    if n == 0 then [] else Succeeded(n - 1, failed) + (if n - 1 in failed then [] else [n - 1])
  }

  /** `Succeeded` lists, in increasing order, exactly the indices below `n` outside `failed`. */
  lemma {:induction false} SucceededShape(n: nat, failed: set<nat>)
    ensures var s := Succeeded(n, failed);
      && |s| <= n
      && (forall j :: 0 <= j < |s| ==> s[j] < n && s[j] !in failed)
      && (forall j, k :: 0 <= j < k < |s| ==> s[j] < s[k])
      && (forall i :: 0 <= i < n && i !in failed ==> i in s)
  {
    if n > 0 {
      SucceededShape(n - 1, failed);
    }
  }

  /** With no failure below `n`, every index succeeds. */
  lemma {:induction false} SucceededAll(n: nat, failed: set<nat>)
    requires forall i :: 0 <= i < n ==> i !in failed
    ensures |Succeeded(n, failed)| == n
    ensures forall j :: 0 <= j < n ==> Succeeded(n, failed)[j] == j
  {
    if n > 0 {
      SucceededAll(n - 1, failed);
    }
  }

  /** The batch's keys are the keys of the documents that uploaded, in document order. */
  lemma {:induction false} UploadedKeysOfSucceeded(docs: seq<Document>, failed: set<nat>)
    ensures var s := Succeeded(|docs|, failed);
      && |UploadedKeys(docs, failed)| == |s|
      && forall j :: 0 <= j < |s| ==> s[j] < |docs| && UploadedKeys(docs, failed)[j] == ToS3Key(docs[s[j]])
  {
    if docs != [] {
      var last := |docs| - 1;
      var init := docs[..last];
      UploadedKeysOfSucceeded(init, failed);
      SucceededShape(last, failed);
      var s0 := Succeeded(last, failed);
      var k0 := UploadedKeys(init, failed);
      var s := Succeeded(|docs|, failed);
      var k := UploadedKeys(docs, failed);
      forall j | 0 <= j < |s0| ensures s[j] == s0[j] && k[j] == ToS3Key(docs[s0[j]]) {
        assert init[s0[j]] == docs[s0[j]];
      }
    }
  }

  /** A failing upload is skipped: there are never more keys than documents, and when none fails
      there is one key per document, each the document's own key. */
  lemma UploadedKeysBounds(docs: seq<Document>, failed: set<nat>)
    ensures |UploadedKeys(docs, failed)| <= |docs|
    ensures (forall i :: 0 <= i < |docs| ==> i !in failed) ==>
              |UploadedKeys(docs, failed)| == |docs| &&
              forall i :: 0 <= i < |docs| ==> UploadedKeys(docs, failed)[i] == ToS3Key(docs[i])
  {
    UploadedKeysOfSucceeded(docs, failed);
    SucceededShape(|docs|, failed);
    if forall i :: 0 <= i < |docs| ==> i !in failed {
      SucceededAll(|docs|, failed);
    }
  }

  /** `upload_batch`: every document is tried in order; one whose upload raises is skipped. */
  method UploadBatch(docs: seq<Document>, failed: set<nat>) returns (keys: seq<string>)
    ensures keys == UploadedKeys(docs, failed)
  {
    keys := [];
    var i := 0;
    while i < |docs|
      invariant 0 <= i <= |docs|
      invariant keys == UploadedKeys(docs[..i], failed)
    {
      assert docs[..i + 1][..i] == docs[..i];
      var key := UploadDocument(docs[i], i !in failed);
      if key.Some? {
        keys := keys + [key.value];
      }
      i := i + 1;
    }
    assert docs[..i] == docs;
  }
}
