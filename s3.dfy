/**
 * The object store helpers: where an uploaded product image is stored and under which URL, and
 * how the key is read back from that URL when the image is deleted. The store's `send` call
 * is an outcome passed in.
 */
module S3 {
  import opened Text

  /** The endpoint and bucket the client is configured with. */
  datatype Config = Config(endpoint: string, bucket: string)

  /** What `s3Client.send` did: succeeded, or threw with this text. */
  datatype Sent = Sent | SendFailed(error: string)

  /** What the helper did: returned a URL, or threw an `Error` with this message. */
  datatype Stored = Returned(url: string) | Threw(message: string)

  const UploadFailedPrefix := "Failed to upload file to S3: "
  const DeleteFailed := "Failed to delete file from S3"

  /** `products/${Date.now()}-${fileName}`: the folder, the time's digits, a dash and the name. */
  function ObjectKey(now: nat, fileName: string): (key: string)
    ensures StartsWith(key, "products/")
    ensures key[9..] == NatToString(now) + "-" + fileName
    ensures '/' !in fileName ==> '/' !in key[9..]
  {
    var key := "products/" + NatToString(now) + "-" + fileName;
    assert key[9..] == NatToString(now) + "-" + fileName;
    if '/' !in fileName then
      NameHasNoSlash(now, fileName);
      key
    else key
  }

  /** `${endpoint}/${bucketName}/${key}`: the key below the bucket below the endpoint. */
  function PublicUrl(config: Config, key: string): (url: string)
    ensures StartsWith(url, config.endpoint + "/" + config.bucket + "/")
    ensures url[|config.endpoint + "/" + config.bucket + "/"|..] == key
  {
    var prefix := config.endpoint + "/" + config.bucket + "/";
    var url := prefix + key;
    assert url[..|prefix|] == prefix && url[|prefix|..] == key;
    url
  }

  /**
   * `uploadToS3`: when the store accepts the object, the URL under the bucket of the key
   * `products/<now>-<fileName>`; otherwise the store's error, rethrown with a prefix.
   */
  function UploadToS3(config: Config, fileName: string, now: nat, sent: Sent): (r: Stored)
    ensures r.Returned? <==> sent.Sent?
    ensures r.Returned? ==> StartsWith(r.url, config.endpoint + "/" + config.bucket + "/products/")
    ensures r.Returned? ==> r.url == PublicUrl(config, ObjectKey(now, fileName))
    ensures r.Threw? ==> r.message == UploadFailedPrefix + sent.error
  {
    match sent
    case Sent =>
      var prefix := config.endpoint + "/" + config.bucket + "/products/";
      var url := PublicUrl(config, ObjectKey(now, fileName));
      assert url == prefix + (NatToString(now) + "-" + fileName);
      assert url[..|prefix|] == prefix;
      Returned(url)
    case SendFailed(error) => Threw(UploadFailedPrefix + error)
  }

  /** The key `deleteFromS3` derives: the last two '/'-separated parts of the URL. */
  function KeyFromUrl(url: string): (key: string)
    ensures '/' !in url ==> key == url
  {
    if '/' !in url then
      SplitNoSeparator(url, '/');
      Join(LastTwo(Split(url, '/')), '/')
    else Join(LastTwo(Split(url, '/')), '/')
  }

  /** `deleteFromS3`: the key it deletes; a store error is replaced by a fixed message. */
  function DeleteFromS3(url: string, sent: Sent): (r: Stored)
    ensures r.Returned? <==> sent.Sent?
    ensures r.Threw? ==> r.message == DeleteFailed
  {
    if sent.Sent? then Returned(KeyFromUrl(url)) else Threw(DeleteFailed)
  }

  /** A number's decimal digits contain no '/'. */
  lemma DigitsHaveNoSlash(n: nat)
    ensures '/' !in NatToString(n)
  {
    var s := NatToString(n);
    forall i | 0 <= i < |s|
      ensures s[i] != '/'
    {
      assert IsDigit(s[i]);
    }
  }

  /** The part of the key after `products/` holds no '/' when the file name holds none. */
  lemma NameHasNoSlash(now: nat, fileName: string)
    requires '/' !in fileName
    ensures '/' !in NatToString(now) + "-" + fileName
  {
    var digits := NatToString(now);
    var last := digits + "-" + fileName;
    DigitsHaveNoSlash(now);
    forall i | 0 <= i < |last|
      ensures last[i] != '/'
    {
      if i < |digits| {
        assert last[i] == digits[i];
      } else if i > |digits| {
        assert last[i] == fileName[i - |digits| - 1];
      }
    }
  }

  /** Splitting `front/mid/last` at '/' ends in the parts `mid` and `last`. */
  lemma SplitObjectUrl(front: string, mid: string, last: string)
    requires '/' !in mid && '/' !in last
    ensures Split(front + ['/'] + (mid + ['/'] + last), '/') == Split(front, '/') + [mid, last]
  {
    SplitAtSeparator(mid, last, '/');
    SplitNoSeparator(mid, '/');
    SplitNoSeparator(last, '/');
    assert Split(mid + ['/'] + last, '/') == [mid, last];
    SplitAtSeparator(front, mid + ['/'] + last, '/');
  }

  /** Whatever comes before them, the key of `front/mid/last` is `mid/last`. */
  lemma KeyFromObjectUrl(front: string, mid: string, last: string)
    requires '/' !in mid && '/' !in last
    ensures KeyFromUrl(front + ['/'] + (mid + ['/'] + last)) == mid + ['/'] + last
  {
    SplitObjectUrl(front, mid, last);
    var parts := Split(front, '/') + [mid, last];
    assert LastTwo(parts) == [mid, last];
    assert [mid, last][1..] == [last];
    assert Join([mid, last], '/') == mid + ['/'] + last;
  }

  /**
   * Round trip: for a file name without '/', deleting by the URL an upload returned removes
   * exactly the object that upload stored, whatever the endpoint and bucket.
   */
  lemma KeyRoundTrip(config: Config, fileName: string, now: nat)
    requires '/' !in fileName
    ensures KeyFromUrl(PublicUrl(config, ObjectKey(now, fileName))) == ObjectKey(now, fileName)
    ensures DeleteFromS3(UploadToS3(config, fileName, now, Sent).url, Sent) == Returned(ObjectKey(now, fileName))
  {
    var last := NatToString(now) + "-" + fileName;
    NameHasNoSlash(now, fileName);
    var front := config.endpoint + "/" + config.bucket;
    var tail := "products" + ['/'] + last;
    assert ObjectKey(now, fileName) == tail;
    assert PublicUrl(config, ObjectKey(now, fileName)) == front + ['/'] + tail;
    KeyFromObjectUrl(front, "products", last);
  }
}
