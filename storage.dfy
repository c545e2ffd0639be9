/**
 * `S3Storage.Upload`: the put request it builds for a logical key. The bucket
 * is fixed; the object key is the logical key with one leading "/images/"
 * removed. The S3 client is an oracle that answers the n-th put with an
 * error or none; Upload only logs that answer and returns nothing.
 */
module Storage {
  import opened Wrappers
  import opened GoStrings
  import opened Http

  const BucketName: string := "images"
  const KeyPrefix: string := "/images/"

  /** The fields of `s3.PutObjectInput` that Upload sets. */
  datatype PutObjectInput = PutObjectInput(body: Bytes, bucket: string, key: string, contentType: string)

  /** The object key for a logical key. */
  function ObjectKey(s3key: string): (key: string)
    ensures HasPrefix(s3key, KeyPrefix) ==> KeyPrefix + key == s3key
    ensures !HasPrefix(s3key, KeyPrefix) ==> key == s3key
    ensures |key| <= |s3key| && key == s3key[|s3key| - |key|..]
  {
    TrimPrefix(s3key, KeyPrefix)
  }

  /** The put request Upload issues: the bytes and content type as given, in the fixed bucket. */
  function PutRequest(s3key: string, b: Bytes, contentType: string): (r: PutObjectInput)
    ensures r.bucket == BucketName && r.body == b && r.contentType == contentType
    ensures HasPrefix(s3key, KeyPrefix) ==> KeyPrefix + r.key == s3key
    ensures !HasPrefix(s3key, KeyPrefix) ==> r.key == s3key
  {
    PutObjectInput(b, BucketName, ObjectKey(s3key), contentType)
  }

  /** Only the first "/images/" is removed: a doubled prefix leaves one behind. */
  lemma PrefixStrippedOnce()
    ensures ObjectKey("/images//images/x") == "/images/x"
  {
    assert HasPrefix("/images//images/x", KeyPrefix);
    assert KeyPrefix + "/images/x" == "/images//images/x";
  }

  /** The object key of a requested variant path under "/images/" is the rest of that path. */
  lemma VariantPathKey(name: string)
    ensures ObjectKey(KeyPrefix + name) == name
  {
    assert (KeyPrefix + name)[..|KeyPrefix|] == KeyPrefix;
  }

  class S3Client {
    const answer: (nat, PutObjectInput) -> Option<Error>
    var received: seq<PutObjectInput>

    constructor (answer: (nat, PutObjectInput) -> Option<Error>)
      ensures this.answer == answer && received == []
    {
      this.answer := answer;
      received := [];
    }

    /** `PutObject`: records the request and reports the oracle's answer. */
    method PutObject(input: PutObjectInput) returns (err: Option<Error>)
      modifies this
      ensures received == old(received) + [input]
      ensures err == answer(|old(received)|, input)
    {
      err := answer(|received|, input);
      received := received + [input];
    }
  }

  class S3Storage {
    const client: S3Client

    constructor (client: S3Client)
      ensures this.client == client
    {
      this.client := client;
    }

    /** `Upload`: issues exactly one put for the key; its outcome is not passed back. */
    method Upload(s3key: string, b: Bytes, contentType: string)
      modifies client
      ensures client.received == old(client.received) + [PutRequest(s3key, b, contentType)]
    {
      var bucket := BucketName;
      var key := ObjectKey(s3key);
      var err := client.PutObject(PutObjectInput(b, bucket, key, contentType));
      if err.Some? {
        // the failure is logged and Upload returns
        return;
      }
    }
  }
}
