/** Uploading a file to the object store and building its public address. The storage
    client is an oracle: the set of put requests it answers with a (non-null) result. */
module OssManager {
  import opened Common

  /** The configured bucket and endpoint. */
  datatype OssConfig = OssConfig(bucketName: string, endpoint: string)

  /** A put of `file` under `key` into `bucketName`. */
  datatype PutRequest = PutRequest(bucketName: string, key: string, file: string)

  /** `putObject`: the request sent to the client. */
  function PutObject(cfg: OssConfig, key: string, file: string): (req: PutRequest)
    ensures req.bucketName == cfg.bucketName && req.key == key && req.file == file
  {
    PutRequest(cfg.bucketName, key, file)
  }

  /** The address every object of the bucket starts with: `https://bucket.endpoint/`. */
  function UrlPrefix(cfg: OssConfig): string {
    "https://" + cfg.bucketName + "." + cfg.endpoint + "/"
  }

  /** The public address of the object stored under `key`. */
  function ObjectUrl(cfg: OssConfig, key: string): string {
    UrlPrefix(cfg) + key
  }

  /** The key an address of the bucket names. */
  function KeyOf(cfg: OssConfig, url: string): string
    requires |UrlPrefix(cfg)| <= |url|
  {
    url[|UrlPrefix(cfg)|..]
  }

  /** `uploadFile`: the public address when the client returns a result, null otherwise.
      `acknowledged` holds the requests the client answers with a non-null result. */
  function UploadFile(cfg: OssConfig, key: string, file: string, acknowledged: iset<PutRequest>): (r: Option<string>)
    ensures r.Some? <==> PutObject(cfg, key, file) in acknowledged
    ensures r.Some? ==> UrlPrefix(cfg) <= r.value && |r.value| == |UrlPrefix(cfg)| + |key|
  {
    if PutObject(cfg, key, file) in acknowledged then Some(ObjectUrl(cfg, key)) else None
  }

  /** An address is returned exactly when the store acknowledged the put of this file
      under this key into the configured bucket; the address lies in the bucket and names
      the key. */
  lemma UploadFileMeaning(cfg: OssConfig, key: string, file: string, acknowledged: iset<PutRequest>)
    ensures var r := UploadFile(cfg, key, file, acknowledged);
      && (r.Some? <==> PutRequest(cfg.bucketName, key, file) in acknowledged)
      && (r.Some? ==> UrlPrefix(cfg) <= r.value && KeyOf(cfg, r.value) == key)
  {
  }

  /** The key can be read back from the address. */
  lemma KeyOfObjectUrl(cfg: OssConfig, key: string)
    ensures |UrlPrefix(cfg)| <= |ObjectUrl(cfg, key)|
    ensures KeyOf(cfg, ObjectUrl(cfg, key)) == key
  {
  }

  /** Different keys of one bucket have different addresses. */
  lemma ObjectUrlInjective(cfg: OssConfig, a: string, b: string)
    requires ObjectUrl(cfg, a) == ObjectUrl(cfg, b)
    ensures a == b
  {
    KeyOfObjectUrl(cfg, a);
    KeyOfObjectUrl(cfg, b);
  }
}
