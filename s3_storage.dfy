/** The S3 backend (`AwsS3Storage`): the bucket holding the backups, the STS
    service that mints federation tokens, and the two backend operations
    over them. A backup folder exists once its marker object (an empty
    object whose key is the backup path) is in the bucket. */
module S3Storage {
  import opened Errors
  import opened Strings
  import opened ConfigValues
  import opened AppConfig
  import opened AwsPolicy
  import opened Exports
  import opened BackupPaths

  const NO_SUCH_KEY: string := "NoSuchKey"
  const NO_SUCH_KEY_MESSAGE: string := "The specified key does not exist."
  const FEDERATION_TOKEN_EXPIRATION_HOURS: nat := 36

  /** An error code and message an AWS service answers with. */
  datatype AwsError = AwsError(code: string, message: string)

  /** The `Credentials` block of a federation token. */
  datatype TemporaryCredentials = TemporaryCredentials(accessKeyId: string, secretAccessKey: string, sessionToken: string, expiration: string)

  /** The array handed back for `generate-read-credentials`; `region` is the
      image-level entry as it stands (absent when not configured). */
  datatype S3ReadCredentials = S3ReadCredentials(backupId: string, backupUri: string, region: Option<Value>, credentials: TemporaryCredentials)

  /** `$params[key]`, absent as `None`. */
  function Entry(p: Params, key: string): (r: Option<Value>)
    ensures r.Some? <==> key in p
    ensures r.Some? ==> r.value == p[key]
  {
    if key in p then Some(p[key]) else None
  }

  /** One S3 bucket: the keys it holds and the base of the URLs it reports
      for stored objects. `outage` is a service that answers every request
      with the same error (bad credentials, a missing bucket). */
  class S3Bucket {
    const name: string
    const objectUrlBase: string
    const outage: Option<AwsError>
    var keys: set<string>

    constructor (name: string, objectUrlBase: string, outage: Option<AwsError>, keys: set<string>)
      ensures this.name == name && this.objectUrlBase == objectUrlBase
      ensures this.outage == outage && this.keys == keys
    {
      this.name := name;
      this.objectUrlBase := objectUrlBase;
      this.outage := outage;
      this.keys := keys;
    }

    /** What `getObject` answers for `key`. */
    function Lookup(key: string): (r: Result<()>)
      reads this
      ensures r.Ok? <==> outage.None? && key in keys
      ensures outage.Some? ==> r == Err(S3Exception(outage.value.code, outage.value.message))
      ensures outage.None? && key !in keys ==> r == Err(S3Exception(NO_SUCH_KEY, NO_SUCH_KEY_MESSAGE))
    {
      match outage
      case Some(e) => Err(S3Exception(e.code, e.message))
      case None => if key in keys then Ok(()) else Err(S3Exception(NO_SUCH_KEY, NO_SUCH_KEY_MESSAGE))
    }

    method GetObject(key: string) returns (r: Result<()>)
      ensures r == Lookup(key)
    {
      r := Lookup(key);
    }

    /** `putObject`: stores an empty object under `key` and reports its URL. */
    method PutObject(key: string) returns (r: Result<string>)
      modifies this`keys
      ensures outage.Some? ==> r == Err(S3Exception(outage.value.code, outage.value.message)) && keys == old(keys)
      ensures outage.None? ==> r == Ok(objectUrlBase + key) && keys == old(keys) + {key}
    {
      match outage {
        case Some(e) =>
          r := Err(S3Exception(e.code, e.message));
        case None =>
          keys := keys + {key};
          r := Ok(objectUrlBase + key);
      }
    }
  }

  /** The STS endpoint: it records every federation-token request it
      receives and answers with `issued`, or with `outage`'s error. */
  class StsService {
    const outage: Option<AwsError>
    const issued: TemporaryCredentials
    var requests: seq<FederationTokenRequest>

    constructor (outage: Option<AwsError>, issued: TemporaryCredentials)
      ensures this.outage == outage && this.issued == issued && requests == []
    {
      this.outage := outage;
      this.issued := issued;
      requests := [];
    }

    method GetFederationToken(request: FederationTokenRequest) returns (r: Result<TemporaryCredentials>)
      modifies this`requests
      ensures requests == old(requests) + [request]
      ensures outage.Some? ==> r == Err(StsException(outage.value.code, outage.value.message))
      ensures outage.None? ==> r == Ok(issued)
    {
      requests := requests + [request];
      match outage {
        case Some(e) => r := Err(StsException(e.code, e.message));
        case None => r := Ok(issued);
      }
    }
  }

  /** The older `Config::getBackupId()`: `getValue` without a default under a
      `string` return type. A missing key is reported by the configuration
      reader; any non-string value is a type error. */
  function LegacyBackupId(c: Config): (r: Result<string>)
    ensures r.Ok? <==> HasString(c.parameters, "backupId")
    ensures r.Ok? ==> r.value == c.parameters["backupId"].s
  {
    if "backupId" !in c.parameters then Err(PlainException("Key \"parameters.backupId\" does not exist"))
    else match c.parameters["backupId"]
      case Str(s) => Ok(s)
      case v => Err(TypeError(ConfigReturn("getBackupId", "string", TypeName(v))))
  }

  function NotInitializedMessage(backupId: string): string {
    "Backup with ID \"" + backupId + "\" was not initialized for this KBC project"
  }

  predicate IsNoSuchKey(e: Error) {
    e.S3Exception? && e.awsErrorCode == NO_SUCH_KEY
  }

  /** The `try`/`catch` around the marker lookup: a missing marker is the
      caller's mistake (a user error naming the backup id, which is only
      read at that point); every other failure passes through unchanged. */
  function MarkerCheck(lookup: Result<()>, backupId: Result<string>): (r: Result<()>)
    ensures r.Ok? <==> lookup.Ok?
    ensures lookup.Err? && IsNoSuchKey(lookup.error) && backupId.Ok? ==>
              r == Err(UserException(NotInitializedMessage(backupId.value)))
    ensures lookup.Err? && IsNoSuchKey(lookup.error) && backupId.Err? ==> r == Err(backupId.error)
    ensures lookup.Err? && !IsNoSuchKey(lookup.error) ==> r == lookup
  {
    match lookup
    case Ok(_) => Ok(())
    case Err(e) =>
      if IsNoSuchKey(e) then
        match backupId
        case Ok(id) => Err(UserException(NotInitializedMessage(id)))
        case Err(f) => Err(f)
      else Err(e)
  }

  /** `bucket` is the bucket the image-level `#bucket` names, where both
      the marker is put and the token's policy points. */
  predicate NamesConfiguredBucket(imageParameters: Params, bucket: S3Bucket) {
    HasString(imageParameters, "#bucket") && bucket.name == imageParameters["#bucket"].s
  }

  /** `AwsS3Storage`: constructed from the (older) configuration object; it
      works in the bucket the image-level `#bucket` names with the
      image-level credentials. */
  class AwsS3Storage {
    const config: Config
    const bucket: S3Bucket
    const sts: StsService

    /** The storage over the configured bucket. */
    predicate Configured() {
      NamesConfiguredBucket(config.imageParameters, bucket)
    }

    constructor (config: Config, bucket: S3Bucket, sts: StsService)
      requires NamesConfiguredBucket(config.imageParameters, bucket)
      ensures this.config == config && this.bucket == bucket && this.sts == sts
      ensures Configured()
    {
      this.config := config;
      this.bucket := bucket;
      this.sts := sts;
    }

    /** `generateTempReadCredentials`: the token is requested first, for 36
        hours and scoped to the path; only then is the marker put. A failed
        token request leaves the bucket untouched. */
    method GenerateTempReadCredentials(backupId: string, path: string) returns (r: Result<S3ReadCredentials>)
      requires Configured()
      modifies bucket`keys, sts`requests
      ensures sts.requests == old(sts.requests) + [FederationTokenRequestFor(bucket.name, path, FEDERATION_TOKEN_EXPIRATION_HOURS)]
      ensures sts.outage.Some? ==>
                r == Err(StsException(sts.outage.value.code, sts.outage.value.message)) && bucket.keys == old(bucket.keys)
      ensures sts.outage.None? && bucket.outage.Some? ==>
                r == Err(S3Exception(bucket.outage.value.code, bucket.outage.value.message)) && bucket.keys == old(bucket.keys)
      ensures sts.outage.None? && bucket.outage.None? ==> bucket.keys == old(bucket.keys) + {path}
      ensures sts.outage.None? && bucket.outage.None? ==>
                r == Ok(S3ReadCredentials(backupId, bucket.objectUrlBase + path, Entry(config.imageParameters, "region"), sts.issued))
    {
      var token := sts.GetFederationToken(FederationTokenRequestFor(bucket.name, path, FEDERATION_TOKEN_EXPIRATION_HOURS));
      if token.Err? {
        return Err(token.error);
      }
      var put := bucket.PutObject(path);
      if put.Err? {
        return Err(put.error);
      }
      r := Ok(S3ReadCredentials(backupId, put.value, Entry(config.imageParameters, "region"), token.value));
    }

    /** What `getBackup(path)` answers in the current state of the bucket. */
    function BackupOutcome(path: string): (r: Result<BackupHandle>)
      reads bucket
      ensures r.Ok? <==> bucket.outage.None? && path in bucket.keys
      ensures r.Ok? ==> r.value == S3Handle(bucket.name, path)
      ensures bucket.outage.None? && path !in bucket.keys && LegacyBackupId(config).Ok? ==>
                r == Err(UserException(NotInitializedMessage(LegacyBackupId(config).value)))
      ensures bucket.outage.Some? && bucket.outage.value.code != NO_SUCH_KEY ==>
                r == Err(S3Exception(bucket.outage.value.code, bucket.outage.value.message))
    {
      var _ :- MarkerCheck(bucket.Lookup(path), LegacyBackupId(config));
      Ok(S3Handle(bucket.name, path))
    }

    /** `getBackup`: the backup folder must have been initialised. */
    method GetBackup(path: string) returns (r: Result<BackupHandle>)
      ensures r == BackupOutcome(path)
    {
      var lookup := bucket.GetObject(path);
      var checked := MarkerCheck(lookup, LegacyBackupId(config));
      if checked.Err? {
        return Err(checked.error);
      }
      r := Ok(S3Handle(bucket.name, path));
    }
  }

  /** Issuing read credentials initialises the backup: once they are issued
      the backup at that path opens, in whatever order other keys come. */
  lemma CredentialsInitializeBackup(s: AwsS3Storage, path: string, before: set<string>)
    requires s.bucket.outage.None?
    requires s.bucket.keys == before + {path}
    ensures s.BackupOutcome(path) == Ok(S3Handle(s.bucket.name, path))
  {
  }

  /** A token issued for one managed backup cannot read any object of
      another managed backup in the same bucket, nor anything in another
      bucket. */
  lemma ManagedTokenIsolation(bucket: string, r1: string, p1: string, b1: PhpInt,
                              otherBucket: string, r2: string, p2: string, b2: PhpInt, rest: string)
    requires NoWildcards(bucket) && '/' !in bucket && '/' !in otherBucket
    requires NoWildcards(r1) && NoWildcards(p1)
    requires '/' !in r1 && '/' !in p1 && '/' !in r2 && '/' !in p2
    requires (r1, p1, b1) != (r2, p2, b2) || otherBucket != bucket
    ensures !Allows(FederationTokenRequestFor(bucket, ManagedPath(r1, p1, b1), FEDERATION_TOKEN_EXPIRATION_HOURS).policy,
                    S3Request("s3:GetObject", ObjectArn(otherBucket, ManagedPath(r2, p2, b2) + rest), None))
  {
    var path := ManagedPath(r1, p1, b1);
    ManagedPathIsLiteral(r1, p1, b1);
    assert FederationTokenRequestFor(bucket, path, FEDERATION_TOKEN_EXPIRATION_HOURS).policy == ReadOnlyPolicy(bucket, path);
    ReadOnlyPolicyObjects(bucket, path, otherBucket, ManagedPath(r2, p2, b2) + rest, None);
    if otherBucket == bucket && path <= ManagedPath(r2, p2, b2) + rest {
      ManagedPathsPrefixFree(r1, p1, b1, r2, p2, b2, rest);
    }
  }

  /** A managed path holds no IAM wildcard when its region and project hold none. */
  lemma ManagedPathIsLiteral(region: string, projectId: string, backupId: PhpInt)
    requires NoWildcards(region) && NoWildcards(projectId)
    ensures NoWildcards(ManagedPath(region, projectId, backupId))
  {
    var id := IntToString(backupId);
    assert NoWildcards("data-takeout/") && NoWildcards("/");
    assert ManagedPath(region, projectId, backupId) == "data-takeout/" + region + "/" + projectId + "/" + id + "/";
  }
}
