/** The Google Cloud Storage backend (`GoogleCloudStorage`). It mutates
    nothing: `getBackup` only normalises the path, and read access is a
    downscoped token obtained by exchanging the service account's token
    (OAuth 2.0 Token Exchange, section 2.1 of RFC 8693) under a credential
    access boundary that admits a single object. */
module GcsStorage {
  import opened Errors
  import opened Strings
  import opened Descriptors
  import opened Exports

  const SIGNED_URLS_FILE: string := "signedUrls.json"
  const OBJECT_VIEWER_ROLE: string := "inRole:roles/storage.objectViewer"
  const TOKEN_EXCHANGE_GRANT: string := "urn:ietf:params:oauth:grant-type:token-exchange"
  const ACCESS_TOKEN_TYPE: string := "urn:ietf:params:oauth:token-type:access_token"
  const BUCKET_RESOURCE_PREFIX: string := "//storage.googleapis.com/projects/_/buckets/"
  const NAME_EQUALS: string := "resource.name == '"

  /** The `str_ends_with`/`.=` step: `path` with a '/' appended unless it
      already ends in one. */
  function EnsureTrailingSlash(path: string): (r: string)
    ensures EndsWith(r, '/') && path <= r
    ensures EndsWith(path, '/') ==> r == path
    ensures !EndsWith(path, '/') ==> r == path + "/"
  {
    if EndsWith(path, '/') then path else path + "/"
  }

  lemma EnsureTrailingSlashIdempotent(path: string)
    ensures EnsureTrailingSlash(EnsureTrailingSlash(path)) == EnsureTrailingSlash(path)
  {
  }

  /** `getBackup`: the backup writes under the normalised path of the
      configured bucket, and generates signed URLs exactly when the bucket
      is the platform's own (managed mode). */
  function GetBackup(config: GcsConfig, path: string): (r: BackupHandle)
    ensures r.GcsHandle? && r.bucket == config.bucket
    ensures r.path == EnsureTrailingSlash(path)
    ensures r.generateSignedUrls <==> !config.isUserDefinedCredentials
  {
    GcsHandle(config.bucket, EnsureTrailingSlash(path), !config.isUserDefinedCredentials)
  }

  datatype AccessBoundaryRule = AccessBoundaryRule(availableResource: string, availablePermissions: seq<string>, expression: string)

  datatype AccessBoundary = AccessBoundary(rules: seq<AccessBoundaryRule>)

  function BucketResource(bucket: string): string {
    BUCKET_RESOURCE_PREFIX + bucket
  }

  function ObjectName(bucket: string, objectKey: string): string {
    "projects/_/buckets/" + bucket + "/objects/" + objectKey
  }

  /** The availability condition `resource.name == '<name>'`. */
  function NameIs(name: string): string {
    NAME_EQUALS + name + "'"
  }

  /** The boundary built for a backup: one rule, on the bucket, with the
      object-viewer role, limited to the backup's `signedUrls.json`. */
  function ReadBoundary(bucket: string, path: string): (b: AccessBoundary)
    ensures |b.rules| == 1
    ensures b.rules[0].availableResource == BucketResource(bucket)
    ensures b.rules[0].availablePermissions == [OBJECT_VIEWER_ROLE]
  {
    AccessBoundary([AccessBoundaryRule(BucketResource(bucket), [OBJECT_VIEWER_ROLE], NameIs(ObjectName(bucket, path + SIGNED_URLS_FILE)))])
  }

  /** The permissions a role in a boundary makes available. */
  predicate RoleGrants(role: string, permission: string) {
    role == OBJECT_VIEWER_ROLE && (permission == "storage.objects.get" || permission == "storage.objects.list")
  }

  /** Text that reads as itself between single quotes in a CEL expression:
      no quote, which would end the literal, and no backslash, which would
      start an escape. */
  predicate PlainLiteral(s: string) {
    '\'' !in s && '\\' !in s
  }

  /** Evaluation of a condition of the form `resource.name == '<literal>'`
      with a plain literal, for the object named `name`. Any other
      expression, including one whose quoted part holds a quote or a
      backslash, is not evaluated here and admits nothing. */
  predicate ConditionAdmits(expression: string, name: string) {
    && |expression| >= |NAME_EQUALS| + 1
    && expression[..|NAME_EQUALS|] == NAME_EQUALS
    && expression[|expression| - 1] == '\''
    && PlainLiteral(expression[|NAME_EQUALS|..|expression| - 1])
    && expression[|NAME_EQUALS|..|expression| - 1] == name
  }

  /** Whether a boundary lets a downscoped token use `permission` on object
      `objectKey` of `bucket`. */
  predicate BoundaryAllows(b: AccessBoundary, bucket: string, objectKey: string, permission: string) {
    exists i :: 0 <= i < |b.rules| && RuleAllows(b.rules[i], bucket, objectKey, permission)
  }

  predicate RuleAllows(rule: AccessBoundaryRule, bucket: string, objectKey: string, permission: string) {
    && rule.availableResource == BucketResource(bucket)
    && (exists k :: 0 <= k < |rule.availablePermissions| && RoleGrants(rule.availablePermissions[k], permission))
    && ConditionAdmits(rule.expression, ObjectName(bucket, objectKey))
  }

  lemma PrefixEqual(a: string, x: string, y: string)
    ensures a + x == a + y <==> x == y
  {
    if a + x == a + y {
      assert x == (a + x)[|a|..] && y == (a + y)[|a|..];
    }
  }

  /** A `resource.name == '…'` condition admits exactly the name it quotes. */
  lemma NameIsAdmitsOnly(literal: string, name: string)
    requires PlainLiteral(literal)
    ensures ConditionAdmits(NameIs(literal), name) <==> literal == name
  {
    var e := NameIs(literal);
    assert e[..|NAME_EQUALS|] == NAME_EQUALS;
    assert e[|NAME_EQUALS|..|e| - 1] == literal;
  }

  /** An object name built from plain parts is a plain literal. */
  lemma PlainObjectName(bucket: string, objectKey: string)
    requires PlainLiteral(bucket) && PlainLiteral(objectKey)
    ensures PlainLiteral(ObjectName(bucket, objectKey))
  {
    var name := ObjectName(bucket, objectKey);
    forall i | 0 <= i < |name|
      ensures name[i] != '\'' && name[i] != '\\'
    {
      var a := "projects/_/buckets/";
      var b := "/objects/";
      assert name == a + bucket + b + objectKey;
      if i < |a| {
        assert name[i] == a[i];
      } else if i < |a| + |bucket| {
        assert name[i] == bucket[i - |a|];
      } else if i < |a| + |bucket| + |b| {
        assert name[i] == b[i - |a| - |bucket|];
      } else {
        assert name[i] == objectKey[i - |a| - |bucket| - |b|];
      }
    }
  }

  /** The boundary covers a single object: the backup's `signedUrls.json` in
      the configured bucket, for reading and listing only. */
  lemma ReadBoundaryScope(bucket: string, path: string, otherBucket: string, objectKey: string, permission: string)
    requires PlainLiteral(bucket) && PlainLiteral(path)
    ensures BoundaryAllows(ReadBoundary(bucket, path), otherBucket, objectKey, permission) <==>
              && otherBucket == bucket
              && objectKey == path + SIGNED_URLS_FILE
              && (permission == "storage.objects.get" || permission == "storage.objects.list")
  {
    var rule := ReadBoundary(bucket, path).rules[0];
    PlainObjectName(bucket, path + SIGNED_URLS_FILE);
    PrefixEqual(BUCKET_RESOURCE_PREFIX, bucket, otherBucket);
    NameIsAdmitsOnly(ObjectName(bucket, path + SIGNED_URLS_FILE), ObjectName(otherBucket, objectKey));
    if otherBucket == bucket {
      assert ObjectName(bucket, path + SIGNED_URLS_FILE) == ("projects/_/buckets/" + bucket + "/objects/") + (path + SIGNED_URLS_FILE);
      assert ObjectName(bucket, objectKey) == ("projects/_/buckets/" + bucket + "/objects/") + objectKey;
      PrefixEqual("projects/_/buckets/" + bucket + "/objects/", path + SIGNED_URLS_FILE, objectKey);
    }
    if otherBucket == bucket && objectKey == path + SIGNED_URLS_FILE
       && (permission == "storage.objects.get" || permission == "storage.objects.list") {
      assert RoleGrants(rule.availablePermissions[0], permission);
      assert RuleAllows(rule, otherBucket, objectKey, permission);
    }
  }

  /** The token-exchange request (`GoogleIdentityStsV1ExchangeTokenRequest`);
      `options` is the boundary before its JSON and URL encoding. */
  datatype ExchangeRequest = ExchangeRequest(options: AccessBoundary, grantType: string, requestedTokenType: string,
                                             subjectToken: string, subjectTokenType: string)

  /** The security token service's answer, handed back as it is. */
  datatype TokenResponse = TokenResponse(accessToken: string, issuedTokenType: string, tokenType: string, expiresIn: int)

  /** The array handed back for `generate-read-credentials`. */
  datatype GcsReadCredentials = GcsReadCredentials(projectId: string, bucket: string, backupUri: string, credentials: TokenResponse)

  /** The exchange of the service account's own access token for one
      limited by the backup's boundary. */
  function ExchangeRequestFor(bucket: string, path: string, subjectToken: string): (r: ExchangeRequest)
    ensures r.grantType == TOKEN_EXCHANGE_GRANT
    ensures r.requestedTokenType == ACCESS_TOKEN_TYPE && r.subjectTokenType == ACCESS_TOKEN_TYPE
    ensures r.subjectToken == subjectToken && r.options == ReadBoundary(bucket, path)
  {
    ExchangeRequest(ReadBoundary(bucket, path), TOKEN_EXCHANGE_GRANT, ACCESS_TOKEN_TYPE, subjectToken, ACCESS_TOKEN_TYPE)
  }

  /** `generateTempReadCredentials`. The service account's token is fetched
      (`authToken`), then exchanged by the security token service
      (`exchange`); `keyProjectId` is the key file's `project_id`. The
      backup id is not used by this backend. */
  function GenerateTempReadCredentials(config: GcsConfig, backupId: string, path: string, keyProjectId: string,
                                       authToken: Result<string>, exchange: ExchangeRequest -> Result<TokenResponse>)
    : (r: Result<GcsReadCredentials>)
    ensures authToken.Err? ==> r == Err(authToken.error)
    ensures authToken.Ok? ==> (r.Ok? <==> exchange(ExchangeRequestFor(config.bucket, path, authToken.value)).Ok?)
    ensures authToken.Ok? && r.Err? ==> r.error == exchange(ExchangeRequestFor(config.bucket, path, authToken.value)).error
    ensures r.Ok? ==> r.value.projectId == keyProjectId && r.value.bucket == config.bucket && r.value.backupUri == path
    ensures r.Ok? ==> r.value.credentials == exchange(ExchangeRequestFor(config.bucket, path, authToken.value)).value
  {
    var subjectToken :- authToken;
    var response :- exchange(ExchangeRequestFor(config.bucket, path, subjectToken));
    Ok(GcsReadCredentials(keyProjectId, config.bucket, path, response))
  }
}
