/** The per-backend credential descriptors (`S3Config`, `AbsConfig`,
    `GcsConfig`): immutable records whose constructors copy entries of a
    parameter block into typed string properties and whose getters return
    them. The getters are the datatype fields. */
module Descriptors {
  import opened Errors
  import opened ConfigValues

  datatype S3Config = S3Config(accessKeyId: string, secretAccessKey: string, region: string, bucket: string)

  datatype AbsConfig = AbsConfig(accountName: string, accountKey: string, region: string)

  datatype GcsConfig = GcsConfig(jsonKey: string, bucket: string, region: string, isUserDefinedCredentials: bool)

  /** Assigning `$params[key]` to the typed string property `cls::$prop`
      under `strict_types`: a missing key reads as null, and null or any
      non-string scalar is a type error. */
  function StringProperty(p: Params, key: string, cls: string, prop: string): (r: Result<string>)
    ensures r.Ok? <==> HasString(p, key)
    ensures r.Ok? ==> r.value == p[key].s
  {
    if key !in p then Err(TypeError(PropertyAssignment(cls, prop, "null")))
    else if !p[key].Str? then Err(TypeError(PropertyAssignment(cls, prop, TypeName(p[key]))))
    else Ok(p[key].s)
  }

  /** `new S3Config($params)`. */
  function NewS3Config(p: Params): (r: Result<S3Config>)
    ensures r.Ok? <==> HasString(p, "access_key_id") && HasString(p, "#secret_access_key")
                       && HasString(p, "region") && HasString(p, "#bucket")
    ensures r.Ok? ==> r.value.accessKeyId == p["access_key_id"].s && r.value.secretAccessKey == p["#secret_access_key"].s
    ensures r.Ok? ==> r.value.region == p["region"].s && r.value.bucket == p["#bucket"].s
  {
    var accessKeyId :- StringProperty(p, "access_key_id", "S3Config", "accessKeyId");
    var secretAccessKey :- StringProperty(p, "#secret_access_key", "S3Config", "secretAccessKey");
    var region :- StringProperty(p, "region", "S3Config", "region");
    var bucket :- StringProperty(p, "#bucket", "S3Config", "bucket");
    Ok(S3Config(accessKeyId, secretAccessKey, region, bucket))
  }

  /** `new AbsConfig($params)`. */
  function NewAbsConfig(p: Params): (r: Result<AbsConfig>)
    ensures r.Ok? <==> HasString(p, "accountName") && HasString(p, "#accountKey") && HasString(p, "region")
    ensures r.Ok? ==> r.value.accountName == p["accountName"].s && r.value.accountKey == p["#accountKey"].s
    ensures r.Ok? ==> r.value.region == p["region"].s
  {
    var accountName :- StringProperty(p, "accountName", "AbsConfig", "accountName");
    var accountKey :- StringProperty(p, "#accountKey", "AbsConfig", "accountKey");
    var region :- StringProperty(p, "region", "AbsConfig", "region");
    Ok(AbsConfig(accountName, accountKey, region))
  }

  /** `new GcsConfig($params, $isUserDefinedCredentials)`. */
  function NewGcsConfig(p: Params, isUserDefinedCredentials: bool): (r: Result<GcsConfig>)
    ensures r.Ok? <==> HasString(p, "#jsonKey") && HasString(p, "#bucket") && HasString(p, "region")
    ensures r.Ok? ==> r.value.jsonKey == p["#jsonKey"].s && r.value.bucket == p["#bucket"].s
    ensures r.Ok? ==> r.value.region == p["region"].s && r.value.isUserDefinedCredentials == isUserDefinedCredentials
  {
    var jsonKey :- StringProperty(p, "#jsonKey", "GcsConfig", "jsonKey");
    var bucket :- StringProperty(p, "#bucket", "GcsConfig", "bucket");
    var region :- StringProperty(p, "region", "GcsConfig", "region");
    Ok(GcsConfig(jsonKey, bucket, region, isUserDefinedCredentials))
  }

  /** The parameter block a descriptor is read from. */
  function S3Params(c: S3Config): Params {
    map["access_key_id" := Str(c.accessKeyId), "#secret_access_key" := Str(c.secretAccessKey),
        "region" := Str(c.region), "#bucket" := Str(c.bucket)]
  }

  function AbsParams(c: AbsConfig): Params {
    map["accountName" := Str(c.accountName), "#accountKey" := Str(c.accountKey), "region" := Str(c.region)]
  }

  function GcsParams(c: GcsConfig): Params {
    map["#jsonKey" := Str(c.jsonKey), "#bucket" := Str(c.bucket), "region" := Str(c.region)]
  }

  /** Every descriptor is read back from its own parameter block, so the
      constructors lose nothing and the getters return what was given. */
  lemma DescriptorsRoundTrip(s3: S3Config, abs: AbsConfig, gcs: GcsConfig)
    ensures NewS3Config(S3Params(s3)) == Ok(s3)
    ensures NewAbsConfig(AbsParams(abs)) == Ok(abs)
    ensures NewGcsConfig(GcsParams(gcs), gcs.isUserDefinedCredentials) == Ok(gcs)
  {
  }

  /** Extra entries of a parameter block (the backend type, a backup path)
      do not reach the descriptor: it depends on its own keys only. */
  lemma S3ConfigReadsOwnKeys(p: Params, q: Params)
    requires forall k :: k in ["access_key_id", "#secret_access_key", "region", "#bucket"] ==>
               (k in p <==> k in q) && (k in p ==> p[k] == q[k])
    ensures NewS3Config(p) == NewS3Config(q)
  {
    assert "access_key_id" in ["access_key_id", "#secret_access_key", "region", "#bucket"];
    assert "#secret_access_key" in ["access_key_id", "#secret_access_key", "region", "#bucket"];
    assert "region" in ["access_key_id", "#secret_access_key", "region", "#bucket"];
    assert "#bucket" in ["access_key_id", "#secret_access_key", "region", "#bucket"];
  }
}
