/** The configuration selector (`Config\Config`): decides whose parameters
    count (the caller's `parameters` block in self-service mode, the
    image-level block in managed mode), normalises the backup path and
    supplies defaults for the flags. Every accessor is a pure function of
    the decoded configuration. */
module AppConfig {
  import opened Errors
  import opened Strings
  import opened ConfigValues
  import opened Descriptors

  /** The decoded configuration file. */
  datatype Config = Config(action: string, parameters: Params, imageParameters: Params)

  const STORAGE_BACKEND_S3: string := "s3"
  const STORAGE_BACKEND_ABS: string := "abs"

  /** `getValue(['parameters', key], $default)` */
  function ParameterOr(c: Config, key: string, default: Value): Value {
    if key in c.parameters then c.parameters[key] else default
  }

  /** `getStringValue(['parameters', key], '')` */
  function StringParameter(c: Config, key: string): string {
    AsString(ParameterOr(c, key, Str("")))
  }

  /** `getBackupId()`: the caller's backup id, '' when absent. */
  function BackupId(c: Config): (r: string)
    ensures "backupId" !in c.parameters ==> r == ""
    ensures HasString(c.parameters, "backupId") ==> r == c.parameters["backupId"].s
  {
    StringParameter(c, "backupId")
  }

  /** `isUserDefinedCredentials()`: self-service mode, i.e. the caller's
      block names a (non-empty) backend type. */
  function IsUserDefinedCredentials(c: Config): (r: bool)
    ensures r <==> "storageBackendType" in c.parameters && !IsEmptyValue(c.parameters["storageBackendType"])
  {
    !IsEmptyValue(ParameterOr(c, "storageBackendType", Str("")))
  }

  /** `getStorageBackendType()`: the caller's type when it is non-empty,
      otherwise the image-level type; a missing or non-string image-level
      type is a type error of the string return type. */
  function StorageBackendType(c: Config): (r: Result<string>)
    ensures IsUserDefinedCredentials(c) ==> r == Ok(StringParameter(c, "storageBackendType"))
    ensures !IsUserDefinedCredentials(c) ==>
              (r.Ok? <==> HasString(c.imageParameters, "storageBackendType"))
              && (r.Ok? ==> r.value == c.imageParameters["storageBackendType"].s)
  {
    EmptyAgreesWithString(ParameterOr(c, "storageBackendType", Str("")));
    var own := StringParameter(c, "storageBackendType");
    if !PhpEmpty(own) then Ok(own)
    else if "storageBackendType" !in c.imageParameters then
      Err(TypeError(ConfigReturn("getStorageBackendType", "string", "null")))
    else match c.imageParameters["storageBackendType"]
      case Str(t) => Ok(t)
      case v => Err(TypeError(ConfigReturn("getStorageBackendType", "string", TypeName(v))))
  }

  /** A flag of the `parameters` block under a `bool` return type:
      false when absent, a type error when it is not a boolean. */
  function FlagParameter(c: Config, key: string, getter: string): (r: Result<bool>)
    ensures key !in c.parameters ==> r == Ok(false)
    ensures key in c.parameters ==> (r.Ok? <==> c.parameters[key].Flag?)
    ensures key in c.parameters && r.Ok? ==> r.value == c.parameters[key].b
  {
    match ParameterOr(c, key, Flag(false))
    case Flag(b) => Ok(b)
    case v => Err(TypeError(ConfigReturn(getter, "bool", TypeName(v))))
  }

  /** `exportStructureOnly()`, false by default. */
  function ExportStructureOnly(c: Config): (r: Result<bool>)
    ensures r == Ok(true) <==> "exportStructureOnly" in c.parameters && c.parameters["exportStructureOnly"] == Flag(true)
    ensures r.Err? <==> "exportStructureOnly" in c.parameters && !c.parameters["exportStructureOnly"].Flag?
  {
    FlagParameter(c, "exportStructureOnly", "exportStructureOnly")
  }

  /** `includeVersions()`, false by default. */
  function IncludeVersions(c: Config): (r: Result<bool>)
    ensures r == Ok(true) <==> "includeVersions" in c.parameters && c.parameters["includeVersions"] == Flag(true)
    ensures r.Err? <==> "includeVersions" in c.parameters && !c.parameters["includeVersions"].Flag?
  {
    FlagParameter(c, "includeVersions", "includeVersions")
  }

  /** `getCredentialsParameters()`: the whole block whose backend type won. */
  function CredentialsParameters(c: Config): (r: Params)
    ensures IsUserDefinedCredentials(c) ==> r == c.parameters
    ensures !IsUserDefinedCredentials(c) ==> r == c.imageParameters
  {
    if IsUserDefinedCredentials(c) then c.parameters else c.imageParameters
  }

  /** The path an S3 backup is written under: "." when no path is given,
      otherwise the path with its trailing slashes replaced by exactly one. */
  function NormalizeS3Path(p: string): (r: string)
    ensures p == "" ==> r == "."
    ensures p != "" ==> EndsWith(r, '/') && !EndsWith(r[..|r| - 1], '/')
    ensures p != "" ==> r[..|r| - 1] <= p && forall i :: |r| - 1 <= i < |p| ==> p[i] == '/'
  {
    if p == "" then "." else RTrim(p, '/') + "/"
  }

  /** Normalising a normalised (non-empty) path changes nothing. */
  lemma NormalizeS3PathIdempotent(p: string)
    requires p != ""
    ensures NormalizeS3Path(NormalizeS3Path(p)) == NormalizeS3Path(p)
  {
    var t := RTrim(p, '/');
    assert t + "/" == t + seq(1, _ => '/');
    RTrimAppend(t, '/', 1);
    RTrimIdempotent(p, '/');
  }

  /** Two paths that differ only in trailing slashes name the same S3 location. */
  lemma NormalizeS3PathIgnoresTrailingSlashes(p: string, k: nat)
    requires p != ""
    ensures NormalizeS3Path(p + seq(k, _ => '/')) == NormalizeS3Path(p)
  {
    RTrimAppend(p, '/', k);
  }

  /** `getPath()`: S3 paths are normalised, any other backend's path is
      returned as given ('' when absent); a non-string path is a type error. */
  function Path(c: Config): (r: Result<string>)
    ensures StorageBackendType(c).Err? ==> r == Err(StorageBackendType(c).error)
    ensures "backupPath" !in c.parameters && StorageBackendType(c) == Ok(STORAGE_BACKEND_S3) ==> r == Ok(".")
    ensures "backupPath" !in c.parameters && StorageBackendType(c).Ok? ==>
              StorageBackendType(c).value != STORAGE_BACKEND_S3 ==> r == Ok("")
    ensures HasString(c.parameters, "backupPath") && StorageBackendType(c) == Ok(STORAGE_BACKEND_S3) ==>
              r == Ok(NormalizeS3Path(c.parameters["backupPath"].s))
    ensures HasString(c.parameters, "backupPath") && StorageBackendType(c).Ok? ==>
              StorageBackendType(c).value != STORAGE_BACKEND_S3 ==> r == Ok(c.parameters["backupPath"].s)
    ensures "backupPath" in c.parameters && !c.parameters["backupPath"].Str? ==> r.Err?
  {
    var path := ParameterOr(c, "backupPath", Str(""));
    var backendType :- StorageBackendType(c);
    if backendType == STORAGE_BACKEND_S3 then
      if path.Str? then Ok(NormalizeS3Path(path.s))
      else Err(TypeError(FirstArgument("rtrim", "string", "string", TypeName(path))))
    else if path.Str? then Ok(path.s)
    else Err(TypeError(ConfigReturn("getPath", "string", TypeName(path))))
  }

  /** `getS3Config()` */
  function S3ConfigOf(c: Config): (r: Result<S3Config>)
    ensures IsUserDefinedCredentials(c) ==> r == NewS3Config(c.parameters)
    ensures !IsUserDefinedCredentials(c) ==> r == NewS3Config(c.imageParameters)
  {
    NewS3Config(CredentialsParameters(c))
  }

  /** `getAbsConfig()` */
  function AbsConfigOf(c: Config): (r: Result<AbsConfig>)
    ensures IsUserDefinedCredentials(c) ==> r == NewAbsConfig(c.parameters)
    ensures !IsUserDefinedCredentials(c) ==> r == NewAbsConfig(c.imageParameters)
  {
    NewAbsConfig(CredentialsParameters(c))
  }

  /** Self-service precedence: when the caller's block names a backend type,
      that type and that block win, whatever the image-level block says;
      otherwise the image-level type and block are used. */
  lemma SelectorPrecedence(c: Config)
    ensures IsUserDefinedCredentials(c) <==>
              "storageBackendType" in c.parameters && !PhpEmpty(AsString(c.parameters["storageBackendType"]))
    ensures IsUserDefinedCredentials(c) ==>
              StorageBackendType(c) == Ok(AsString(c.parameters["storageBackendType"]))
              && S3ConfigOf(c) == NewS3Config(c.parameters) && AbsConfigOf(c) == NewAbsConfig(c.parameters)
    ensures !IsUserDefinedCredentials(c) && HasString(c.imageParameters, "storageBackendType") ==>
              StorageBackendType(c) == Ok(c.imageParameters["storageBackendType"].s)
              && S3ConfigOf(c) == NewS3Config(c.imageParameters) && AbsConfigOf(c) == NewAbsConfig(c.imageParameters)
  {
    if "storageBackendType" in c.parameters {
      EmptyAgreesWithString(c.parameters["storageBackendType"]);
    }
  }
}
