/** The Azure Blob Storage backend (`AzureBlobStorage`): one storage account
    whose containers hold the backups, one container per backup path. The
    path is folded into a container name; read access is handed out as a
    container-level shared access signature inside a connection string. */
module AzureStorage {
  import opened Errors
  import opened Strings
  import opened Descriptors
  import opened Exports

  const SAS_DEFAULT_EXPIRATION_HOURS: nat := 36
  const RESOURCE_TYPE_CONTAINER: string := "c"
  const READ_LIST_PERMISSIONS: string := "rl"
  const BLOB_ENDPOINT_NAME: string := "BlobEndpoint"
  const SAS_SETTING_NAME: string := "SharedAccessSignature"
  const CONTAINER_EXISTS_MESSAGE: string := "The specified container already exists."

  /** `modifyPath`: every '/' becomes '-', then trailing '-' are trimmed. */
  function ModifyPath(path: string): (r: string)
    ensures |r| <= |path|
    ensures forall i :: 0 <= i < |r| ==> r[i] == (if path[i] == '/' then '-' else path[i])
    ensures forall i :: |r| <= i < |path| ==> path[i] == '/' || path[i] == '-'
    ensures '/' !in r && !EndsWith(r, '-')
  {
    RTrim(Replace(path, '/', '-'), '-')
  }

  /** A container name is its own folding. */
  lemma ModifyPathIdempotent(path: string)
    ensures ModifyPath(ModifyPath(path)) == ModifyPath(path)
  {
    var r := ModifyPath(path);
    assert Replace(r, '/', '-') == r;
  }

  /** The fields of a shared access signature the backend asks for. */
  datatype SasGrant = SasGrant(accountName: string, resourceType: string, resource: string,
                               permissions: string, expiry: int, start: int)

  /** The grant for reading one container, from `now` for 36 hours
      (times in seconds). */
  function ReadGrant(accountName: string, container: string, now: int): (g: SasGrant)
    ensures g.resourceType == RESOURCE_TYPE_CONTAINER && g.resource == container
    ensures g.permissions == READ_LIST_PERMISSIONS
    ensures g.start == now && g.expiry - g.start == SAS_DEFAULT_EXPIRATION_HOURS * 3600
  {
    SasGrant(accountName, RESOURCE_TYPE_CONTAINER, container, READ_LIST_PERMISSIONS, now + SAS_DEFAULT_EXPIRATION_HOURS * 3600, now)
  }

  /** Whether a signature lets its holder perform operation `op` ('r' read,
      'l' list, 'w' write, 'd' delete, ...) on blobs of `container` at time `at`. */
  predicate GrantPermits(g: SasGrant, container: string, op: char, at: int) {
    && g.resourceType == RESOURCE_TYPE_CONTAINER
    && g.resource == container
    && op in g.permissions
    && g.start <= at <= g.expiry
  }

  /** The grant reads and lists the backup container, nothing else, from now
      until 36 hours from now. */
  lemma ReadGrantScope(accountName: string, container: string, now: int, other: string, op: char, at: int)
    ensures GrantPermits(ReadGrant(accountName, container, now), other, op, at) <==>
              other == container && (op == 'r' || op == 'l') && now <= at <= now + 36 * 3600
  {
  }

  function BlobEndpoint(accountName: string): string {
    "https://" + accountName + ".blob.core.windows.net"
  }

  /** `getConnectionString($sasToken)`. */
  function ConnectionString(accountName: string, sasToken: string): string {
    BLOB_ENDPOINT_NAME + "=" + BlobEndpoint(accountName) + ";" + SAS_SETTING_NAME + "=" + sasToken
  }

  /** How a client reads a connection string: the first setting runs up to
      the first ';', the rest is the next setting. */
  function FirstSetting(cs: string): (string, string) {
    var k := IndexOf(cs, ';');
    (cs[..k], if k < |cs| then cs[k + 1..] else "")
  }

  /** The value of `setting` when it is `name=value`. */
  function SettingValue(setting: string, name: string): Option<string> {
    if name + "=" <= setting then Some(setting[|name| + 1..]) else None
  }

  lemma SettingValueOf(name: string, value: string)
    ensures SettingValue(name + "=" + value, name) == Some(value)
  {
    var setting := name + "=" + value;
    assert setting[..|name| + 1] == name + "=";
    assert setting[|name| + 1..] == value;
  }

  lemma FirstSettingSplit(head: string, tail: string)
    requires ';' !in head
    ensures FirstSetting(head + ";" + tail) == (head, tail)
  {
    IndexOfAfter(head, ';', tail);
    assert (head + ";" + tail)[..|head|] == head;
    assert (head + ";" + tail)[|head| + 1..] == tail;
  }

  lemma EndpointSettingHasNoSeparator(accountName: string)
    requires ';' !in accountName
    ensures ';' !in BLOB_ENDPOINT_NAME + "=" + BlobEndpoint(accountName)
  {
    var host := ".blob.core.windows.net";
    assert ';' !in BLOB_ENDPOINT_NAME && ';' !in "=" && ';' !in "https://" && ';' !in host;
    assert BLOB_ENDPOINT_NAME + "=" + BlobEndpoint(accountName) == BLOB_ENDPOINT_NAME + "=" + "https://" + accountName + host;
  }

  /** A client reading the connection string finds the account's blob
      endpoint and the signature, unchanged. */
  lemma ConnectionStringRoundTrip(accountName: string, sasToken: string)
    requires ';' !in accountName
    ensures SettingValue(FirstSetting(ConnectionString(accountName, sasToken)).0, BLOB_ENDPOINT_NAME) == Some(BlobEndpoint(accountName))
    ensures SettingValue(FirstSetting(ConnectionString(accountName, sasToken)).1, SAS_SETTING_NAME) == Some(sasToken)
  {
    var head := BLOB_ENDPOINT_NAME + "=" + BlobEndpoint(accountName);
    var tail := SAS_SETTING_NAME + "=" + sasToken;
    assert ConnectionString(accountName, sasToken) == head + ";" + tail;
    EndpointSettingHasNoSeparator(accountName);
    FirstSettingSplit(head, tail);
    SettingValueOf(BLOB_ENDPOINT_NAME, BlobEndpoint(accountName));
    SettingValueOf(SAS_SETTING_NAME, sasToken);
  }

  /** A service error of the Azure SDK: HTTP status and service message. */
  datatype ServiceError = ServiceError(code: int, message: string)

  /** The storage account the configured name and key reach: its containers,
      and `outage`, a service that answers every request with one error
      (403 for a wrong key). */
  class AzureAccount {
    const outage: Option<ServiceError>
    var containers: set<string>

    constructor (outage: Option<ServiceError>, containers: set<string>)
      ensures this.outage == outage && this.containers == containers
    {
      this.outage := outage;
      this.containers := containers;
    }

    /** What `listContainers` answers: the names of the containers. */
    function Listing(): (r: Result<set<string>>)
      reads this
      ensures outage.Some? ==> r == Err(AzureServiceException(outage.value.code, outage.value.message))
      ensures outage.None? ==> r == Ok(containers)
    {
      match outage
      case Some(e) => Err(AzureServiceException(e.code, e.message))
      case None => Ok(containers)
    }

    method ListContainers() returns (r: Result<set<string>>)
      ensures r == Listing()
    {
      r := Listing();
    }

    /** `createContainer`: fails with 409 when the container exists. */
    method CreateContainer(container: string) returns (r: Result<()>)
      modifies this`containers
      ensures outage.Some? ==>
                r == Err(AzureServiceException(outage.value.code, outage.value.message)) && containers == old(containers)
      ensures outage.None? && container in old(containers) ==>
                r == Err(AzureServiceException(409, CONTAINER_EXISTS_MESSAGE)) && containers == old(containers)
      ensures outage.None? && container !in old(containers) ==> r == Ok(()) && containers == old(containers) + {container}
    {
      match outage {
        case Some(e) =>
          r := Err(AzureServiceException(e.code, e.message));
        case None =>
          if container in containers {
            r := Err(AzureServiceException(409, CONTAINER_EXISTS_MESSAGE));
          } else {
            containers := containers + {container};
            r := Ok(());
          }
      }
    }
  }

  /** The array handed back for `generate-read-credentials`. */
  datatype AbsReadCredentials = AbsReadCredentials(backupId: string, region: string, container: string, connectionString: string)

  function ContainerMissingMessage(container: string): string {
    "The specified container \"" + container + "\" does not exist."
  }

  /** The `try`/`catch` around the listing: a 403 (a wrong account key) is
      the caller's mistake and becomes a user error carrying the service
      message; every other failure passes through unchanged. */
  function ListingCheck(listing: Result<set<string>>): (r: Result<set<string>>)
    ensures listing.Ok? ==> r == listing
    ensures listing.Err? && listing.error.AzureServiceException? && listing.error.code == 403 ==>
              r == Err(UserException(listing.error.errorMessage))
    ensures listing.Err? && !(listing.error.AzureServiceException? && listing.error.code == 403) ==> r == listing
  {
    match listing
    case Ok(_) => listing
    case Err(e) => if e.AzureServiceException? && e.code == 403 then Err(UserException(e.errorMessage)) else listing
  }

  /** `AzureBlobStorage`: the account is reached with the descriptor's
      account name and key. */
  class AzureBlobStorage {
    const config: AbsConfig
    const account: AzureAccount

    constructor (config: AbsConfig, account: AzureAccount)
      ensures this.config == config && this.account == account
    {
      this.config := config;
      this.account := account;
    }

    /** `generateTempReadCredentials`: creates the container for the folded
        path and returns a read-and-list signature for it, valid from `now`
        for 36 hours. `sign` is the signing helper keyed with the account
        key. An existing container is a (fatal) conflict. */
    method GenerateTempReadCredentials(backupId: string, path: string, now: int, sign: (string, SasGrant) -> string)
      returns (r: Result<AbsReadCredentials>)
      modifies account`containers
      ensures account.outage.Some? ==>
                r == Err(AzureServiceException(account.outage.value.code, account.outage.value.message))
                && account.containers == old(account.containers)
      ensures account.outage.None? ==> account.containers == old(account.containers) + {ModifyPath(path)}
      ensures account.outage.None? ==> (r.Ok? <==> ModifyPath(path) !in old(account.containers))
      ensures account.outage.None? && ModifyPath(path) in old(account.containers) ==>
                r == Err(AzureServiceException(409, CONTAINER_EXISTS_MESSAGE))
      ensures r.Ok? ==> r.value.backupId == backupId && r.value.region == config.region
      ensures r.Ok? ==> r.value.container == ModifyPath(path)
      ensures r.Ok? ==>
                r.value.connectionString == ConnectionString(config.accountName, sign(config.accountKey, ReadGrant(config.accountName, ModifyPath(path), now)))
    {
      var container := ModifyPath(path);
      var created := account.CreateContainer(container);
      if created.Err? {
        return Err(created.error);
      }
      var sasToken := sign(config.accountKey, ReadGrant(config.accountName, container, now));
      r := Ok(AbsReadCredentials(backupId, config.region, container, ConnectionString(config.accountName, sasToken)));
    }

    /** What `getBackup(path)` answers in the current state of the account. */
    function BackupOutcome(path: string): (r: Result<BackupHandle>)
      reads account
      ensures r.Ok? <==> account.outage.None? && ModifyPath(path) in account.containers
      ensures r.Ok? ==> r.value == AbsHandle(ModifyPath(path))
      ensures account.outage.Some? && account.outage.value.code == 403 ==>
                r == Err(UserException(account.outage.value.message))
      ensures account.outage.Some? && account.outage.value.code != 403 ==>
                r == Err(AzureServiceException(account.outage.value.code, account.outage.value.message))
      ensures account.outage.None? && ModifyPath(path) !in account.containers ==>
                r == Err(UserException(ContainerMissingMessage(ModifyPath(path))))
    {
      var containers :- ListingCheck(account.Listing());
      if ModifyPath(path) in containers then Ok(AbsHandle(ModifyPath(path)))
      else Err(UserException(ContainerMissingMessage(ModifyPath(path))))
    }

    /** `getBackup`: the container must exist; it is never created here. */
    method GetBackup(path: string) returns (r: Result<BackupHandle>)
      ensures r == BackupOutcome(path)
    {
      var container := ModifyPath(path);
      var listing := account.ListContainers();
      var checked := ListingCheck(listing);
      if checked.Err? {
        return Err(checked.error);
      }
      if container !in checked.value {
        return Err(UserException(ContainerMissingMessage(container)));
      }
      r := Ok(AbsHandle(container));
    }
  }
}
