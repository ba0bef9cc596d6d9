/** The orchestrator (`Application`): picks the storage backend, resolves the
    backup path (the caller's path in self-service mode, the managed path
    behind the region guard otherwise), and either exports the project into
    the backup or asks the backend for read credentials. */
module Orchestrator {
  import opened Errors
  import opened Strings
  import opened ConfigValues
  import opened Descriptors
  import opened AppConfig
  import opened Exports
  import opened BackupPaths
  import opened AwsPolicy
  import opened S3Storage
  import opened AzureStorage

  /** Tables that are never exported. */
  const EXCLUDE_TABLES: seq<string> := [
    "in.c-kds-team-ex-mixpanel-152770611.output",
    "in.c-L1_RAW_PS_scenarios.scenario-execution-log",
    "in.c-L1_RAW_PS_scenarios.scenario_version",
    "in.c-L1_RAW_PS_stats.scenario_counter",
    "in.c-L1_RAW_PS_scenarios.scenario-log2",
    "out.c-L2_PS_scenarios.scenario_version",
    "out.c-L2_PS_scenarios.scenario_log2",
    "out.c-L2_PS_scenarios.scenario_module_snapshot",
    "out.c-3_scn.scn_daily_stats",
    "out.c-L2_PS_scenarios.scenario_snapshot",
    "out.c-L2_PS_users.user_snapshot",
    "out.c-L2_PS_users.company_user_snapshot",
    "out.c-3_org.org_scn_daily_stats",
    "out.c-L2_P_stats.scenario_counter"
  ]

  /** Every excluded id starts with a letter, so none is a numeric string:
      PHP's loose `in_array` compares them with the listed ids as strings. */
  lemma ExcludedTablesAreNotNumeric()
    ensures forall t :: t in EXCLUDE_TABLES ==> ReadNumeral(SkipSpace(t)).NotNumeric?
  {
    forall t | t in EXCLUDE_TABLES
      ensures ReadNumeral(SkipSpace(t)).NotNumeric?
    {
      assert "in.c-" <= t || "out.c-" <= t;
      LetterStartIsNotNumeric(t);
    }
  }

  /** The type error the S3 branch of the constructor hits: `AwsS3Storage`'s
      constructor takes the older configuration object, not an `S3Config`. */
  const S3_WIRING_FAULT: TypeFault :=
    FirstArgument("AwsS3Storage::__construct", "config", "Keboola\\App\\ProjectBackup\\Config",
                  "Keboola\\App\\ProjectBackup\\Config\\S3Config")

  function UnknownBackendMessage(backendType: string): string {
    "Unknown storage backend type \"" + backendType + "\"."
  }

  /** The `switch` of the constructor: `abs` builds the Azure backend from
      the selected descriptor; `s3` reads the S3 descriptor and then fails on
      the argument type of `AwsS3Storage`; any other type is a user error
      naming it. */
  function SelectBackend(c: Config): (r: Result<AbsConfig>)
    ensures StorageBackendType(c).Err? ==> r == Err(StorageBackendType(c).error)
    ensures StorageBackendType(c) == Ok(STORAGE_BACKEND_ABS) ==> r == AbsConfigOf(c)
    ensures StorageBackendType(c) == Ok(STORAGE_BACKEND_S3) ==> r.Err?
    ensures StorageBackendType(c) == Ok(STORAGE_BACKEND_S3) && S3ConfigOf(c).Err? ==> r == Err(S3ConfigOf(c).error)
    ensures StorageBackendType(c).Ok? && StorageBackendType(c).value !in {STORAGE_BACKEND_S3, STORAGE_BACKEND_ABS} ==>
              r == Err(UserException(UnknownBackendMessage(StorageBackendType(c).value)))
  {
    var backendType :- StorageBackendType(c);
    if backendType == STORAGE_BACKEND_S3 then
      var _ :- S3ConfigOf(c);
      Err(TypeError(S3_WIRING_FAULT))
    else if backendType == STORAGE_BACKEND_ABS then
      AbsConfigOf(c)
    else
      Err(UserException(UnknownBackendMessage(backendType)))
  }

  /** As written, the S3 branch never yields a backend. */
  lemma S3SelectionFails(c: Config)
    requires StorageBackendType(c) == Ok(STORAGE_BACKEND_S3)
    ensures SelectBackend(c).Err?
    ensures S3ConfigOf(c).Ok? ==> SelectBackend(c) == Err(TypeError(S3_WIRING_FAULT))
  {
  }

  /** The path a backup lives at: the caller's configured path in
      self-service mode, otherwise the managed path for `backupId` (cast
      with `(int)`) behind the region guard. */
  function BackupPathFor(c: Config, owner: TokenOwner, backupId: string): (r: Result<string>)
    ensures IsUserDefinedCredentials(c) ==> r == Path(c)
    ensures !IsUserDefinedCredentials(c) ==> (r.Ok? <==> InConfiguredRegion(owner, c.imageParameters))
    ensures !IsUserDefinedCredentials(c) && r.Ok? ==> r.value == ManagedPath(owner.region, owner.id, PhpIntCast(backupId))
    ensures !IsUserDefinedCredentials(c) && r.Err? ==>
              r.error == PlainException(RegionMismatchMessage(owner.id, ConfiguredRegion(c.imageParameters)))
  {
    if IsUserDefinedCredentials(c) then Path(c) else GenerateBackupPath(PhpIntCast(backupId), owner, c.imageParameters)
  }

  /** In self-service mode neither the token owner nor the backup id is
      consulted: the region guard does not apply. */
  lemma SelfServiceIgnoresOwner(c: Config, o1: TokenOwner, o2: TokenOwner, id1: string, id2: string)
    requires IsUserDefinedCredentials(c)
    ensures BackupPathFor(c, o1, id1) == BackupPathFor(c, o2, id2)
  {
  }

  /** The result of an export and the calls it made. */
  datatype ExportOutcome = ExportOutcome(result: Result<()>, events: seq<Event>)

  /** The export into an opened backup: tables metadata, then (unless only
      the structure is exported) every listed table not excluded, then the
      configurations. A flag of the wrong type stops it where it is read. */
  function ExportRun(target: BackupHandle, c: Config, tables: seq<string>, excluded: seq<string>): (o: ExportOutcome)
    ensures |o.events| >= 1 && o.events[0] == TablesMetadata(target)
    ensures o.result.Ok? <==> ExportStructureOnly(c).Ok? && IncludeVersions(c).Ok?
    ensures o.result.Err? ==> o.result.error == (if ExportStructureOnly(c).Err? then ExportStructureOnly(c).error else IncludeVersions(c).error)
  {
    var metadata := [TablesMetadata(target)];
    match ExportStructureOnly(c)
    case Err(e) => ExportOutcome(Err(e), metadata)
    case Ok(structureOnly) =>
      var withTables := metadata + (if structureOnly then [] else TableEvents(target, tables, excluded, |tables|));
      match IncludeVersions(c)
      case Err(e) => ExportOutcome(Err(e), withTables)
      case Ok(includeVersions) => ExportOutcome(Ok(()), withTables + [Configurations(target, includeVersions)])
  }

  /** What an export does: metadata first; configurations last on success;
      the tables exported are exactly the listed ones that are not
      excluded, in listing order, or none at all when only the structure is
      exported; nothing excluded is ever exported and every export goes to
      the opened backup. */
  lemma ExportRunProperties(target: BackupHandle, c: Config, tables: seq<string>, excluded: seq<string>)
    ensures var o := ExportRun(target, c, tables, excluded);
      o.result.Ok? ==> o.events[|o.events| - 1] == Configurations(target, IncludeVersions(c).value)
    ensures ExportStructureOnly(c) == Ok(false) ==>
              ExportedTables(ExportRun(target, c, tables, excluded).events) == Included(tables, excluded)
    ensures ExportStructureOnly(c) != Ok(false) ==> ExportedTables(ExportRun(target, c, tables, excluded).events) == []
    ensures forall e :: e in ExportRun(target, c, tables, excluded).events && e.TableData? ==>
              e.tableId !in excluded && e.target == target
  {
    var metadata := [TablesMetadata(target)];
    match ExportStructureOnly(c)
    case Err(_) =>
      FramedExport(target, [], []);
      assert metadata + [] + [] == metadata;
    case Ok(structureOnly) =>
      var middle := if structureOnly then [] else TableEvents(target, tables, excluded, |tables|);
      if !structureOnly {
        TableEventsExportIncluded(target, tables, excluded, |tables|);
        assert tables[..|tables|] == tables;
        TableEventsSkipExcluded(target, tables, excluded, |tables|);
      }
      match IncludeVersions(c)
      case Err(_) =>
        FramedExport(target, middle, []);
        assert metadata + middle + [] == metadata + middle;
      case Ok(includeVersions) =>
        FramedExport(target, middle, [Configurations(target, includeVersions)]);
  }

  /** The backend the orchestrator works with (`IStorage`). */
  datatype Storage = S3Backend(s3: AwsS3Storage) | AbsBackend(abs: AzureBlobStorage)

  /** What a backend's `generateTempReadCredentials` hands back. */
  datatype ReadCredentials = S3Credentials(s3: S3ReadCredentials) | AbsCredentials(abs: AbsReadCredentials) {
    function BackupId(): string {
      match this
      case S3Credentials(c) => c.backupId
      case AbsCredentials(c) => c.backupId
    }
  }

  class Application {
    const config: Config
    const storageBackend: Storage
    const excludeTables: seq<string>

    /** An S3 backend works in the configured bucket. */
    predicate BackendConfigured() {
      storageBackend.S3Backend? ==> storageBackend.s3.Configured()
    }

    /** The orchestrator over an already built backend. */
    constructor (config: Config, storageBackend: Storage)
      requires storageBackend.S3Backend? ==> storageBackend.s3.Configured()
      ensures this.config == config && this.storageBackend == storageBackend
      ensures BackendConfigured()
      ensures excludeTables == EXCLUDE_TABLES
    {
      this.config := config;
      this.storageBackend := storageBackend;
      excludeTables := EXCLUDE_TABLES;
    }

    /** `new Application($config, $logger)`: the backend is chosen by
        `SelectBackend`; the Azure backend works in `account`, the storage
        account the selected descriptor's name and key reach. */
    static method Create(config: Config, account: AzureAccount) returns (r: Result<Application>)
      ensures r.Ok? <==> SelectBackend(config).Ok?
      ensures r.Err? ==> r.error == SelectBackend(config).error
      ensures r.Ok? ==> fresh(r.value) && r.value.config == config && r.value.excludeTables == EXCLUDE_TABLES
      ensures r.Ok? ==> r.value.storageBackend.AbsBackend? && fresh(r.value.storageBackend.abs)
      ensures r.Ok? ==> r.value.storageBackend.abs.config == SelectBackend(config).value
      ensures r.Ok? ==> r.value.storageBackend.abs.account == account
    {
      var selected := SelectBackend(config);
      if selected.Err? {
        return Err(selected.error);
      }
      var backend := new AzureBlobStorage(selected.value, account);
      var app := new Application(config, AbsBackend(backend));
      r := Ok(app);
    }

    /** The objects that hold the backend's store. */
    function Stores(): set<object> {
      match storageBackend
      case S3Backend(s) => {s.bucket, s.sts}
      case AbsBackend(a) => {a.account}
    }

    /** What the backend's `getBackup(path)` answers in the current state. */
    function Opened(path: string): Result<BackupHandle>
      reads Stores()
    {
      match storageBackend
      case S3Backend(s) => s.BackupOutcome(path)
      case AbsBackend(a) => a.BackupOutcome(path)
    }

    method GetBackup(path: string) returns (r: Result<BackupHandle>)
      ensures r == Opened(path)
    {
      match storageBackend {
        case S3Backend(s) => r := s.GetBackup(path);
        case AbsBackend(a) => r := a.GetBackup(path);
      }
    }

    /** The backup `run()` exports into: the resolved path, opened. */
    function RunTarget(owner: TokenOwner): Result<BackupHandle>
      reads Stores()
    {
      var path :- BackupPathFor(config, owner, BackupId(config));
      Opened(path)
    }

    /** What the backup `run()` opens depends only on the stores. */
    twostate lemma RunTargetFrame(owner: TokenOwner)
      requires unchanged(Stores())
      ensures RunTarget(owner) == old(RunTarget(owner))
    {
    }

    /** `run()`: resolve the path, open the backup (it must exist), then
        export into it. `tables` is the project's table listing. Nothing is
        exported when the path or the backup cannot be resolved. */
    method Run(owner: TokenOwner, tables: seq<string>, log: ExportLog) returns (r: Result<()>)
      modifies log
      ensures old(RunTarget(owner)).Err? ==> r == Err(old(RunTarget(owner)).error) && log.events == old(log.events)
      ensures old(RunTarget(owner)).Ok? ==> r == ExportRun(old(RunTarget(owner)).value, config, tables, excludeTables).result
      ensures old(RunTarget(owner)).Ok? ==>
                log.events == old(log.events) + ExportRun(old(RunTarget(owner)).value, config, tables, excludeTables).events
    {
      var target := OpenRunTarget(owner);
      RunTargetFrame(owner);
      if target.Err? {
        return Err(target.error);
      }
      r := ExportInto(target.value, tables, log);
    }

    /** The first half of `run()`: resolve the path and open the backup. */
    method OpenRunTarget(owner: TokenOwner) returns (r: Result<BackupHandle>)
      ensures r == RunTarget(owner)
    {
      var path := BackupPathFor(config, owner, BackupId(config));
      if path.Err? {
        return Err(path.error);
      }
      r := GetBackup(path.value);
    }

    /** The export part of `run()`, into an opened backup. */
    method ExportInto(backup: BackupHandle, tables: seq<string>, log: ExportLog) returns (r: Result<()>)
      modifies log
      ensures r == ExportRun(backup, config, tables, excludeTables).result
      ensures log.events == old(log.events) + ExportRun(backup, config, tables, excludeTables).events
    {
      ghost var before := log.events;
      log.BackupTablesMetadata(backup);
      var structureOnly := ExportStructureOnly(config);
      if structureOnly.Err? {
        return Err(structureOnly.error);
      }
      ghost var middle := if structureOnly.value then [] else TableEvents(backup, tables, excludeTables, |tables|);
      if !structureOnly.value {
        ExportTables(backup, tables, log);
      }
      assert log.events == before + ([TablesMetadata(backup)] + middle);
      var includeVersions := IncludeVersions(config);
      if includeVersions.Err? {
        return Err(includeVersions.error);
      }
      log.BackupConfigs(backup, includeVersions.value);
      r := Ok(());
    }

    /** The table loop: walks the listing in order, skips excluded tables,
        and announces each other table by its position in the full listing
        before exporting it. */
    method ExportTables(backup: BackupHandle, tables: seq<string>, log: ExportLog)
      modifies log
      ensures log.events == old(log.events) + TableEvents(backup, tables, excludeTables, |tables|)
    {
      var i := 0;
      while i < |tables|
        invariant 0 <= i <= |tables|
        invariant log.events == old(log.events) + TableEvents(backup, tables, excludeTables, i)
      {
        if tables[i] !in excludeTables {
          log.LogTableProgress(i + 1, |tables|);
          log.BackupTable(backup, tables[i]);
        }
        i := i + 1;
      }
    }

    /** `generateReadCredentials()`: the freshly generated id names the
        managed path (cast with `(int)`) and is handed to the backend, and
        back to the caller, unchanged. Once credentials are issued the
        backup at that path opens. `now` and `sign` serve the Azure
        signature. */
    method GenerateReadCredentials(owner: TokenOwner, generatedId: string, now: int, sign: (string, SasGrant) -> string)
      returns (r: Result<ReadCredentials>)
      requires BackendConfigured()
      modifies Stores()
      ensures BackupPathFor(config, owner, generatedId).Err? ==>
                r == Err(BackupPathFor(config, owner, generatedId).error) && unchanged(Stores())
      ensures r.Ok? ==> r.value.BackupId() == generatedId
      ensures r.Ok? ==> BackupPathFor(config, owner, generatedId).Ok? && Opened(BackupPathFor(config, owner, generatedId).value).Ok?
      ensures storageBackend.S3Backend? && BackupPathFor(config, owner, generatedId).Ok? ==>
                storageBackend.s3.sts.requests == old(storageBackend.s3.sts.requests)
                  + [FederationTokenRequestFor(storageBackend.s3.bucket.name, BackupPathFor(config, owner, generatedId).value, FEDERATION_TOKEN_EXPIRATION_HOURS)]
      ensures storageBackend.S3Backend? && BackupPathFor(config, owner, generatedId).Ok? ==>
                var s, path := storageBackend.s3, BackupPathFor(config, owner, generatedId).value;
                && (s.sts.outage.Some? ==>
                      r == Err(StsException(s.sts.outage.value.code, s.sts.outage.value.message))
                      && s.bucket.keys == old(s.bucket.keys))
                && (s.sts.outage.None? && s.bucket.outage.Some? ==>
                      r == Err(S3Exception(s.bucket.outage.value.code, s.bucket.outage.value.message))
                      && s.bucket.keys == old(s.bucket.keys))
                && (s.sts.outage.None? && s.bucket.outage.None? ==>
                      s.bucket.keys == old(s.bucket.keys) + {path}
                      && r == Ok(S3Credentials(S3ReadCredentials(generatedId, s.bucket.objectUrlBase + path,
                                                                 Entry(s.config.imageParameters, "region"), s.sts.issued))))
      ensures storageBackend.AbsBackend? && BackupPathFor(config, owner, generatedId).Ok? ==>
                var a, container := storageBackend.abs, ModifyPath(BackupPathFor(config, owner, generatedId).value);
                && (a.account.outage.Some? ==>
                      r == Err(AzureServiceException(a.account.outage.value.code, a.account.outage.value.message))
                      && a.account.containers == old(a.account.containers))
                && (a.account.outage.None? ==>
                      a.account.containers == old(a.account.containers) + {container}
                      && (container in old(a.account.containers) ==> r == Err(AzureServiceException(409, CONTAINER_EXISTS_MESSAGE)))
                      && (container !in old(a.account.containers) ==>
                            r == Ok(AbsCredentials(AbsReadCredentials(generatedId, a.config.region, container,
                                   ConnectionString(a.config.accountName, sign(a.config.accountKey, ReadGrant(a.config.accountName, container, now))))))))
    {
      var path := BackupPathFor(config, owner, generatedId);
      if path.Err? {
        return Err(path.error);
      }
      match storageBackend {
        case S3Backend(s) =>
          var issued := s.GenerateTempReadCredentials(generatedId, path.value);
          if issued.Err? {
            return Err(issued.error);
          }
          r := Ok(S3Credentials(issued.value));
        case AbsBackend(a) =>
          var issued := a.GenerateTempReadCredentials(generatedId, path.value, now, sign);
          if issued.Err? {
            return Err(issued.error);
          }
          r := Ok(AbsCredentials(issued.value));
      }
    }
  }
}
