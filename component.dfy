/** The older orchestrator (`Component`), the one the entry point runs. It
    works only with the platform's S3 bucket: `run` exports every table of
    the project into the managed backup, `generate-read-credentials`
    initialises a new managed backup and hands out a 24-hour read token. */
module LegacyComponent {
  import opened Errors
  import opened Strings
  import opened ConfigValues
  import opened AppConfig
  import opened Exports
  import opened BackupPaths
  import opened AwsPolicy
  import opened S3Storage

  const TOKEN_EXPIRATION_HOURS: nat := 24
  const ACTION_RUN: string := "run"
  const ACTION_CREDENTIALS: string := "generate-read-credentials"

  /** PHP's `(int)` cast of a parameter (null is 0). */
  function IntCast(v: Option<Value>): (r: PhpInt)
    ensures v.None? ==> r == 0
    ensures v.Some? && v.value.Num? ==> r == v.value.n
    ensures v.Some? && v.value.Str? ==> r == PhpIntCast(v.value.s)
    ensures v.Some? && v.value.Flag? ==> r == (if v.value.b then 1 else 0)
  {
    match v
    case None => 0
    case Some(Num(n)) => n
    case Some(Str(s)) => PhpIntCast(s)
    case Some(Flag(b)) => if b then 1 else 0
  }

  /** `sprintf('%s', …)` of a parameter (null prints as ''). */
  function Text(v: Option<Value>): (r: string)
    ensures v.None? ==> r == ""
    ensures v.Some? ==> r == AsString(v.value)
  {
    match v
    case None => ""
    case Some(x) => AsString(x)
  }

  /** A numeric backup id, or its decimal rendering, opens the same managed
      path, which embeds that number. */
  lemma IntCastAgreesOnRendering(n: PhpInt)
    ensures IntCast(Some(Num(n))) == IntCast(Some(Str(IntToString(n)))) == n
  {
    IntCastOfRendering(n);
  }

  /** The calls of `run`: tables metadata, every listed table in listing
      order (there is no exclusion list here), configurations without
      versions. */
  function LegacyExport(target: BackupHandle, tables: seq<string>): seq<Event> {
    [TablesMetadata(target)] + TableEvents(target, tables, [], |tables|) + [Configurations(target, false)]
  }

  /** The legacy export misses no table, keeps the listing order, and ends
      with the configurations, versions disabled. */
  lemma LegacyExportProperties(target: BackupHandle, tables: seq<string>)
    ensures LegacyExport(target, tables)[0] == TablesMetadata(target)
    ensures LegacyExport(target, tables)[|LegacyExport(target, tables)| - 1] == Configurations(target, false)
    ensures ExportedTables(LegacyExport(target, tables)) == tables
    ensures ProgressAnnounces(LegacyExport(target, tables)[1..|LegacyExport(target, tables)| - 1], target, tables, [], |tables|)
    ensures ProgressPositions(LegacyExport(target, tables)[1..|LegacyExport(target, tables)| - 1])
            == seq(|tables|, i => i + 1)
  {
    var middle := TableEvents(target, tables, [], |tables|);
    FramedExport(target, middle, [Configurations(target, false)]);
    TableEventsExportIncluded(target, tables, [], |tables|);
    assert tables[..|tables|] == tables;
    IncludedWithoutExclusions(tables);
    TableEventsProgress(target, tables, [], |tables|);
    TableEventsProgressPositions(target, tables, [], |tables|);
    AnnouncedWithoutExclusions(tables, |tables|);
    assert LegacyExport(target, tables)[1..|LegacyExport(target, tables)| - 1] == middle;
  }

  class Component {
    const config: Config
    const bucket: S3Bucket
    const sts: StsService

    /** The component works in the bucket the image-level `#bucket` names. */
    predicate Configured() {
      NamesConfiguredBucket(config.imageParameters, bucket)
    }

    /** The component over the decoded configuration; `bucket` is reached
        with the image-level credentials. */
    constructor (config: Config, bucket: S3Bucket, sts: StsService)
      requires NamesConfiguredBucket(config.imageParameters, bucket)
      ensures this.config == config && this.bucket == bucket && this.sts == sts
      ensures Configured()
    {
      this.config := config;
      this.bucket := bucket;
      this.sts := sts;
    }

    /** `$actionParams['backupId']`. */
    function BackupIdParameter(): Option<Value> {
      Entry(config.parameters, "backupId")
    }

    /** The managed path `handleRun` resolves. */
    function RunPath(owner: TokenOwner): (r: Result<string>)
      ensures r.Ok? <==> InConfiguredRegion(owner, config.imageParameters)
      ensures r.Ok? ==> r.value == ManagedPath(owner.region, owner.id, IntCast(BackupIdParameter()))
    {
      GenerateBackupPath(IntCast(BackupIdParameter()), owner, config.imageParameters)
    }

    /** The backup `handleRun` exports into, in the current state of the
        bucket: the marker must be there. */
    function RunTarget(owner: TokenOwner): (r: Result<BackupHandle>)
      reads bucket
      ensures r.Ok? <==> RunPath(owner).Ok? && bucket.outage.None? && RunPath(owner).value in bucket.keys
      ensures r.Ok? ==> r.value == S3Handle(bucket.name, RunPath(owner).value)
      ensures RunPath(owner).Ok? && bucket.outage.None? && RunPath(owner).value !in bucket.keys ==>
                r == Err(UserException(NotInitializedMessage(Text(BackupIdParameter()))))
    {
      var path :- RunPath(owner);
      var _ :- MarkerCheck(bucket.Lookup(path), Ok(Text(BackupIdParameter())));
      Ok(S3Handle(bucket.name, path))
    }

    /** The first half of `handleRun`: resolve the managed path and check
        its marker. */
    method OpenRunTarget(owner: TokenOwner) returns (r: Result<BackupHandle>)
      ensures r == RunTarget(owner)
    {
      var path := RunPath(owner);
      if path.Err? {
        return Err(path.error);
      }
      var lookup := bucket.GetObject(path.value);
      var checked := MarkerCheck(lookup, Ok(Text(BackupIdParameter())));
      if checked.Err? {
        return Err(checked.error);
      }
      r := Ok(S3Handle(bucket.name, path.value));
    }

    /** `handleRun`. */
    method HandleRun(owner: TokenOwner, tables: seq<string>, log: ExportLog) returns (r: Result<()>)
      modifies log
      ensures RunTarget(owner).Err? ==> r == Err(RunTarget(owner).error) && log.events == old(log.events)
      ensures RunTarget(owner).Ok? ==> r == Ok(()) && log.events == old(log.events) + LegacyExport(RunTarget(owner).value, tables)
    {
      ghost var before := log.events;
      var target := OpenRunTarget(owner);
      if target.Err? {
        return Err(target.error);
      }
      var backup := target.value;
      log.BackupTablesMetadata(backup);
      ExportTables(backup, tables, log);
      log.BackupConfigs(backup, false);
      assert log.events == before + LegacyExport(backup, tables);
      r := Ok(());
    }

    /** The table loop of `handleRun`: every listed table, with its progress
        line, in listing order. */
    method ExportTables(backup: BackupHandle, tables: seq<string>, log: ExportLog)
      modifies log
      ensures log.events == old(log.events) + TableEvents(backup, tables, [], |tables|)
    {
      var i := 0;
      while i < |tables|
        invariant 0 <= i <= |tables|
        invariant log.events == old(log.events) + TableEvents(backup, tables, [], i)
      {
        log.LogTableProgress(i + 1, |tables|);
        log.BackupTable(backup, tables[i]);
        i := i + 1;
      }
    }

    /** `handleCredentials`: the generated id names the managed path; the
        marker is put first and only then is a 24-hour token scoped to the
        path requested, so a failed put requests no token. */
    method HandleCredentials(owner: TokenOwner, generatedId: string) returns (r: Result<S3ReadCredentials>)
      requires Configured()
      modifies bucket`keys, sts`requests
      ensures !InConfiguredRegion(owner, config.imageParameters) ==>
                r == Err(GenerateBackupPath(PhpIntCast(generatedId), owner, config.imageParameters).error)
                && bucket.keys == old(bucket.keys) && sts.requests == old(sts.requests)
      ensures InConfiguredRegion(owner, config.imageParameters) ==>
                var path := ManagedPath(owner.region, owner.id, PhpIntCast(generatedId));
                && (bucket.outage.Some? ==>
                      r == Err(S3Exception(bucket.outage.value.code, bucket.outage.value.message))
                      && bucket.keys == old(bucket.keys) && sts.requests == old(sts.requests))
                && (bucket.outage.None? ==>
                      bucket.keys == old(bucket.keys) + {path}
                      && sts.requests == old(sts.requests) + [FederationTokenRequestFor(bucket.name, path, TOKEN_EXPIRATION_HOURS)])
                && (bucket.outage.None? && sts.outage.Some? ==>
                      r == Err(StsException(sts.outage.value.code, sts.outage.value.message)))
                && (bucket.outage.None? && sts.outage.None? ==>
                      r == Ok(S3ReadCredentials(generatedId, bucket.objectUrlBase + path, Entry(config.imageParameters, "region"), sts.issued)))
    {
      var path := GenerateBackupPath(PhpIntCast(generatedId), owner, config.imageParameters);
      if path.Err? {
        return Err(path.error);
      }
      var put := bucket.PutObject(path.value);
      if put.Err? {
        return Err(put.error);
      }
      var token := sts.GetFederationToken(FederationTokenRequestFor(bucket.name, path.value, TOKEN_EXPIRATION_HOURS));
      if token.Err? {
        return Err(token.error);
      }
      r := Ok(S3ReadCredentials(generatedId, put.value, Entry(config.imageParameters, "region"), token.value));
    }

    /** `run`: dispatch on the action; each branch fires only for its own
        action, and any other action does nothing. The credentials are what
        is printed for `generate-read-credentials`. */
    method Run(owner: TokenOwner, generatedId: string, tables: seq<string>, log: ExportLog)
      returns (r: Result<Option<S3ReadCredentials>>)
      requires Configured()
      modifies bucket`keys, sts`requests, log
      ensures config.action != ACTION_RUN && config.action != ACTION_CREDENTIALS ==>
                r == Ok(None) && log.events == old(log.events)
                && bucket.keys == old(bucket.keys) && sts.requests == old(sts.requests)
      ensures config.action == ACTION_RUN ==>
                bucket.keys == old(bucket.keys) && sts.requests == old(sts.requests)
                && (RunTarget(owner).Err? ==> r == Err(RunTarget(owner).error) && log.events == old(log.events))
                && (RunTarget(owner).Ok? ==>
                      r == Ok(None) && log.events == old(log.events) + LegacyExport(RunTarget(owner).value, tables))
      ensures config.action == ACTION_CREDENTIALS ==>
                log.events == old(log.events)
                && (r.Ok? ==> r.value.Some? && r.value.value.backupId == generatedId)
                && (r.Ok? <==> InConfiguredRegion(owner, config.imageParameters) && bucket.outage.None? && sts.outage.None?)
                && (r.Ok? ==> ManagedPath(owner.region, owner.id, PhpIntCast(generatedId)) in bucket.keys)
    {
      r := Ok(None);
      if config.action == ACTION_RUN {
        var ran := HandleRun(owner, tables, log);
        if ran.Err? {
          return Err(ran.error);
        }
      }
      if config.action == ACTION_CREDENTIALS {
        var credentials := HandleCredentials(owner, generatedId);
        if credentials.Err? {
          return Err(credentials.error);
        }
        r := Ok(Some(credentials.value));
      }
    }
  }
}
