/** The managed backup path `data-takeout/{region}/{projectId}/{backupId}/`
    and the region guard in front of it (`generateBackupPath` in both
    `Application` and `Component`). */
module BackupPaths {
  import opened Errors
  import opened Strings
  import opened ConfigValues

  /** The token owner as the platform's `verifyToken()` reports it. */
  datatype TokenOwner = TokenOwner(region: string, id: string)

  /** The strict comparison `$region === $imageParams['region']`: the image
      region must be present and be the same string. */
  predicate InConfiguredRegion(owner: TokenOwner, imageParameters: Params) {
    "region" in imageParameters && imageParameters["region"] == Str(owner.region)
  }

  /** The configured region as `sprintf('%s', …)` prints it ('' for null). */
  function ConfiguredRegion(imageParameters: Params): string {
    if "region" in imageParameters then AsString(imageParameters["region"]) else ""
  }

  function RegionMismatchMessage(projectId: string, configuredRegion: string): string {
    "Project with ID \"" + projectId + "\" is not located in " + configuredRegion + " region"
  }

  /** The managed location of one backup. */
  function ManagedPath(region: string, projectId: string, backupId: PhpInt): string {
    "data-takeout/" + region + "/" + projectId + "/" + IntToString(backupId) + "/"
  }

  /** `generateBackupPath($backupId, $client)`: the managed path when the
      token owner lives in the configured region, otherwise a plain
      exception naming the project and the configured region. */
  function GenerateBackupPath(backupId: PhpInt, owner: TokenOwner, imageParameters: Params): (r: Result<string>)
    ensures r.Ok? <==> InConfiguredRegion(owner, imageParameters)
    ensures r.Ok? ==> r.value == ManagedPath(owner.region, owner.id, backupId)
    ensures r.Err? ==> r.error == PlainException(RegionMismatchMessage(owner.id, ConfiguredRegion(imageParameters)))
  {
    if !InConfiguredRegion(owner, imageParameters) then
      Err(PlainException(RegionMismatchMessage(owner.id, ConfiguredRegion(imageParameters))))
    else
      Ok(ManagedPath(owner.region, owner.id, backupId))
  }

  /** A managed path is a folder: it starts with `data-takeout/`, ends in
      '/' and embeds the region, the project and the id as segments. */
  lemma ManagedPathShape(region: string, projectId: string, backupId: PhpInt)
    ensures "data-takeout/" <= ManagedPath(region, projectId, backupId)
    ensures EndsWith(ManagedPath(region, projectId, backupId), '/')
  {
  }

  /** Generated backup ids are canonical numerals; the `(int)` cast in front
      of the path generation leaves one that fits in an `int` unchanged in
      the path. */
  lemma ManagedPathKeepsGeneratedId(region: string, projectId: string, generatedId: string)
    requires Canonical(generatedId) && DigitsValue(generatedId) <= PHP_INT_MAX
    ensures ManagedPath(region, projectId, PhpIntCast(generatedId))
            == "data-takeout/" + region + "/" + projectId + "/" + generatedId + "/"
  {
    RenderingOfIntCast(generatedId);
  }

  /** A numeral beyond `int`'s range is saturated by the cast: the path
      names backup `PHP_INT_MAX` instead. */
  lemma ManagedPathSaturatesGeneratedId(region: string, projectId: string, generatedId: string)
    requires Canonical(generatedId) && PHP_INT_MAX < DigitsValue(generatedId) < DOUBLE_OVERFLOW
    ensures ManagedPath(region, projectId, PhpIntCast(generatedId))
            == "data-takeout/" + region + "/" + projectId + "/" + IntToString(PHP_INT_MAX) + "/"
  {
    IntCastSaturates(generatedId);
  }

  /** Managed paths are prefix-free: nothing stored under one backup's path
      lies under another's. A path (and everything below it) can only
      extend another managed path when both name the same region, project
      and backup id; the trailing '/' is what keeps backup 12 out of
      backup 123. Regions and project ids are single segments. */
  lemma ManagedPathsPrefixFree(r1: string, p1: string, b1: PhpInt, r2: string, p2: string, b2: PhpInt, rest: string)
    requires '/' !in r1 && '/' !in p1 && '/' !in r2 && '/' !in p2
    requires ManagedPath(r1, p1, b1) <= ManagedPath(r2, p2, b2) + rest
    ensures r1 == r2 && p1 == p2 && b1 == b2
  {
    var s1, s2 := IntToString(b1), IntToString(b2);
    ManagedPathSegments(r1, p1, b1, "");
    ManagedPathSegments(r2, p2, b2, rest);
    assert ManagedPath(r1, p1, b1) + "" == ManagedPath(r1, p1, b1);
    SlashPrefix("data-takeout", r1 + "/" + (p1 + "/" + (s1 + "/" + "")), "data-takeout", r2 + "/" + (p2 + "/" + (s2 + "/" + rest)));
    SlashPrefix(r1, p1 + "/" + (s1 + "/" + ""), r2, p2 + "/" + (s2 + "/" + rest));
    SlashPrefix(p1, s1 + "/" + "", p2, s2 + "/" + rest);
    SlashPrefix(s1, "", s2, rest);
    IntCastOfRendering(b1);
    IntCastOfRendering(b2);
  }

  /** A managed path followed by `rest`, split at its separators. */
  lemma ManagedPathSegments(region: string, projectId: string, backupId: PhpInt, rest: string)
    ensures ManagedPath(region, projectId, backupId) + rest
            == "data-takeout" + "/" + (region + "/" + (projectId + "/" + (IntToString(backupId) + "/" + rest)))
  {
    var head := "data-takeout";
    var id := IntToString(backupId);
    assert "data-takeout/" == head + "/";
    calc {
      ManagedPath(region, projectId, backupId) + rest;
      (((((((head + "/") + region) + "/") + projectId) + "/") + id) + "/") + rest;
      head + "/" + (region + "/" + (projectId + "/" + (id + "/" + rest)));
    }
  }
}
