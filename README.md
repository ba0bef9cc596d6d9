# Project backup: a verified model of the storage and credential core

This project models, in Dafny, the core of `app-project-backup`.

`app-project-backup` is a component that does two things:
- It exports a data-platform project (table metadata, table data, configurations) into a backup location in a cloud object store.
- It issues scoped, time-limited, read-only credentials so that a third party can fetch that backup.

The model covers:

- **the configuration selector** (`AppConfig`, `Descriptors`, `ConfigValues`). The caller's `parameters` block wins when it names a non-empty `storageBackendType` (self-service mode); otherwise the image-level block wins (managed mode).
  - The S3 path is normalised to exactly one trailing `/`, or `.` when no path is given.
  - The flags default to false, and the backup id defaults to `''`.
  - The per-backend credential descriptors are immutable records.
- **the managed backup path** `data-takeout/{region}/{projectId}/{backupId}/` and its region guard (`BackupPaths`).
- **the S3 backend** (`S3Storage`, `AwsPolicy`).
  - It keeps a marker object per backup.
  - It mints a federation token whose inline IAM policy allows reading objects under the backup path and listing that prefix.
  - The model includes enough of IAM evaluation (`*`/`?` matching, `StringLike` on `s3:prefix`) to prove what such a token can and cannot read.
- **the Azure backend** (`AzureStorage`). It uses one container per backup, whose name folds `/` into `-`. It hands out a container-level shared access signature with read and list rights, valid for 36 hours, inside a connection string.
- **the Google Cloud Storage backend** (`GcsStorage`).
  - It makes a downscoped token by token exchange (section 2.1 of RFC 8693).
  - The token's credential access boundary admits the single object `{path}signedUrls.json`.
- **the orchestrators**, both recording the calls they make on the backup library as an event trace (`Exports`).
  - `Application` (`Orchestrator`): backend selection, path resolution, the table loop with its exclusion list and `Table i/N` progress lines, and credential issuance.
  - The older `Component` (`LegacyComponent`), which is the one the entry point runs.
- **the entry point's exit codes** (`ExitCodes`). It returns 0, 1 or 2, after promoting rejected STS credentials and Azure 403s to user errors.

Object stores are classes with mutable state: a bucket's set of keys, an account's set of containers, and an STS endpoint's log of requests. Each has a fixed `outage`: an error that the service answers every request with, such as wrong credentials or a missing bucket. The orchestrators' loops are methods proved against specification functions (`TableEvents`, `ExportRun`, `LegacyExport`), and the properties promised by the source are proved as lemmas about those functions.

Each file is modelled as written; the files come from different versions of the repository. Two consequences:
- `Application`'s constructor (`src/Application.php:47-53`) passes an `S3Config` to `AwsS3Storage`, whose constructor (`src/Storages/AwsS3Storage.php:28`) takes the older `Config` object. As written, selecting `s3` in `Application` therefore always ends in a type error (`Orchestrator.S3SelectionFails`).
  - `Orchestrator.Application` can still be built over any backend with its plain constructor, and its `Run` and `GenerateReadCredentials` are proved for both backends.
  - `AwsS3Storage` itself is modelled over the older configuration: its not-initialised message reads `parameters.backupId` through the older `getBackupId`.
- `Config` has no GCS type, so the GCS backend is modelled on its own, as functions of its descriptor.

Where the design description and the code disagree, the model follows the code:
- A region mismatch is a plain exception (exit 2), not a user error.
- Only two kinds of failure become user errors: an STS `InvalidClientTokenId`/`SignatureDoesNotMatch` raised while running, and an Azure 403. Any other 403, for example an S3 `AccessDenied` at the marker check or a Google 403, exits with 2.
- In self-service mode, a destination that does not exist is not created: `getBackup` fails with the same errors as in managed mode.

## Model

| member | source | states |
|---|---|---|
| Descriptors.StringProperty | src/Config/S3Config.php:19-22 | an entry is copied into a typed string property exactly when it is present and a string; anything else is a type error |
| Descriptors.NewS3Config | src/Config/S3Config.php:17-43 | construction succeeds exactly when `access_key_id`, `#secret_access_key`, `region`, `#bucket` hold strings, and the getters return those entries |
| Descriptors.NewAbsConfig | src/Config/AbsConfig.php:15-35 | succeeds exactly when `accountName`, `#accountKey`, `region` hold strings; the getters return them |
| Descriptors.NewGcsConfig | src/Config/GcsConfig.php:13-38 | succeeds exactly when `#jsonKey`, `#bucket`, `region` hold strings; the getters return them and the flag as given |
| Descriptors.DescriptorsRoundTrip | src/Config/S3Config.php:17-43 | each descriptor read back from its own parameter block is itself: nothing is lost and there are no mutators |
| Descriptors.S3ConfigReadsOwnKeys | src/Config/S3Config.php:17-23 | the S3 descriptor depends only on its four keys |
| ConfigValues.EmptyAgreesWithString | src/Config/Config.php:43-47 | `empty()` decides the same on a value and on its string conversion, so both readings of `storageBackendType` agree on the mode |
| AppConfig.BackupId | src/Config/Config.php:15-18 | the backup id is the caller's string, `''` when absent |
| AppConfig.IsUserDefinedCredentials | src/Config/Config.php:43-47 | self-service mode exactly when the caller's block holds a `storageBackendType` that is not `empty()` |
| AppConfig.StorageBackendType | src/Config/Config.php:20-27 | the caller's type when non-empty, otherwise the image-level type; a missing or non-string image-level type is a type error |
| AppConfig.FlagParameter | src/Config/Config.php:29-41 | `exportStructureOnly`/`includeVersions` are false when absent, the boolean when given, a type error otherwise |
| AppConfig.ExportStructureOnly | src/Config/Config.php:29-34 | `true` exactly when the caller set the flag to `true`; a type error exactly when it is set to something other than a boolean |
| AppConfig.IncludeVersions | src/Config/Config.php:36-41 | `true` exactly when the caller set the flag to `true`; a type error exactly when it is set to something other than a boolean |
| AppConfig.CredentialsParameters | src/Config/Config.php:49-53 | the whole caller block in self-service mode, the whole image-level block otherwise |
| AppConfig.NormalizeS3Path | src/Config/Config.php:60 | `.` for the empty path; otherwise the path up to its trailing slashes followed by exactly one `/` |
| AppConfig.NormalizeS3PathIdempotent | src/Config/Config.php:60 | normalising a normalised non-empty path changes nothing (the empty path becomes `.` and then `./`, so the source is not idempotent there) |
| AppConfig.NormalizeS3PathIgnoresTrailingSlashes | src/Config/Config.php:60 | paths differing only in trailing slashes normalise alike |
| AppConfig.Path | src/Config/Config.php:55-63 | S3 paths are normalised (`.` when absent); other backends get the path unchanged (`''` when absent); backend-type errors propagate |
| AppConfig.S3ConfigOf | src/Config/Config.php:65-68 | the S3 descriptor is read from the caller's block in self-service mode and from the image-level block otherwise |
| AppConfig.AbsConfigOf | src/Config/Config.php:70-73 | the Azure descriptor is read from the caller's block in self-service mode and from the image-level block otherwise |
| AppConfig.SelectorPrecedence | src/Config/Config.php:20-53 | self-service exactly when the caller's type is non-empty; then the caller's type and block win, otherwise the image-level ones |
| BackupPaths.GenerateBackupPath | src/Application.php:108-127 | the managed path exactly when the owner's region equals the configured region; otherwise an exception naming the project and the configured region |
| BackupPaths.ManagedPathShape | src/Application.php:126 | a managed path starts with `data-takeout/` and ends in `/` |
| BackupPaths.ManagedPathKeepsGeneratedId | src/Application.php:102 | the `(int)` cast keeps a generated numeral up to `PHP_INT_MAX` unchanged in the path |
| BackupPaths.ManagedPathSaturatesGeneratedId | src/Application.php:102 | a generated numeral beyond `PHP_INT_MAX` (and below double overflow) puts `PHP_INT_MAX` in the path instead |
| Strings.IntCastOfDigits | src/Component.php:154 | `(int)` of a string of digits is its value, saturated at `PHP_INT_MAX`, and 0 once the value overflows a double |
| Strings.IntCastOfRendering | src/Component.php:154 | `(int)` of the decimal rendering of any `int` gives it back |
| Strings.RenderingOfIntCast | src/Application.php:102 | the rendering of the cast of a canonical numeral within range is the numeral |
| Strings.IntCastSaturates | src/Application.php:102 | a numeral beyond `int`'s range casts to `PHP_INT_MAX` |
| Strings.IntCastSkipsSpace | src/Component.php:154 | leading whitespace (space, tab, newline, carriage return, vertical tab, form feed) does not change the cast |
| Strings.IntCastExampleSpace | src/Component.php:154 | `(int) " 12"` is 12 |
| Strings.IntCastExampleExponent | src/Component.php:154 | `(int) "1e3"` is 1000: the exponent form is read as a whole |
| Strings.IntCastExampleFraction | src/Component.php:154 | `(int) "-1.9"` is -1: a fraction is truncated toward zero |
| Strings.IntCastExampleSaturation | src/Component.php:154 | the cast of the rendering of 2^63 is `PHP_INT_MAX` |

| BackupPaths.ManagedPathsPrefixFree | src/Application.php:126 | one managed path lies under another only when region, project and id all agree |
| AwsPolicy.FederationTokenRequestFor | src/Storages/AwsS3Storage.php:88-119 | the request lasts `hours*3600` seconds, is named `GetProjectBackupFile`, and carries two Allow statements |
| AwsPolicy.ReadOnlyPolicy | src/Storages/AwsS3Storage.php:92-112 | the inline policy: two Allow statements, `s3:GetObject` on the keys under the path and `s3:ListBucket` on the bucket for prefixes under the path |
| AwsPolicy.ReadOnlyPolicyObjects | src/Storages/AwsS3Storage.php:92-98 | the token reads an object exactly when it is in the configured bucket and its key starts with the backup path |
| AwsPolicy.ReadOnlyPolicyListing | src/Storages/AwsS3Storage.php:100-110 | the token lists exactly the configured bucket, for prefixes under the backup path |
| AwsPolicy.ReadOnlyPolicyDeniesOtherActions | src/Storages/AwsS3Storage.php:92-112 | every other action, writes included, is denied |
| Exports.ExportLog.BackupTablesMetadata | src/Application.php:77 | the metadata export is appended to the trace |
| Exports.ExportLog.LogTableProgress | src/Application.php:86 | the `Table i/N` line is appended to the trace |
| Exports.ExportLog.BackupTable | src/Application.php:87 | the table export is appended to the trace |
| Exports.ExportLog.BackupConfigs | src/Application.php:91 | the configurations export is appended to the trace |
| Exports.TableEventsExportIncluded | src/Application.php:80-88 | the table loop exports exactly the listed tables not excluded, in listing order |
| Exports.TableEventsSkipExcluded | src/Application.php:82-85 | no excluded table is ever exported, and every export goes to the given backup |
| Exports.TableEvents | src/Application.php:80-88 | the table loop's events: a progress line and an export for each table not excluded, none for an excluded one |
| Exports.TableEventsProgress | src/Application.php:80-86 | each progress line carries the table's index in the full listing plus one over the full count and is followed by that table's export; each export is preceded by the progress line naming its table |
| Exports.TableEventsProgressFollowed | src/Application.php:80-86 | each progress line names a listed table that is not excluded, carries its position and the full count, and is directly followed by that table's export |
| Exports.TableEventsExportsAnnounced | src/Application.php:80-86 | each export directly follows the progress line whose position names the exported table |
| Exports.AnnouncedPositionsExact | src/Application.php:80-86 | the announced positions increase strictly, name only tables not excluded, and miss none of them |
| Exports.TableEventsProgressPositions | src/Application.php:80-86 | the progress lines carry exactly the positions of the tables not excluded, in listing order |
| Exports.AnnouncedWithoutExclusions | src/Component.php:177-180 | without an exclusion list the progress lines count 1, 2, …, N |

| Exports.IncludedWithoutExclusions | src/Component.php:177-180 | without an exclusion list every listed table is exported |
| S3Storage.LegacyBackupId | src/Config.php:15-18 | the older accessor yields the caller's backup id exactly when it is a string |
| S3Storage.MarkerCheck | src/Storages/AwsS3Storage.php:61-77 | a missing marker (`NoSuchKey`) becomes the "was not initialized" user error; any other S3 error passes unchanged |
| S3Storage.AwsS3Storage.constructor | src/Storages/AwsS3Storage.php:28-33 | the storage keeps its configuration and works in the bucket the image-level `#bucket` names |
| S3Storage.AwsS3Storage.GenerateTempReadCredentials | src/Storages/AwsS3Storage.php:35-55 | in the configured `#bucket`, a 36-hour token scoped to the path is requested first, then the marker is put; the output echoes the id and the image region, and copies the token's credentials |
| S3Storage.AwsS3Storage.BackupOutcome | src/Storages/AwsS3Storage.php:57-86 | the backup opens exactly when the marker exists; otherwise the not-initialised user error or the S3 error |
| S3Storage.AwsS3Storage.GetBackup | src/Storages/AwsS3Storage.php:57-86 | answers `BackupOutcome` of the current bucket |
| S3Storage.CredentialsInitializeBackup | src/Storages/AwsS3Storage.php:39-42 | once the marker has been put, the backup at that path opens |
| S3Storage.ManagedTokenIsolation | src/Storages/AwsS3Storage.php:92-98 | a token for one managed backup cannot read any object of another managed backup, nor any other bucket |
| AzureStorage.ModifyPath | src/Storages/AzureBlobStorage.php:109-113 | the container name is the path with `/` turned into `-`, cut where only `/` and `-` remain; it has no `/` and no trailing `-` |
| AzureStorage.ModifyPathIdempotent | src/Storages/AzureBlobStorage.php:109-113 | folding a container name changes nothing |
| AzureStorage.ReadGrant | src/Storages/AzureBlobStorage.php:46-58 | a container signature with permissions `rl`, starting now and lasting 36 hours |
| AzureStorage.ReadGrantScope | src/Storages/AzureBlobStorage.php:51-58 | the signature permits exactly reading and listing the backup container, from now until 36 hours on |
| AzureStorage.ConnectionString | src/Storages/AzureBlobStorage.php:99-107 | the `BlobEndpoint=…;SharedAccessSignature=…` string; what a client reads back from it is proved by `ConnectionStringRoundTrip` |
| AzureStorage.ConnectionStringRoundTrip | src/Storages/AzureBlobStorage.php:99-107 | a client reading the connection string finds the account's blob endpoint and the signature unchanged |
| AzureStorage.AzureAccount.CreateContainer | src/Storages/AzureBlobStorage.php:44 | creates a new container; an existing one is a 409 conflict |
| AzureStorage.ListingCheck | src/Storages/AzureBlobStorage.php:80-88 | a 403 while listing becomes a user error carrying the service message; other errors pass unchanged |
| AzureStorage.AzureBlobStorage.GenerateTempReadCredentials | src/Storages/AzureBlobStorage.php:34-68 | creates the folded container and returns it with a connection string around a read-and-list signature; it fails when the container exists |
| AzureStorage.AzureBlobStorage.BackupOutcome | src/Storages/AzureBlobStorage.php:70-97 | the backup opens exactly when the folded container is listed; a missing one is the "does not exist" user error |
| AzureStorage.AzureBlobStorage.GetBackup | src/Storages/AzureBlobStorage.php:70-97 | answers `BackupOutcome` of the current account and never creates a container |
| GcsStorage.EnsureTrailingSlash | src/Storages/GoogleCloudStorage.php:91-93 | appends `/` exactly when the path does not end in one |
| GcsStorage.EnsureTrailingSlashIdempotent | src/Storages/GoogleCloudStorage.php:91-93 | the step is idempotent |
| GcsStorage.GetBackup | src/Storages/GoogleCloudStorage.php:85-103 | the backup is in the configured bucket at the normalised path, with signed URLs exactly when the credentials are not user-defined |
| GcsStorage.ReadBoundary | src/Storages/GoogleCloudStorage.php:46-67 | one rule, on the configured bucket, with the object-viewer role |
| GcsStorage.NameIsAdmitsOnly | src/Storages/GoogleCloudStorage.php:57-63 | a `resource.name == '…'` condition over a literal without quote or backslash admits exactly the quoted name |
| GcsStorage.ReadBoundaryScope | src/Storages/GoogleCloudStorage.php:46-67 | for a bucket and path without quote or backslash, the boundary admits exactly reading and listing `{path}signedUrls.json` in the configured bucket |
| GcsStorage.ExchangeRequestFor | src/Storages/GoogleCloudStorage.php:69-73 | token-exchange grant type, access-token subject and requested types, the fetched token as subject, the boundary as options |
| GcsStorage.GenerateTempReadCredentials | src/Storages/GoogleCloudStorage.php:25-83 | token fetch and exchange failures propagate; on success `projectId` is the key's, `bucket` the configured one, `backupUri` the path unchanged, the credentials the exchange's answer |
| Orchestrator.SelectBackend | src/Application.php:46-62 | `abs` selects the Azure descriptor, `s3` fails (descriptor errors first), any other type is a user error naming it |
| Orchestrator.S3SelectionFails | src/Application.php:47-53 | as written, selecting `s3` never yields a backend |
| Orchestrator.ExcludedTablesAreNotNumeric | src/Application.php:24-39 | every id on the fixed exclusion list starts with a letter and so is not a numeric string |
| Orchestrator.BackupPathFor | src/Application.php:69-73 | the configured path in self-service mode; the guarded managed path for the `(int)` id otherwise |
| Orchestrator.SelfServiceIgnoresOwner | src/Application.php:69-73 | in self-service mode the region guard is not consulted |
| Orchestrator.ExportRun | src/Application.php:77-91 | metadata is exported first; the export succeeds exactly when both flags read, and fails with the first flag error |
| Orchestrator.ExportRunProperties | src/Application.php:77-91 | configurations come last; the exported tables are the included ones in order, or none for a structure-only export; nothing excluded is exported |
| Orchestrator.Application.constructor | src/Application.php:18-44 | the orchestrator keeps its configuration and backend and the fixed exclusion list |
| Orchestrator.Application.Create | src/Application.php:41-63 | succeeds exactly when `SelectBackend` does, with an Azure backend over the selected descriptor |
| Orchestrator.Application.GetBackup | src/Application.php:75 | dispatches `getBackup` to the selected backend |
| Orchestrator.Application.OpenRunTarget | src/Application.php:67-75 | answers `RunTarget`: the self-service path or the guarded managed path, opened by the backend |
| Orchestrator.Application.Run | src/Application.php:65-92 | nothing is exported unless the path resolves and the backup opens; then the trace grows by exactly `ExportRun` |
| Orchestrator.Application.ExportInto | src/Application.php:77-91 | the trace grows by exactly `ExportRun` and the result is its result |
| Orchestrator.Application.ExportTables | src/Application.php:79-89 | the loop appends exactly `TableEvents` over the whole listing |
| Orchestrator.Application.GenerateReadCredentials | src/Application.php:94-106 | the generated id reaches the output unchanged; after success the backup at the path opens; for S3 the token request, the new marker, the failure cases and the output are those of the backend; for Azure the new container, the 409 on an existing one and the output are those of the backend |
| LegacyComponent.IntCast | src/Component.php:154 | the `(int)` cast of the backup id parameter: null is 0, an integer is itself, a boolean is 0 or 1, a string is cast as PHP does; the result lies within `int`'s range |
| LegacyComponent.Text | src/Component.php:164 | the backup id as printed in the message (null prints as `''`) |
| LegacyComponent.IntCastAgreesOnRendering | src/Component.php:154 | a numeric id and its decimal rendering open the same path |
| LegacyComponent.LegacyExport | src/Component.php:171-182 | the calls of `run`: metadata, the table loop with nothing excluded, configurations without versions |
| LegacyComponent.LegacyExportProperties | src/Component.php:172-182 | metadata first, every listed table in order, progress lines numbered 1 to N each paired with its export, configurations last without versions |
| LegacyComponent.Component.RunPath | src/Component.php:130-143 | the managed path exactly when the owner is in the configured region |
| LegacyComponent.Component.RunTarget | src/Component.php:150-168 | the backup opens exactly when the path resolves and its marker exists; a missing marker is the not-initialised user error |
| LegacyComponent.Component.OpenRunTarget | src/Component.php:150-168 | answers `RunTarget`: the guarded managed path, then the marker check |
| LegacyComponent.Component.HandleRun | src/Component.php:145-183 | nothing is exported unless the backup opens; then the trace grows by exactly `LegacyExport` |
| LegacyComponent.Component.ExportTables | src/Component.php:174-180 | the loop appends exactly `TableEvents` over the whole listing with nothing excluded |
| LegacyComponent.Component.constructor | src/Component.php:84-101 | the component works in the bucket the image-level `#bucket` names |
| LegacyComponent.Component.HandleCredentials | src/Component.php:72-128 | in the configured `#bucket`, the marker is put before the 24-hour token is requested, so a failed put requests no token; the output carries the generated id |
| LegacyComponent.Component.Run | src/Component.php:19-31 | each action runs only its own handler; `run` leaves the stores alone; any other action does nothing |
| ExitCodes.Promote | src/run.php:17-31 | STS `InvalidClientTokenId`/`SignatureDoesNotMatch` and Azure 403 become user errors with the service message; everything else is unchanged |
| ExitCodes.PromoteIdempotent | src/run.php:17-31 | promotion is idempotent and leaves user errors alone |
| ExitCodes.ExitCode | src/run.php:14-49 | 0 exactly on success, 1 exactly for user errors (after promotion when running), 2 otherwise |
| ExitCodes.ApplicationErrorsExitTwo | src/run.php:37-48 | every other error exits with 2, during construction or running |

## Left out

- Network and SDK work (S3, STS, the Azure blob client and signature helper, the Google storage client, the security token service) is replaced by the modelled stores and by opaque answers:
  - the issued STS credentials;
  - the signing function for Azure signatures;
  - the fetched Google token and the exchange function.
- The platform API client is left out: its token verification, id generation and table listing become inputs. So are the environment variables, logging (apart from the progress lines) and the printing of JSON.
- The backup library (`S3Backup`, `AbsBackup`, `GcsBackup`) is recorded as calls on an event trace. What it writes is not part of this model.
- `BaseConfig` (configuration loading, `getValue`, `getStringValue`) is not part of this model. Values are scalars; `getStringValue` is taken as PHP's string conversion of the value, with the default when the key is absent.
- `IStorage` becomes the `Orchestrator.Storage` datatype over the two backends `Application` can hold. The GCS backend is modelled on its own, because `Application` cannot select it.
- PHP's own `TypeError`s are recorded by cause: a `Config` getter's return type, a first argument's type, or a typed property assignment, together with the offending type. `Errors.TypeErrorMessage` renders the engine's wording. Only the exit code depends on them.
- JSON and URL encoding of the policy and of the access-boundary options are left out; the model keeps their structure.
- The connection string the Azure client is created from (account name and key) is left out; the account object stands for the client it reaches. The read-only connection string handed back to the caller is modelled (`AzureStorage.ConnectionString`).
- Wall-clock time is left out: `now` is an integer number of seconds, and the 36-hour expiry is `now + 36*3600`. `DateTime::modify` calendar effects are not modelled.
- S3Storage.AwsS3Storage.GenerateTempReadCredentials: `backupUri` is the bucket's URL base followed by the key; the SDK's percent-encoding of the key is not modelled.
- S3Storage.LegacyBackupId: a missing `parameters.backupId` is modelled as a plain exception from the configuration reader. Its exact class and message are not modelled, because `BaseConfig` is not part of this model.
- AzureStorage.AzureBlobStorage.BackupOutcome: container membership is exact string equality. PHP's loose `in_array` also equates numeric strings such as `100` and `1e2`; that is not modelled.
- Orchestrator.ExportRun: exclusion is exact membership. PHP's loose `in_array` behaves the same here only because every excluded id is non-numeric (`Orchestrator.ExcludedTablesAreNotNumeric`).
- Strings.PhpIntCast: a numeral with a fraction or an exponent is valued exactly and then truncated. PHP first rounds it to the nearest double, so the two differ where that rounding crosses an integer: beyond 2^53, or with more significant digits than a double holds. Exponents beyond 19999, which the engine's number parser clamps, are taken as written.
- ConfigValues.Value: a JSON number with a fraction, or an integer outside `int`'s range (both decoded by PHP as floats), is not modelled; `Num` holds an `int` within range.
- S3Storage.AwsS3Storage.constructor: a missing or non-string image-level `#bucket` is not modelled. The constructors of `AwsS3Storage` and `Component` require the bucket object to be the one `#bucket` names.
- GcsStorage.ReadBoundaryScope: holds only for a bucket and a path without `'` or `\`. The source puts both into the CEL string literal unescaped, so a quote in the path changes the expression itself; the model evaluates no CEL beyond the single equality with a plain literal, and admits nothing for any other expression.
- GcsStorage.NameIsAdmitsOnly: stated only for literals without a quote or a backslash, for the reason given for `ReadBoundaryScope`.
- GcsStorage.GenerateTempReadCredentials: decoding the JSON key file is left out. The key's `project_id` is an input; a key that fails to decode is not modelled.
- LegacyComponent.Component.HandleRun: reading an absent `backupId` raises a PHP warning, and its handling is not modelled; the value is taken as null.
- AwsPolicy.ReadOnlyPolicyObjects: IAM evaluation is reduced to Allow statements, resource wildcards and the `StringLike` prefix condition. Explicit denies, other condition keys and ARN case rules are not modelled.
- Self-service creation of a missing destination is left out, because no `getBackup` in the source creates one.
