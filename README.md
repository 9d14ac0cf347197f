# Sqoop Kite Parquet import-job configuration, modelled in Dafny

This project models how Sqoop sets up a Parquet import job whose records are
written through a Kite dataset (`KiteParquetUtils`). Given the job
configuration, an Avro schema, a Kite dataset URI and a write mode
(`DEFAULT`, `APPEND`, `OVERWRITE`), the job configurator

1. for a Hive dataset URI (`dataset:hive…`) whose metastore requires SASL,
   copies the Hive configuration into the job and, unless the job already holds
   a token under the alias `HCat Token` (the alias Oozie uses), fetches a
   metastore delegation token and stores it there; a failed fetch aborts;
2. creates the destination when it is absent (Parquet format, the codec named
   by the output-codec key or Snappy, Parquet's default), rejects it when it
   exists and the mode is `DEFAULT`, and otherwise loads it and rejects it when
   its schema cannot be read with the new one;
3. records the schema's JSON under the schema key and binds the job's output to
   the dataset with `overwrite`, `appendTo` or `writeTo`.

## Layout

- `wrappers.dfy` — `Option`, standing for a Java reference that may be null.
- `avro_schemas.dfy` — the Avro `Schema` as an abstract type; the schema
  libraries' `canRead` and `toString` are function values the caller supplies.
- `hadoop_conf.dfy` — `Configuration.get` with a default, `String.trim`,
  `equalsIgnoreCase` and `Configuration.getBoolean`, as functions.
- `kite.dfy` — Kite's codecs and `CompressionType.forName`, formats,
  descriptors, the dataset catalog (`Datasets.exists/load/create`) as a class
  over a map from URI to descriptor, and output bindings.
- `job_conf.dfy` — the `JobConf` as a class whose configuration map,
  credential map and list of output bindings its methods update in place.
- `hive.dfy` — the metastore as a class counting delegation-token requests and
  giving a fixed reply (a token, or a failure).
- `kite_parquet_utils.dfy` — the core: the pure helpers, `CreateDataset`,
  `AddHiveDelegationToken`, the presence-checked fetch, the credential step, `ConfigureImportJob`, and
  its specification `Configure` on a value snapshot (`World`) of everything
  the job setup can change. The destination decision is an explicit table
  (`Decide`) over existence, write mode and schema compatibility.
- `configure_properties.dfy` — lemmas about `Configure`: which branch runs,
  which exception ends it, what is and is not changed, and what two successive
  configurations do.

`ConfigureImportJob` is proved to leave exactly the state and outcome that
`Configure` gives for the state it started from, so every lemma about
`Configure` is a statement about the method.

## Model

| member | source | states |
|---|---|---|
| `Kite.ForName` | src/java/org/apache/sqoop/mapreduce/parquet/kite/KiteParquetUtils.java:84-85 | a recognised codec name yields the codec with exactly that name; any other name yields no codec (the IllegalArgumentException) |
| `Kite.ForNameName` | src/java/org/apache/sqoop/mapreduce/parquet/kite/KiteParquetUtils.java:82-84 | every codec is found again under its own name, so an unset key resolves to the default through its name |
| `HadoopConf.GetOrDefault` | src/java/org/apache/sqoop/mapreduce/parquet/kite/KiteParquetUtils.java:82 | reading a key with a default gives the stored value when the key is set and the default otherwise |
| `KiteParquetUtils.GetCompressionType` | src/java/org/apache/sqoop/mapreduce/parquet/kite/KiteParquetUtils.java:80-91 | never fails; gives the codec whose name is stored under the output-codec key, and the Parquet default (Snappy) when the key is unset or names no codec |
| `KiteParquetUtils.IsHiveImport` | src/java/org/apache/sqoop/mapreduce/parquet/kite/KiteParquetUtils.java:143-145 | holds exactly when the URI begins with the twelve characters `dataset:hive` |
| `HadoopConf.GetBoolean` | src/java/org/apache/sqoop/mapreduce/parquet/kite/KiteParquetUtils.java:158 | an unset key gives the default; a trimmed `true` in any letter case gives true and a trimmed `false` gives false, whatever the default; any other result is the default |
| `HadoopConf.GetBooleanPaddedTrue` | src/java/org/apache/sqoop/mapreduce/parquet/kite/KiteParquetUtils.java:158 | a `true` in any letter case, with any whitespace around it, reads as true |
| `KiteParquetUtils.IsSecureMetastore` | src/java/org/apache/sqoop/mapreduce/parquet/kite/KiteParquetUtils.java:157-159 | false for a null Hive configuration and when `hive.metastore.sasl.enabled` is absent; true exactly when its trimmed value is `true` ignoring case |
| `KiteParquetUtils.BuildAvroSchemaMismatchMessage` | src/java/org/apache/sqoop/mapreduce/parquet/kite/KiteParquetUtils.java:184-192 | the message always begins with the generic incompatible-schema sentence; the Hive date/timestamp hint follows it if and only if the import is a Hive import |
| `KiteParquetUtils.CreateDataset` | src/java/org/apache/sqoop/mapreduce/parquet/kite/KiteParquetUtils.java:147-155 | an absent URI gets a dataset with the given schema, Parquet format and the given codec; an existing URI is refused and the catalog unchanged |
| `KiteParquetUtils.AddHiveDelegationToken` | src/java/org/apache/sqoop/mapreduce/parquet/kite/KiteParquetUtils.java:165-182 | asks the metastore once; stores the token under `HCat Token`, or on any failure ends with the "Couldn't fetch delegation token." exception and stores nothing |
| `KiteParquetUtils.CredentialStep` | src/java/org/apache/sqoop/mapreduce/parquet/kite/KiteParquetUtils.java:103-114 | Hive configs are merged and a fetch is attempted only for a Hive URI on a secured metastore; a fetch happens only when no token is stored under the alias, so an existing token is left unchanged; no dataset or binding is touched |
| `KiteParquetUtils.PropagateHiveCredentials` | src/java/org/apache/sqoop/mapreduce/parquet/kite/KiteParquetUtils.java:103-114 | the imperative credential step leaves the job and metastore exactly as `CredentialStep` says |
| `KiteParquetUtils.Decide` | src/java/org/apache/sqoop/mapreduce/parquet/kite/KiteParquetUtils.java:116-129 | absent is created whatever the mode; present under DEFAULT is rejected; present under APPEND or OVERWRITE is reused when compatible and rejected otherwise |
| `KiteParquetUtils.OutputModeFor` | src/java/org/apache/sqoop/mapreduce/parquet/kite/KiteParquetUtils.java:134-140 | OVERWRITE binds with `overwrite`, APPEND with `appendTo`, DEFAULT with `writeTo` |
| `KiteParquetUtils.AddHiveDelegationTokenIfAbsent` | src/java/org/apache/sqoop/mapreduce/parquet/kite/KiteParquetUtils.java:110-112 | the metastore is asked exactly when no token is stored under `HCat Token`; an existing token is left as it is; a failed fetch stores nothing and ends with the delegation-token exception |
| `KiteParquetUtils.ConfigureDestination` | src/java/org/apache/sqoop/mapreduce/parquet/kite/KiteParquetUtils.java:116-155 | the destination step leaves credentials and the request count alone; it succeeds exactly when the destination is absent or the mode is APPEND/OVERWRITE with a readable schema; a failure changes nothing; a success keeps every other key, dataset and earlier binding, stores toJson(schema) under the schema key, keeps an existing descriptor or creates a Parquet one with the codec resolved from the props (lines 128, 147-155), and appends one binding of the mode's kind (lines 134-140) to that dataset; a failure is "Destination exists! " + uri under DEFAULT (line 118) and otherwise the schema-mismatch error carrying the built message, the written-with schema and the new schema (lines 124-125) |
| `KiteParquetUtils.Configure` | src/java/org/apache/sqoop/mapreduce/parquet/kite/KiteParquetUtils.java:99-141 | at most one token request per configuration; every failure leaves exactly the state after the credential step; the token exception is raised exactly when a due fetch fails |
| `Job.JobConf.Set` | src/java/org/apache/sqoop/mapreduce/parquet/kite/KiteParquetUtils.java:130 | the key is mapped to the value; credentials and bindings are unchanged |
| `Job.JobConf.AddAllIfUnset` | src/java/org/apache/sqoop/mapreduce/parquet/kite/KiteParquetUtils.java:108 | each Hive entry is added only where the job has no value for that key: every key the job already set keeps its value, every other Hive key gets the Hive value; credentials and bindings are unchanged |
| `Job.JobConf.GetToken` | src/java/org/apache/sqoop/mapreduce/parquet/kite/KiteParquetUtils.java:110 | a token is returned exactly when one is stored under the alias, and it is that token |
| `Job.JobConf.AddToken` | src/java/org/apache/sqoop/mapreduce/parquet/kite/KiteParquetUtils.java:175 | the token is stored under the alias; entries and bindings are unchanged |
| `Job.JobConf.Bind` | src/java/org/apache/sqoop/mapreduce/parquet/kite/KiteParquetUtils.java:135-139 | exactly one binding is appended; entries and credentials are unchanged |
| `Kite.Catalog.Exists` | src/java/org/apache/sqoop/mapreduce/parquet/kite/KiteParquetUtils.java:116 | a dataset exists exactly when loading it succeeds |
| `Kite.Catalog.Load` | src/java/org/apache/sqoop/mapreduce/parquet/kite/KiteParquetUtils.java:121-122 | loading succeeds exactly for a registered URI and gives that URI's descriptor |
| `Kite.Catalog.Create` | src/java/org/apache/sqoop/mapreduce/parquet/kite/KiteParquetUtils.java:154 | an absent URI is registered with the descriptor; an existing one is refused and the catalog unchanged |
| `Hive.Metastore.GetDelegationToken` | src/java/org/apache/sqoop/mapreduce/parquet/kite/KiteParquetUtils.java:168-174 | each request is counted once and yields the metastore's reply |
| `KiteParquetUtils.ConfigureImportJob` | src/java/org/apache/sqoop/mapreduce/parquet/kite/KiteParquetUtils.java:99-141 | leaves the job configuration, credentials, output bindings, catalog and metastore request count, and ends with the outcome, exactly as `Configure` specifies |
| `ConfigureProperties.UnsecuredLeavesCredentials` | src/java/org/apache/sqoop/mapreduce/parquet/kite/KiteParquetUtils.java:104-106 | without a Hive URI on a secured metastore, credentials and the metastore are untouched and the only configuration change is the schema key on success |
| `ConfigureProperties.ExistingTokenKept` | src/java/org/apache/sqoop/mapreduce/parquet/kite/KiteParquetUtils.java:110-112 | a token already under `HCat Token` is kept as it is and no fetch happens |
| `ConfigureProperties.AtMostOneTokenRequest` | src/java/org/apache/sqoop/mapreduce/parquet/kite/KiteParquetUtils.java:104-114 | one configuration asks the metastore at most once, exactly when a Hive URI on a secured metastore has no token yet |
| `ConfigureProperties.TokenFailureAborts` | src/java/org/apache/sqoop/mapreduce/parquet/kite/KiteParquetUtils.java:165-181 | a failed fetch aborts with the RuntimeException before any dataset operation; the copied Hive configuration stays, no token is stored |
| `ConfigureProperties.DestinationConflict` | src/java/org/apache/sqoop/mapreduce/parquet/kite/KiteParquetUtils.java:116-119 | an existing destination under DEFAULT fails with "Destination exists! " followed by the URI, whatever the schemas; no schema key, no binding, credentials step not undone |
| `ConfigureProperties.SchemaMismatch` | src/java/org/apache/sqoop/mapreduce/parquet/kite/KiteParquetUtils.java:120-126 | APPEND/OVERWRITE on a destination whose written-with schema cannot be read with the new one fails with AvroSchemaMismatchException carrying the message and both schemas; nothing written or bound |
| `ConfigureProperties.AbsentDestinationCreated` | src/java/org/apache/sqoop/mapreduce/parquet/kite/KiteParquetUtils.java:127-129 | an absent destination is created with the schema, Parquet and the codec resolved from the configuration after the Hive merge, for every write mode |
| `ConfigureProperties.JobCodecPrevails` | src/java/org/apache/sqoop/mapreduce/parquet/kite/KiteParquetUtils.java:108-128 | when the job itself names a known codec, an absent destination is created with that codec whatever the Hive configuration holds, because the Hive copy never overrides a key the job set |
| `ConfigureProperties.CompatibleDestinationReused` | src/java/org/apache/sqoop/mapreduce/parquet/kite/KiteParquetUtils.java:120-127 | a compatible existing destination under APPEND/OVERWRITE succeeds and the catalog is unchanged |
| `ConfigureProperties.SuccessRecordsSchemaAndBindsOnce` | src/java/org/apache/sqoop/mapreduce/parquet/kite/KiteParquetUtils.java:130-140 | on success the schema key holds the schema's JSON and exactly one binding, of the mode's kind, to the destination is added |
| `ConfigureProperties.FailureKeepsCredentialStep` | src/java/org/apache/sqoop/mapreduce/parquet/kite/KiteParquetUtils.java:104-126 | every failure leaves exactly the state the credential step produced: nothing is undone and nothing more is done |
| `ConfigureProperties.ConfigureTwiceFetchesAtMostOnce` | src/java/org/apache/sqoop/mapreduce/parquet/kite/KiteParquetUtils.java:57-61 | configuring twice for the same destination, where the second configuration may see a different Hive configuration (it is derived again from the changed job configuration), asks the metastore at most once unless the first fetch failed, and keeps the first token |

## Left out

- Logging (`LOG.warn`, `LOG.error`, `LOG.debug`): no observable effect on the job.
- Avro schema structure, `SchemaValidationUtil.canRead` and `Schema.toString()`: the schema is an abstract type and both operations are caller-supplied functions, so no property depends on Avro's resolution rules.
- Kite internals: `DatasetDescriptor.Builder` validation (for instance whether a format supports a codec) and the configuration keys `DatasetKeyOutputFormat.ConfigBuilder` writes; a binding is recorded as one entry in the job's list of output bindings.
- Kite's codec names and Parquet's default codec (Snappy) follow Kite's `CompressionType` and `Formats`, which are not part of this model; `forName` is an exact, case-sensitive name match.
- `ParquetConstants` is not part of this model: the schema key and output-codec key use the names `parquetjob.avro.schema` and `parquetjob.output.codec`; no property depends on their spelling beyond the two being distinct.
- `HiveConfig.getHiveConf` and `HiveConfig.addHiveConfigs` are not part of this model: the Hive configuration is an input (None for null), and copying it into the job follows Hadoop's `setIfUnset` for each Hive entry, so the job's own settings win over the Hive ones.
- Job.JobConf.AddAllIfUnset: the merge order (the job's keys kept, Hive's only added) is the one `HiveConfig.addHiveConfigs` implements with `setIfUnset`; that file is not part of this model, so the order rests on it and not on a line cited here.
- The metastore client, `SecurityUtils.getUser`, `UserGroupInformation` and `Token.decodeFromUrlString` collapse into one request with a fixed reply (a decoded token or a failure); the owner, principal, token contents and the wrapped cause of the RuntimeException are not modelled.
- Hadoop `Configuration` variable expansion and deprecated keys are not modelled.
- `HadoopConf.EqualsIgnoreCase` folds case for ASCII letters only, whereas Java also folds some non-ASCII letters; no non-ASCII letter folds to a letter of `true`, and with the default `false` a `false` value gives the same result as the default, so `IsSecureMetastore` is unaffected.
- A null write mode, null URI or null schema (Java null references) are not modelled; the write mode is always one of the three values.
- The S3 import tests and the text/sequence-file comparison utilities are outside the model: they need a live filesystem and read files.
- The credential step runs before the existence check (lines 104-116 of `src/java/org/apache/sqoop/mapreduce/parquet/kite/KiteParquetUtils.java`), and its effects persist when the destination step fails.
