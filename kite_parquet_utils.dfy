/**
 * Setting up a Parquet import job on a Kite dataset: which compression the
 * new dataset gets, when a Hive metastore delegation token is fetched, how an
 * existing destination is treated under each write mode, what is recorded in
 * the job configuration and how the job's output is bound to the dataset.
 */
module KiteParquetUtils {
  import opened Wrappers
  import opened AvroSchemas
  import opened HadoopConf
  import Kite
  import Job
  import Hive

  const HiveMetastoreSaslEnabled := "hive.metastore.sasl.enabled"
  /** The alias Oozie uses too, so that a token Oozie already fetched is reused. */
  const HiveMetastoreTokenAlias := "HCat Token"
  const IncompatibleAvroSchemaMsg := "Target dataset was created with an incompatible Avro schema. "
  const HiveIncompatibleAvroSchemaMsg :=
    "You tried to import to an already existing Hive table in "
    + "Parquet format. Sqoop maps date/timestamp SQL types to int/bigint Hive types during Hive Parquet import"
    + " but it is possible that date/timestamp types were mapped to strings during table"
    + " creation. Consider using Sqoop option --map-column-java resolve the mismatch"
    + " (e.g. --map-column-java date_field1=String,timestamp_field1=String)."
  const HiveUriPrefix := "dataset:hive"
  /** The job configuration key holding the Avro schema of the written records. */
  const ParquetAvroSchemaKey := "parquetjob.avro.schema"
  /** The job configuration key naming the output compression codec. */
  const ParquetOutputCodecKey := "parquetjob.output.codec"
  const DestinationExistsMsg := "Destination exists! "
  const TokenFetchFailureMsg := "Couldn't fetch delegation token."

  datatype WriteMode = Default | Append | Overwrite

  /** The exceptions configureImportJob ends with. */
  datatype ImportError =
    | DestinationExists(message: string)
      // an IOException
    | AvroSchemaMismatch(message: string, writtenWith: Schema, schema: Schema)
      // an AvroSchemaMismatchException
    | DelegationTokenFailure(message: string)
      // a RuntimeException wrapping the metastore's failure

  datatype Outcome = Configured | Failed(error: ImportError)

  /**
   * The codec named under the output-codec key; the Parquet default when the
   * key is unset (its own name is looked up) or names no codec.
   */
  function GetCompressionType(props: Props): (c: Kite.CompressionType)
    ensures c == Kite.ParquetDefaultCompression
      || (ParquetOutputCodecKey in props && c.Name() == props[ParquetOutputCodecKey])
    ensures ParquetOutputCodecKey !in props ==> c == Kite.ParquetDefaultCompression
    ensures ParquetOutputCodecKey in props ==>
      (Kite.ForName(props[ParquetOutputCodecKey]).None? ==> c == Kite.ParquetDefaultCompression)
    ensures ParquetOutputCodecKey in props ==>
      forall known: Kite.CompressionType :: known.Name() == props[ParquetOutputCodecKey] ==> c == known
  {
    var defaults := Kite.ParquetDefaultCompression;
    var codec := GetOrDefault(props, ParquetOutputCodecKey, defaults.Name());
    match Kite.ForName(codec)
    case Some(recognised) => recognised
    case None => defaults
  }

  /** A Kite URI of the Hive repository. */
  predicate IsHiveImport(uri: string)
    ensures IsHiveImport(uri) <==>
      |uri| >= 12 && uri[0..7] == "dataset" && uri[7] == ':' && uri[8..12] == "hive"
  {
    HiveUriPrefix <= uri
  }

  /** The Hive configuration exists and enables SASL on the metastore connection. */
  predicate IsSecureMetastore(hiveConf: Option<Props>)
    ensures hiveConf.None? ==> !IsSecureMetastore(hiveConf)
    ensures IsSecureMetastore(hiveConf) <==>
      hiveConf.Some? && HiveMetastoreSaslEnabled in hiveConf.value
      && EqualsIgnoreCase("true", Trim(hiveConf.value[HiveMetastoreSaslEnabled]))
  {
    hiveConf.Some? && GetBoolean(hiveConf.value, HiveMetastoreSaslEnabled, false)
  }

  /** The text of an AvroSchemaMismatchException: the generic sentence, then the Hive hint for Hive imports. */
  function BuildAvroSchemaMismatchMessage(hiveImport: bool): (message: string)
    ensures IncompatibleAvroSchemaMsg <= message
    ensures hiveImport <==> |message| > |IncompatibleAvroSchemaMsg|
    ensures hiveImport ==> message[|IncompatibleAvroSchemaMsg|..] == HiveIncompatibleAvroSchemaMsg
  {
    var exceptionMessage := IncompatibleAvroSchemaMsg;
    if hiveImport then exceptionMessage + HiveIncompatibleAvroSchemaMsg else exceptionMessage
  }

  /** Creates a Parquet dataset with the given schema and codec; None when the URI is taken. */
  method CreateDataset(catalog: Kite.Catalog, schema: Schema, compressionType: Kite.CompressionType, uri: string)
    returns (dataset: Option<Kite.Dataset>)
    modifies catalog
    ensures dataset.Some? <==> uri !in old(catalog.datasets)
    ensures dataset.Some? ==>
      && dataset.value == Kite.Dataset(uri, Kite.Descriptor(schema, Kite.Parquet, compressionType))
      && catalog.datasets == old(catalog.datasets)[uri := dataset.value.descriptor]
    ensures dataset.None? ==> catalog.datasets == old(catalog.datasets)
  {
    var descriptor := Kite.Descriptor(schema, Kite.Parquet, compressionType);
    dataset := catalog.Create(uri, descriptor);
  }

  /**
   * Asks the metastore for a delegation token and stores it under the fixed
   * alias; any failure along the way aborts with DelegationTokenFailure.
   */
  method AddHiveDelegationToken(conf: Job.JobConf, metastore: Hive.Metastore)
    returns (failure: Option<ImportError>)
    modifies conf, metastore
    ensures metastore.requests == old(metastore.requests) + 1
    ensures metastore.reply.Fetched? ==>
      failure.None? && conf.credentials == old(conf.credentials)[HiveMetastoreTokenAlias := metastore.reply.token]
    ensures metastore.reply.FetchFailed? ==>
      failure == Some(DelegationTokenFailure(TokenFetchFailureMsg)) && conf.credentials == old(conf.credentials)
    ensures conf.props == old(conf.props) && conf.outputs == old(conf.outputs)
  {
    var fetched := metastore.GetDelegationToken();
    match fetched
    case Fetched(token) =>
      conf.AddToken(HiveMetastoreTokenAlias, token);
      failure := None;
    case FetchFailed =>
      failure := Some(DelegationTokenFailure(TokenFetchFailureMsg));
  }

  /* ---------- The specification of configureImportJob, on values ---------- */

  /** Everything configureImportJob can change: the job, the catalog, the metastore's request count. */
  datatype World = World(
    props: Props,
    credentials: map<string, Job.Token>,
    outputs: seq<Kite.OutputBinding>,
    datasets: map<string, Kite.Descriptor>,
    tokenRequests: nat)

  /** What configureImportJob reads but does not change. */
  datatype Env = Env(hiveConf: Option<Props>, schemas: SchemaLibrary, reply: Hive.TokenFetch)

  function Snapshot(conf: Job.JobConf, catalog: Kite.Catalog, metastore: Hive.Metastore): World
    reads conf, catalog, metastore
  {
    World(conf.props, conf.credentials, conf.outputs, catalog.datasets, metastore.requests)
  }

  /** The credential step applies: a Hive URI and a metastore that requires SASL. */
  predicate SecuredHive(env: Env, uri: string) {
    IsHiveImport(uri) && IsSecureMetastore(env.hiveConf)
  }

  /** A token fetch happens: the credential step applies and no token is stored under the alias yet. */
  predicate FetchesToken(w: World, env: Env, uri: string) {
    SecuredHive(env, uri) && HiveMetastoreTokenAlias !in w.credentials
  }

  /** The world after the credential step, and the failure that step ended with, if any. */
  function CredentialStep(w: World, env: Env, uri: string): (r: (World, Option<ImportError>))
    ensures r.0.outputs == w.outputs && r.0.datasets == w.datasets
    ensures r.0.props == if SecuredHive(env, uri) then env.hiveConf.value + w.props else w.props
    ensures r.0.tokenRequests == w.tokenRequests + (if FetchesToken(w, env, uri) then 1 else 0)
    ensures r.1.Some? <==> FetchesToken(w, env, uri) && env.reply.FetchFailed?
    ensures r.1.Some? ==> r.1.value == DelegationTokenFailure(TokenFetchFailureMsg)
    ensures r.0.credentials ==
      if FetchesToken(w, env, uri) && env.reply.Fetched?
      then w.credentials[HiveMetastoreTokenAlias := env.reply.token]
      else w.credentials
  {
    if !IsHiveImport(uri) || !IsSecureMetastore(env.hiveConf) then (w, None)
    else
      var merged := w.(props := env.hiveConf.value + w.props);
      if HiveMetastoreTokenAlias in merged.credentials then (merged, None)
      else
        var asked := merged.(tokenRequests := merged.tokenRequests + 1);
        match env.reply
        case Fetched(token) =>
          (asked.(credentials := asked.credentials[HiveMetastoreTokenAlias := token]), None)
        case FetchFailed =>
          (asked, Some(DelegationTokenFailure(TokenFetchFailureMsg)))
  }

  /** What happens to the destination. */
  datatype Plan = CreateFresh | ReuseExisting | RejectExisting | RejectSchema

  /** The decision table over existence, write mode and schema compatibility. */
  function Decide(present: bool, mode: WriteMode, compatible: bool): (p: Plan)
    ensures p == CreateFresh <==> !present
    ensures p == RejectExisting <==> present && mode == Default
    ensures p == RejectSchema <==> present && mode != Default && !compatible
    ensures p == ReuseExisting <==> present && mode != Default && compatible
  {
    match (present, mode)
    case (false, _) => CreateFresh
    case (true, Default) => RejectExisting
    case (true, _) => if compatible then ReuseExisting else RejectSchema
  }

  /** The ConfigBuilder call each write mode makes. */
  function OutputModeFor(mode: WriteMode): (m: Kite.OutputMode)
    ensures m == Kite.Overwrite <==> mode == Overwrite
    ensures m == Kite.AppendTo <==> mode == Append
    ensures m == Kite.WriteTo <==> mode == Default
  {
    match mode
    case Overwrite => Kite.Overwrite
    case Append => Kite.AppendTo
    case Default => Kite.WriteTo
  }

  /** The world and outcome of the destination step, which runs once the credential step succeeded. */
  function ConfigureDestination(w: World, env: Env, schema: Schema, uri: string, mode: WriteMode): (r: (World, Outcome))
    ensures r.0.credentials == w.credentials && r.0.tokenRequests == w.tokenRequests
    ensures r.1.Failed? ==> r.0 == w
    ensures r.1 == Configured <==>
      (uri !in w.datasets || (mode != Default && env.schemas.canRead(w.datasets[uri].schema, schema)))
    ensures r.1 == Configured ==>
      && uri in r.0.datasets
      && (uri in w.datasets ==> r.0.datasets == w.datasets)
      && |r.0.outputs| == |w.outputs| + 1
      && ParquetAvroSchemaKey in r.0.props
      && r.0.props[ParquetAvroSchemaKey] == env.schemas.toJson(schema)
    ensures r.1 == Configured ==>
      && r.0.props == w.props[ParquetAvroSchemaKey := env.schemas.toJson(schema)]
      && r.0.datasets == w.datasets[uri := (if uri in w.datasets then w.datasets[uri]
                                           else Kite.Descriptor(schema, Kite.Parquet, GetCompressionType(w.props)))]
      && r.0.outputs == w.outputs + [Kite.OutputBinding(OutputModeFor(mode), Kite.Dataset(uri, r.0.datasets[uri]))]
    ensures r.1.Failed? ==>
      r.1.error ==
        (if mode == Default then DestinationExists(DestinationExistsMsg + uri)
         else AvroSchemaMismatch(BuildAvroSchemaMismatchMessage(IsHiveImport(uri)), w.datasets[uri].schema, schema))
  {
    var present := uri in w.datasets;
    var compatible := present && env.schemas.canRead(w.datasets[uri].schema, schema);
    match Decide(present, mode, compatible)
    case RejectExisting =>
      (w, Failed(DestinationExists(DestinationExistsMsg + uri)))
    case RejectSchema =>
      var message := BuildAvroSchemaMismatchMessage(IsHiveImport(uri));
      (w, Failed(AvroSchemaMismatch(message, w.datasets[uri].schema, schema)))
    case CreateFresh =>
      var descriptor := Kite.Descriptor(schema, Kite.Parquet, GetCompressionType(w.props));
      (RecordAndBind(w, env, schema, uri, mode, descriptor), Configured)
    case ReuseExisting =>
      (RecordAndBind(w, env, schema, uri, mode, w.datasets[uri]), Configured)
  }

  /** The dataset registered under the URI, the schema recorded, and one binding of the mode's kind added. */
  function RecordAndBind(w: World, env: Env, schema: Schema, uri: string, mode: WriteMode, descriptor: Kite.Descriptor): World
  {
    w.(
      datasets := w.datasets[uri := descriptor],
      props := w.props[ParquetAvroSchemaKey := env.schemas.toJson(schema)],
      outputs := w.outputs + [Kite.OutputBinding(OutputModeFor(mode), Kite.Dataset(uri, descriptor))])
  }

  /** The world and outcome configureImportJob leaves. */
  function Configure(w: World, env: Env, schema: Schema, uri: string, mode: WriteMode): (r: (World, Outcome))
    ensures w.tokenRequests <= r.0.tokenRequests <= w.tokenRequests + 1
    ensures r.1.Failed? ==> r.0 == CredentialStep(w, env, uri).0
    ensures r.1 == Failed(DelegationTokenFailure(TokenFetchFailureMsg)) <==>
      FetchesToken(w, env, uri) && env.reply.FetchFailed?
  {
    var (w1, failure) := CredentialStep(w, env, uri);
    if failure.Some? then (w1, Failed(failure.value))
    else ConfigureDestination(w1, env, schema, uri, mode)
  }

  /* ---------- configureImportJob ---------- */

  /** Fetches a delegation token only when none is stored under the alias yet. */
  method AddHiveDelegationTokenIfAbsent(conf: Job.JobConf, metastore: Hive.Metastore)
    returns (failure: Option<ImportError>)
    modifies conf, metastore
    ensures var fetches := HiveMetastoreTokenAlias !in old(conf.credentials);
      && metastore.requests == old(metastore.requests) + (if fetches then 1 else 0)
      && conf.credentials ==
           (if fetches && metastore.reply.Fetched?
            then old(conf.credentials)[HiveMetastoreTokenAlias := metastore.reply.token]
            else old(conf.credentials))
      && (failure.Some? <==> fetches && metastore.reply.FetchFailed?)
      && (failure.Some? ==> failure.value == DelegationTokenFailure(TokenFetchFailureMsg))
    ensures conf.props == old(conf.props) && conf.outputs == old(conf.outputs)
  {
    failure := None;
    if conf.GetToken(HiveMetastoreTokenAlias).None? {
      failure := AddHiveDelegationToken(conf, metastore);
    }
  }

  /** The credential step of configureImportJob: copy the Hive configuration, fetch a token when none is stored. */
  method PropagateHiveCredentials(conf: Job.JobConf, catalog: Kite.Catalog, metastore: Hive.Metastore,
      hiveConf: Option<Props>, schemas: SchemaLibrary, uri: string)
    returns (failure: Option<ImportError>)
    modifies conf, metastore
    ensures (Snapshot(conf, catalog, metastore), failure)
      == CredentialStep(old(Snapshot(conf, catalog, metastore)), Env(hiveConf, schemas, metastore.reply), uri)
  {
    failure := None;
    // Add the Hive delegation token only if there is none yet.
    if IsHiveImport(uri) {
      if IsSecureMetastore(hiveConf) {
        conf.AddAllIfUnset(hiveConf.value);
        failure := AddHiveDelegationTokenIfAbsent(conf, metastore);
      }
    }
  }

  method ConfigureImportJob(conf: Job.JobConf, catalog: Kite.Catalog, metastore: Hive.Metastore,
      hiveConf: Option<Props>, schemas: SchemaLibrary, schema: Schema, uri: string, mode: WriteMode)
    returns (outcome: Outcome)
    modifies conf, catalog, metastore
    ensures (Snapshot(conf, catalog, metastore), outcome)
      == Configure(old(Snapshot(conf, catalog, metastore)), Env(hiveConf, schemas, metastore.reply), schema, uri, mode)
  {
    var failure := PropagateHiveCredentials(conf, catalog, metastore, hiveConf, schemas, uri);
    if failure.Some? {
      return Failed(failure.value);
    }
    ghost var w1 := Snapshot(conf, catalog, metastore);

    var dataset: Kite.Dataset;
    if catalog.Exists(uri) {
      if mode == Default {
        return Failed(DestinationExists(DestinationExistsMsg + uri));
      }
      dataset := catalog.Load(uri).value;
      var writtenWith := dataset.descriptor.schema;
      if !schemas.canRead(writtenWith, schema) {
        var exceptionMessage := BuildAvroSchemaMismatchMessage(IsHiveImport(uri));
        return Failed(AvroSchemaMismatch(exceptionMessage, writtenWith, schema));
      }
      assert w1.datasets[uri := dataset.descriptor] == catalog.datasets;
    } else {
      var created := CreateDataset(catalog, schema, GetCompressionType(conf.props), uri);
      dataset := created.value;
    }
    conf.Set(ParquetAvroSchemaKey, schemas.toJson(schema));

    if mode == Overwrite {
      conf.Bind(Kite.OutputBinding(Kite.Overwrite, dataset));
    } else if mode == Append {
      conf.Bind(Kite.OutputBinding(Kite.AppendTo, dataset));
    } else {
      conf.Bind(Kite.OutputBinding(Kite.WriteTo, dataset));
    }
    outcome := Configured;
  }
}
