/**
 * What configureImportJob promises, stated over its specification
 * KiteParquetUtils.Configure: which branch runs, which exception it ends
 * with, and what is or is not changed.
 */
module ConfigureProperties {
  import opened KiteParquetUtils
  import opened AvroSchemas
  import Kite

  /** The credential step ended without an exception. */
  predicate CredentialsOk(w: World, env: Env, uri: string) {
    CredentialStep(w, env, uri).1.None?
  }

  /** Without a Hive URI on a secured metastore, neither the credentials nor the metastore are touched. */
  lemma UnsecuredLeavesCredentials(w: World, env: Env, schema: Schema, uri: string, mode: WriteMode)
    requires !SecuredHive(env, uri)
    ensures var (after, outcome) := Configure(w, env, schema, uri, mode);
      && after.credentials == w.credentials
      && after.tokenRequests == w.tokenRequests
      && (after.props == w.props
          || (outcome == Configured && after.props == w.props[ParquetAvroSchemaKey := env.schemas.toJson(schema)]))
  {
  }

  /** A token already stored under the alias is kept as it is, and the metastore is not asked again. */
  lemma ExistingTokenKept(w: World, env: Env, schema: Schema, uri: string, mode: WriteMode)
    requires HiveMetastoreTokenAlias in w.credentials
    ensures var after := Configure(w, env, schema, uri, mode).0;
      after.tokenRequests == w.tokenRequests && after.credentials == w.credentials
  {
  }

  /** One configuration asks the metastore at most once, and exactly when a token is due. */
  lemma AtMostOneTokenRequest(w: World, env: Env, schema: Schema, uri: string, mode: WriteMode)
    ensures var after := Configure(w, env, schema, uri, mode).0;
      && w.tokenRequests <= after.tokenRequests <= w.tokenRequests + 1
      && (after.tokenRequests == w.tokenRequests + 1 <==> FetchesToken(w, env, uri))
  {
  }

  /**
   * A failed token fetch aborts before any dataset operation, keeping the
   * Hive configuration already copied into the job.
   */
  lemma TokenFailureAborts(w: World, env: Env, schema: Schema, uri: string, mode: WriteMode)
    requires FetchesToken(w, env, uri) && env.reply.FetchFailed?
    ensures var (after, outcome) := Configure(w, env, schema, uri, mode);
      && outcome == Failed(DelegationTokenFailure("Couldn't fetch delegation token."))
      && after.datasets == w.datasets
      && after.outputs == w.outputs
      && after.credentials == w.credentials
      && after.props == env.hiveConf.value + w.props
  {
  }

  /**
   * An existing destination under DEFAULT is rejected whatever the schemas
   * are; the schema key is not written and no output is bound.
   */
  lemma DestinationConflict(w: World, env: Env, schema: Schema, uri: string)
    requires CredentialsOk(w, env, uri)
    requires uri in w.datasets
    ensures var (after, outcome) := Configure(w, env, schema, uri, Default);
      && outcome == Failed(DestinationExists("Destination exists! " + uri))
      && after == CredentialStep(w, env, uri).0
      && after.datasets == w.datasets
      && after.outputs == w.outputs
  {
  }

  /**
   * Appending to or overwriting a dataset whose schema cannot be read with
   * the new one is rejected, naming both schemas; nothing is written or bound.
   */
  lemma SchemaMismatch(w: World, env: Env, schema: Schema, uri: string, mode: WriteMode)
    requires CredentialsOk(w, env, uri)
    requires uri in w.datasets && mode != Default
    requires !env.schemas.canRead(w.datasets[uri].schema, schema)
    ensures var (after, outcome) := Configure(w, env, schema, uri, mode);
      && outcome.Failed? && outcome.error.AvroSchemaMismatch?
      && outcome.error.writtenWith == w.datasets[uri].schema
      && outcome.error.schema == schema
      && outcome.error.message == BuildAvroSchemaMismatchMessage(IsHiveImport(uri))
      && after == CredentialStep(w, env, uri).0
  {
  }

  /** An absent destination is created as a Parquet dataset with the resolved codec, whatever the write mode. */
  lemma AbsentDestinationCreated(w: World, env: Env, schema: Schema, uri: string, mode: WriteMode)
    requires CredentialsOk(w, env, uri)
    requires uri !in w.datasets
    ensures var (after, outcome) := Configure(w, env, schema, uri, mode);
      && outcome == Configured
      && after.datasets == w.datasets[uri := Kite.Descriptor(schema, Kite.Parquet,
           GetCompressionType(CredentialStep(w, env, uri).0.props))]
  {
  }

  /**
   * Copying the Hive configuration never overrides a key the job already
   * set, so a codec named by the job is the one an absent destination gets.
   */
  lemma JobCodecPrevails(w: World, env: Env, schema: Schema, uri: string, mode: WriteMode, codec: Kite.CompressionType)
    requires CredentialsOk(w, env, uri)
    requires uri !in w.datasets
    requires ParquetOutputCodecKey in w.props && w.props[ParquetOutputCodecKey] == codec.Name()
    ensures var (after, outcome) := Configure(w, env, schema, uri, mode);
      && outcome == Configured
      && after.datasets[uri] == Kite.Descriptor(schema, Kite.Parquet, codec)
  {
  }

  /** A compatible existing destination under APPEND or OVERWRITE is reused unchanged. */
  lemma CompatibleDestinationReused(w: World, env: Env, schema: Schema, uri: string, mode: WriteMode)
    requires CredentialsOk(w, env, uri)
    requires uri in w.datasets && mode != Default
    requires env.schemas.canRead(w.datasets[uri].schema, schema)
    ensures var (after, outcome) := Configure(w, env, schema, uri, mode);
      outcome == Configured && after.datasets == w.datasets
  {
    var datasets := CredentialStep(w, env, uri).0.datasets;
    assert datasets[uri := datasets[uri]] == datasets;
  }

  /**
   * A successful configuration records the schema's JSON under the schema
   * key and binds the dataset exactly once, with the call the mode selects.
   */
  lemma SuccessRecordsSchemaAndBindsOnce(w: World, env: Env, schema: Schema, uri: string, mode: WriteMode)
    requires Configure(w, env, schema, uri, mode).1 == Configured
    ensures var after := Configure(w, env, schema, uri, mode).0;
      && uri in after.datasets
      && after.props == CredentialStep(w, env, uri).0.props[ParquetAvroSchemaKey := env.schemas.toJson(schema)]
      && after.props[ParquetAvroSchemaKey] == env.schemas.toJson(schema)
      && after.outputs == w.outputs + [Kite.OutputBinding(OutputModeFor(mode), Kite.Dataset(uri, after.datasets[uri]))]
      && after.credentials == CredentialStep(w, env, uri).0.credentials
  {
  }

  /** A failure undoes nothing the credential step did, and does nothing more. */
  lemma FailureKeepsCredentialStep(w: World, env: Env, schema: Schema, uri: string, mode: WriteMode)
    requires Configure(w, env, schema, uri, mode).1.Failed?
    ensures Configure(w, env, schema, uri, mode).0 == CredentialStep(w, env, uri).0
  {
  }

  /**
   * Configuring a job twice for the same destination asks the metastore at
   * most once, unless the first token fetch itself failed, and the token the
   * first configuration stored is the one the job keeps. The second
   * configuration may see a different Hive configuration and metastore reply,
   * since the Hive configuration is derived again from the job configuration
   * the first one changed.
   */
  lemma {:induction false} ConfigureTwiceFetchesAtMostOnce(
      w: World, env1: Env, env2: Env, first: Schema, second: Schema, uri: string,
      firstMode: WriteMode, secondMode: WriteMode)
    requires Configure(w, env1, first, uri, firstMode).1 != Failed(DelegationTokenFailure(TokenFetchFailureMsg))
    ensures var once := Configure(w, env1, first, uri, firstMode).0;
      var twice := Configure(once, env2, second, uri, secondMode).0;
      && twice.tokenRequests <= w.tokenRequests + 1
      && (HiveMetastoreTokenAlias in once.credentials ==>
            HiveMetastoreTokenAlias in twice.credentials
            && twice.credentials[HiveMetastoreTokenAlias] == once.credentials[HiveMetastoreTokenAlias])
  {
    var once := Configure(w, env1, first, uri, firstMode).0;
    AtMostOneTokenRequest(w, env1, first, uri, firstMode);
    AtMostOneTokenRequest(once, env2, second, uri, secondMode);
    if HiveMetastoreTokenAlias in once.credentials {
      ExistingTokenKept(once, env2, second, uri, secondMode);
    } else {
      assert !FetchesToken(w, env1, uri);
    }
  }
}
