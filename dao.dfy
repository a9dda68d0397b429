/** Start-up of the data-access layer: the MongoDB `Init` (collections and
    the default message storage), `InitMinio` (MinIO client, bucket, S3
    storage) and `dao.Init`, which picks the message storage from the
    configuration. The package-level variables they assign are the fields
    of `DataAccess`; what each step does to them is a pure function of the
    old values and of the outcomes of the calls it makes. */
module Dao {
  import opened Common

  /** A MongoDB collection handle: database name and collection name. */
  datatype Collection = Collection(database: string, name: string)

  /** The client `bmongo.GetClient("cloud")` hands out. */
  datatype MongoClient = MongoClient(name: string)

  /** `conf.S3Config`. */
  datatype S3Config = S3Config(endpoint: string, accessKey: string, secretKey: string, bucket: string)

  /** A MinIO client: endpoint, static V4 credentials and TLS. */
  datatype MinioClient = MinioClient(endpoint: string, accessKey: string, secretKey: string, secure: bool)

  /** `defaultMessageStorage`: nothing yet, the MongoDB backend over a
      collection handle (possibly nil), or the S3 backend over a bucket. */
  datatype Storage =
    | Unset
    | MongoStorage(messages: Option<Collection>)
    | S3Storage(client: MinioClient, bucket: string)

  datatype DaoError =
    | MongoClientNil                         // "mongo client is nil"
    | MinioClientFailed(cause: ExtError)     // "failed to create MinIO client: %w"
    | BucketCheckFailed(cause: ExtError)     // "failed to check if bucket exists: %w"
    | BucketCreateFailed(cause: ExtError)    // "failed to create bucket: %w"
    | ConfiguredS3Failed(inner: DaoError)    // "failed to initialize configured storage S3: %w"
    | NoStorage                              // ErrNoStorage: declared, never returned

  /** The package-level variables of `dao` that start-up assigns. */
  datatype Globals = Globals(
    db: Option<MongoClient>,
    usersColl: Option<Collection>,
    promtsColl: Option<Collection>,
    messagesColl: Option<Collection>,
    pullColl: Option<Collection>,
    minioClient: Option<MinioClient>,
    storage: Storage)

  /** What a start-up step leaves behind: the globals, the error it returns,
      and whether it asked the server to create the bucket. */
  datatype Step = Step(globals: Globals, err: Option<DaoError>, madeBucket: bool)

  /** MongoDB `Init`: `client` is what `GetClient("cloud")` returns. */
  function MongoInitStep(g: Globals, client: Option<MongoClient>, dbName: string): (r: Step)
    ensures r.globals.db == client && !r.madeBucket
    ensures r.err.Some? <==> client.None?
    ensures client.None? ==> r.err == Some(MongoClientNil) && r.globals == g.(db := None)
    ensures client.Some? ==>
      r.globals.usersColl == Some(Collection(dbName, "users")) &&
      r.globals.promtsColl == Some(Collection(dbName, "promts")) &&
      r.globals.messagesColl == Some(Collection(dbName, "messages")) &&
      r.globals.pullColl == Some(Collection(dbName, "pulls")) &&
      r.globals.storage == MongoStorage(Some(Collection(dbName, "messages"))) &&
      r.globals.minioClient == g.minioClient
  {
    if client.None? then
      Step(g.(db := None), Some(MongoClientNil), false)
    else
      var messages := Some(Collection(dbName, "messages"));
      Step(g.(db := client,
              usersColl := Some(Collection(dbName, "users")),
              promtsColl := Some(Collection(dbName, "promts")),
              messagesColl := messages,
              pullColl := Some(Collection(dbName, "pulls")),
              storage := MongoStorage(messages)), None, false)
  }

  /** `NewMinioClient`: `createErr` is the outcome of `minio.New`. */
  function NewMinioClient(cfg: S3Config, createErr: Option<ExtError>): (r: Result<MinioClient, ExtError>)
    ensures r.Err? <==> createErr.Some?
    ensures r.Ok? ==> r.value.endpoint == cfg.endpoint && r.value.accessKey == cfg.accessKey &&
                      r.value.secretKey == cfg.secretKey && r.value.secure
  {
    if createErr.Some? then Err(createErr.value)
    else Ok(MinioClient(cfg.endpoint, cfg.accessKey, cfg.secretKey, true))
  }

  /** `InitMinio`: `bucketExists` is the outcome of `BucketExists`, `makeErr` that of `MakeBucket`. */
  function InitMinioStep(g: Globals, cfg: S3Config, createErr: Option<ExtError>,
                         bucketExists: Result<bool, ExtError>, makeErr: Option<ExtError>): (r: Step)
    // An empty endpoint skips everything and reports success.
    ensures cfg.endpoint == "" ==> r == Step(g, None, false)
    // Only the client variable and the storage can change ...
    ensures r.globals == g.(minioClient := r.globals.minioClient, storage := r.globals.storage)
    // ... the storage only to S3, and only when every step succeeded.
    ensures r.globals.storage != g.storage ==> r.err.None?
    ensures r.err.None? && cfg.endpoint != "" ==>
      createErr.None? &&
      r.globals.storage == S3Storage(MinioClient(cfg.endpoint, cfg.accessKey, cfg.secretKey, true), cfg.bucket)
    // A client-creation failure leaves the client variable nil.
    ensures cfg.endpoint != "" && createErr.Some? ==> r.globals.minioClient.None?
    // Once created, the client is assigned before the bucket is checked.
    ensures cfg.endpoint != "" && createErr.None? ==>
      r.globals.minioClient == Some(MinioClient(cfg.endpoint, cfg.accessKey, cfg.secretKey, true))
    // The bucket is created exactly when it was reported missing.
    ensures r.madeBucket <==> cfg.endpoint != "" && createErr.None? && bucketExists == Ok(false)
    ensures r.err.Some? <==>
      cfg.endpoint != "" && (createErr.Some? || bucketExists.Err? || (bucketExists == Ok(false) && makeErr.Some?))
  {
    if cfg.endpoint == "" then Step(g, None, false)
    else
      var created := NewMinioClient(cfg, createErr);
      if created.Err? then Step(g.(minioClient := None), Some(MinioClientFailed(created.error)), false)
      else
        var client := created.value;
        var g1 := g.(minioClient := Some(client));
        if bucketExists.Err? then Step(g1, Some(BucketCheckFailed(bucketExists.error)), false)
        else if !bucketExists.value && makeErr.Some? then Step(g1, Some(BucketCreateFailed(makeErr.value)), true)
        else Step(g1.(storage := S3Storage(client, cfg.bucket)), None, !bucketExists.value)
  }

  /** `dao.Init`: the storage switch on the configured value. */
  function DaoInitStep(g: Globals, storage: string, cfg: S3Config, createErr: Option<ExtError>,
                       bucketExists: Result<bool, ExtError>, makeErr: Option<ExtError>): (r: Step)
    ensures storage == "mongodb" ==> r == Step(g.(storage := MongoStorage(g.messagesColl)), None, false)
    ensures storage == "s3" ==>
      var m := InitMinioStep(g, cfg, createErr, bucketExists, makeErr);
      r.globals == m.globals && r.madeBucket == m.madeBucket &&
      (m.err.None? ==> r.err.None?) &&
      (m.err.Some? ==> r.err == Some(ConfiguredS3Failed(m.err.value)))
    ensures storage != "mongodb" && storage != "s3" ==> r == Step(g, None, false)
    // Every error is the wrapped S3 failure: `ErrNoStorage` is never returned.
    ensures r.err.Some? ==> storage == "s3" && r.err.value.ConfiguredS3Failed? && r.err != Some(NoStorage)
  {
    if storage == "mongodb" then Step(g.(storage := MongoStorage(g.messagesColl)), None, false)
    else if storage == "s3" then
      var m := InitMinioStep(g, cfg, createErr, bucketExists, makeErr);
      if m.err.Some? then Step(m.globals, Some(ConfiguredS3Failed(m.err.value)), m.madeBucket)
      else m
    else Step(g, None, false)
  }

  /** `"s3"` with no endpoint succeeds and keeps whatever backend was active. */
  lemma S3WithoutEndpointKeepsBackend(g: Globals, cfg: S3Config, createErr: Option<ExtError>,
                                      bucketExists: Result<bool, ExtError>, makeErr: Option<ExtError>)
    requires cfg.endpoint == ""
    ensures DaoInitStep(g, "s3", cfg, createErr, bucketExists, makeErr) == Step(g, None, false)
  {
  }

  /** The usual start-up, MongoDB `Init` then `dao.Init("mongodb")`, leaves the
      MongoDB backend active over the `messages` collection. */
  lemma MongoStartUp(g: Globals, client: MongoClient, dbName: string, cfg: S3Config,
                     createErr: Option<ExtError>, bucketExists: Result<bool, ExtError>, makeErr: Option<ExtError>)
    ensures var m := MongoInitStep(g, Some(client), dbName);
            var d := DaoInitStep(m.globals, "mongodb", cfg, createErr, bucketExists, makeErr);
            m.err.None? && d.err.None? && d.globals.storage == MongoStorage(Some(Collection(dbName, "messages")))
  {
  }

  /** The package variables, assigned in place by the start-up steps. */
  class DataAccess {
    var db: Option<MongoClient>
    var usersColl: Option<Collection>
    var promtsColl: Option<Collection>
    var messagesColl: Option<Collection>
    var pullColl: Option<Collection>
    var minioClient: Option<MinioClient>
    var defaultMessageStorage: Storage

    constructor ()
      ensures State() == Globals(None, None, None, None, None, None, Unset)
    {
      db, usersColl, promtsColl, messagesColl, pullColl := None, None, None, None, None;
      minioClient, defaultMessageStorage := None, Unset;
    }

    function State(): Globals
      reads this
    {
      Globals(db, usersColl, promtsColl, messagesColl, pullColl, minioClient, defaultMessageStorage)
    }

    /** MongoDB `Init`. */
    method MongoInit(client: Option<MongoClient>, dbName: string) returns (err: Option<DaoError>)
      modifies this
      ensures var r := MongoInitStep(old(State()), client, dbName); State() == r.globals && err == r.err
    {
      db := client;
      if db.None? {
        return Some(MongoClientNil);
      }
      usersColl := Some(Collection(dbName, "users"));
      promtsColl := Some(Collection(dbName, "promts"));
      messagesColl := Some(Collection(dbName, "messages"));
      pullColl := Some(Collection(dbName, "pulls"));
      defaultMessageStorage := MongoStorage(messagesColl);
      return None;
    }

    /** `InitMinio`. */
    method InitMinio(cfg: S3Config, createErr: Option<ExtError>, bucketExists: Result<bool, ExtError>,
                     makeErr: Option<ExtError>)
      returns (err: Option<DaoError>, madeBucket: bool)
      modifies this
      ensures var r := InitMinioStep(old(State()), cfg, createErr, bucketExists, makeErr);
              State() == r.globals && err == r.err && madeBucket == r.madeBucket
    {
      madeBucket := false;
      if cfg.endpoint == "" {
        return None, false;
      }
      var created := NewMinioClient(cfg, createErr);
      minioClient := if created.Ok? then Some(created.value) else None;
      if created.Err? {
        return Some(MinioClientFailed(created.error)), false;
      }
      if bucketExists.Err? {
        return Some(BucketCheckFailed(bucketExists.error)), false;
      }
      if !bucketExists.value {
        madeBucket := true;
        if makeErr.Some? {
          return Some(BucketCreateFailed(makeErr.value)), true;
        }
      }
      defaultMessageStorage := S3Storage(created.value, cfg.bucket);
      return None, madeBucket;
    }

    /** `dao.Init`. */
    method DaoInit(storage: string, cfg: S3Config, createErr: Option<ExtError>,
                   bucketExists: Result<bool, ExtError>, makeErr: Option<ExtError>)
      returns (err: Option<DaoError>, madeBucket: bool)
      modifies this
      ensures var r := DaoInitStep(old(State()), storage, cfg, createErr, bucketExists, makeErr);
              State() == r.globals && err == r.err && madeBucket == r.madeBucket
    {
      madeBucket := false;
      if storage == "mongodb" {
        defaultMessageStorage := MongoStorage(messagesColl);
      } else if storage == "s3" {
        var errMinio;
        errMinio, madeBucket := InitMinio(cfg, createErr, bucketExists, makeErr);
        if errMinio.Some? {
          return Some(ConfiguredS3Failed(errMinio.value)), madeBucket;
        }
      }
      return None, madeBucket;
    }
  }
}
