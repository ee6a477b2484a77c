/**
 * The exported handler of api/diag/index.js: report which configuration
 * variables are present, probe blob storage, probe the SQL database, and
 * answer with the collected `out` object.  The network calls are not
 * modelled; their outcomes arrive as inputs.
 */
module Diag {
  import opened Wrappers
  import opened SqlConfig

  /** Outcome of the container `exists`/`create`/`getProperties` sequence. */
  datatype StorageProbe = StorageReachable(etag: Option<string>) | StorageThrew(message: string)

  /** Outcome of connecting with the settings `buildSqlConnectionFromEnv` produced. */
  datatype SqlProbe = SqlConnected | SqlThrew(message: string)

  /** `out.checks.storage` */
  datatype StorageCheck = StorageOk(containerPropsETag: Option<string>) | StorageFailed(error: string) {
    predicate Ok() { StorageOk? }
  }

  /** `out.checks.sql` */
  datatype SqlCheck = SqlOk | SqlFailed(error: string) {
    predicate Ok() { SqlOk? }
  }

  /** `out.env` */
  datatype EnvReport = EnvReport(hasStorageCS: bool, hasSqlVars: bool, hasSqlCS: bool)

  /** The `out` object. */
  datatype DiagBody = DiagBody(ok: bool, env: EnvReport, storage: StorageCheck, sql: SqlCheck, note: string)

  datatype DiagResponse = DiagResponse(status: int, contentType: string, body: DiagBody)

  const StorageMissingError := "ReprintStorageConnectionString missing"
  const SqlMissingError := "SQL config not found"
  const SizeNote := "ถ้าภาพใหญ่เกิน ~3MB (Base64 ~4MB+) อาจติดลิมิตของ Static Web Apps ให้ลดขนาดภาพฝั่ง client"

  /**
   * `storageCS` is `ReprintStorageConnectionString`; `storageProbe` and
   * `sqlProbe` are what the storage and SQL round trips would produce, and
   * are consulted only when the code gets that far.
   */
  method Handle(env: SqlEnv, storageCS: Option<string>, storageProbe: StorageProbe, sqlProbe: SqlProbe)
    returns (res: DiagResponse)
    ensures res.status == 200 && res.contentType == "application/json; charset=utf-8"
    ensures res.body.ok <==> res.body.storage.Ok() && res.body.sql.Ok()
    ensures res.body.ok <==> && Truthy(storageCS) && storageProbe.StorageReachable?
                             && BuildSqlConnection(env).Some? && sqlProbe.SqlConnected?
    ensures res.body.env == EnvReport(Truthy(storageCS), HasSqlVars(env), Truthy(env.sqlConnectionString))
    ensures !Truthy(storageCS) ==> res.body.storage == StorageFailed(StorageMissingError)
    ensures Truthy(storageCS) ==> res.body.storage == match storageProbe
      case StorageReachable(etag) => StorageOk(if etag == Some("") then None else etag)
      case StorageThrew(m) => StorageFailed(m)
    ensures BuildSqlConnection(env).None? ==> res.body.sql == SqlFailed(SqlMissingError)
    ensures BuildSqlConnection(env).Some? ==> res.body.sql == match sqlProbe
      case SqlConnected => SqlOk
      case SqlThrew(m) => SqlFailed(m)
    ensures res.body.note == SizeNote
  {
    var ok := true;
    var report := EnvReport(Truthy(storageCS), HasSqlVars(env), Truthy(env.sqlConnectionString));

    var storage: StorageCheck;
    if !Truthy(storageCS) {
      ok := false;
      storage := StorageFailed(StorageMissingError);
    } else {
      match storageProbe
      case StorageReachable(etag) =>
        // `props.etag || null`
        storage := StorageOk(if etag.Some? && etag.value != "" then etag else None);
      case StorageThrew(m) =>
        ok := false;
        storage := StorageFailed(m);
    }

    var sql: SqlCheck;
    var conn := BuildSqlConnection(env);
    if conn.None? {
      ok := false;
      sql := SqlFailed(SqlMissingError);
    } else {
      match sqlProbe
      case SqlConnected =>
        sql := SqlOk;
      case SqlThrew(m) =>
        ok := false;
        sql := SqlFailed(m);
    }

    res := DiagResponse(200, "application/json; charset=utf-8", DiagBody(ok, report, storage, sql, SizeNote));
  }
}
