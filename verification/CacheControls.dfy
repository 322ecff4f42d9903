/** What a worker says about the reuse of a result (`vgi.cache.*`). */
module CacheControls {
  import opened Wrappers

  datatype CacheControl = CacheControl(
    ttlSeconds: Option<i64>,
    expires: Option<string>,
    scope: string,
    noStore: bool,
    etag: Option<string>,
    lastModified: Option<string>,
    revalidatable: bool,
    staleWhileRevalidate: Option<i64>,
    staleIfError: Option<i64>,
    notModified: bool)

  const SCOPE_CATALOG := "catalog"
  const SCOPE_TRANSACTION := "transaction"

  /** The worker allows conditional requests and supplied something to send on one. */
  predicate ValidRevalidation(c: CacheControl) {
    c.revalidatable && (c.etag.Some? || c.lastModified.Some?)
  }

  /** A grace window survives only when it is positive. */
  function PositiveSeconds(v: Option<i64>): Option<nat> {
    if v.Some? && v.value > 0 then Some(v.value) else None
  }

  /** A grace window in seconds; absent or negative means none. */
  function GraceSeconds(v: Option<i64>): nat {
    if v.Some? && v.value > 0 then v.value else 0
  }
}
