/** Values shared by every component of the gateway model. */
module Common {

  datatype Option<+T> = None | Some(value: T) {
    function GetOr(default: T): T {
      match this
      case Some(v) => v
      case None => default
    }
  }

  /** What a call returns, or the `RuntimeError` it raises (the only exception
      the core raises on purpose: a client used before `connect`). */
  datatype Outcome<+T> = Returned(value: T) | RuntimeError(message: string)

  /** The configuration surface the core reads; every value is injected. */
  datatype Settings = Settings(
    maxWsPayloadBytes: nat,
    requestTimeoutSeconds: nat,
    wsPingIntervalSeconds: nat,
    wsPongTimeoutSeconds: nat,
    tunnelRegistryTtl: nat,
    slugCacheTtl: nat)

  /** The defaults of app/core/config.py. */
  const DefaultSettings := Settings(64 * 1024, 30, 10, 5, 300, 60)
}
