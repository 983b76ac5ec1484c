/** The cached database connection (lib/mongodb.ts): a module-level record
    holding the connection once made and the pending connect attempt. A call
    reuses a made connection, starts an attempt only when none is pending,
    and clears the pending attempt on any failure. */
module MongoConnection {
  import opened Common

  /** A thrown value: an `Error` with its message, or anything else. */
  datatype Throwable = ErrorValue(message: string) | NonError

  /** How a connect attempt settles. */
  datatype Settlement = Resolved | Rejected(reason: Throwable)

  /** A pending connect attempt, identified by how it will settle. */
  datatype Attempt = Attempt(settles: Settlement)

  /** The handle `mongoose.connect` resolves to. */
  datatype Handle = Mongoose

  datatype Outcome = Connected(handle: Handle) | Failed(message: string)

  const ReadyConnected := 1
  const NotReadyMessage := "MongoDB connection failed"
  const FallbackMessage := "Failed to connect to MongoDB"

  /** The error a caller sees: an `Error` as it was thrown, anything else
      replaced by the fallback error. */
  function Rethrown(t: Throwable): (m: string)
    ensures t.ErrorValue? ==> m == t.message
    ensures t.NonError? ==> m == FallbackMessage
  {
    match t
    case ErrorValue(msg) => msg
    case NonError => FallbackMessage
  }

  class ConnectionCache {
    var conn: Option<Handle>
    var promise: Option<Attempt>
    /** How many times `mongoose.connect` has been called. */
    ghost var connectCalls: nat

    constructor ()
      ensures conn.None? && promise.None? && connectCalls == 0
    {
      conn := None;
      promise := None;
      connectCalls := 0;
    }

    /** `dbConnect`. `next` is how a newly started attempt would settle;
        `readyState` is the driver's connection state once it has. */
    method DbConnect(next: Settlement, readyState: int) returns (r: Outcome)
      modifies this
      ensures old(conn).Some? ==>
        r == Connected(Mongoose) && conn == old(conn) && promise == old(promise)
        && connectCalls == old(connectCalls)
      ensures old(conn).None? ==>
        var attempt := if old(promise).Some? then old(promise).value else Attempt(next);
        && connectCalls == (if old(promise).Some? then old(connectCalls) else old(connectCalls) + 1)
        && match attempt.settles
           case Rejected(reason) =>
             r == Failed(Rethrown(reason)) && conn.None? && promise.None?
           case Resolved =>
             && conn == Some(Mongoose)
             && (readyState == ReadyConnected ==> r == Connected(Mongoose) && promise == Some(attempt))
             && (readyState != ReadyConnected ==> r == Failed(NotReadyMessage) && promise.None?)
    {
      if conn.Some? {
        return Connected(Mongoose);
      }
      if promise.None? {
        promise := Some(Attempt(next));
        connectCalls := connectCalls + 1;
      }
      match promise.value.settles {
        case Rejected(reason) =>
          promise := None;
          return Failed(Rethrown(reason));
        case Resolved =>
          conn := Some(Mongoose);
          if readyState != ReadyConnected {
            promise := None;
            return Failed(NotReadyMessage);
          }
          return Connected(Mongoose);
      }
    }
  }

  /** A connection that resolves but is not ready fails the first call, yet
      stays cached: the next call succeeds at once, without a new attempt and
      whatever the state of the driver. */
  method NotReadyThenCached(later: Settlement, laterState: int) returns (first: Outcome, second: Outcome)
    ensures first == Failed(NotReadyMessage)
    ensures second == Connected(Mongoose)
  {
    var cache := new ConnectionCache();
    first := cache.DbConnect(Resolved, 0);
    second := cache.DbConnect(later, laterState);
  }

  /** A rejected attempt is forgotten, so the next call starts a new one. */
  method RetryAfterRejection(reason: Throwable) returns (first: Outcome, second: Outcome)
    ensures first == Failed(Rethrown(reason))
    ensures second == Connected(Mongoose)
  {
    var cache := new ConnectionCache();
    first := cache.DbConnect(Rejected(reason), ReadyConnected);
    second := cache.DbConnect(Resolved, ReadyConnected);
    assert cache.connectCalls == 2;
  }
}
