/** Value types shared by the server and client modules. */
module Common {

  /** A value that may be absent: a missing request-body key, a NULL column, a header that was not sent. */
  datatype Option<T> = None | Some(value: T) {

    /** The value if present, `default` otherwise. */
    function GetOr(default: T): T {
      if Some? then value else default
    }
  }

  /**
    A key of a JSON request body as Sequelize's `update` and `create` see
    it: left out (undefined, which `update` skips), sent as `null`, or sent
    with a value.
  */
  datatype Field<T> = Absent | Null | Value(value: T) {

    /** A nullable column after `update`: kept when the key is absent, cleared by null, set by a value. */
    function ApplyTo(current: Option<T>): Option<T> {
      match this
      case Absent => current
      case Null => None
      case Value(v) => Some(v)
    }

    /** A NOT NULL column after `update` with a key that is not null. */
    function ApplyToRequired(current: T): T
      requires !Null?
    {
      if Value? then value else current
    }

    /** The column `create` stores: NULL for an absent or null key. */
    function OrNull(): Option<T> {
      if Value? then Some(value) else None
    }
  }

  /** A calendar day, the value of a DATEONLY column, counted in days; its `YYYY-MM-DD` text form is not modelled. */
  type Day = int

  /** An HTTP status code. */
  type Status = int

  /**
    The request is never answered: the handler has no `try`, so a rejected
    Sequelize call rejects the handler's promise, which Express 4 does not
    catch, and no status is sent.
  */
  const Unanswered: Status := 0

  /** An opaque JSON document (the JSONB `meals` column). */
  type Json = string

  /** Milliseconds in one day of UTC time. */
  const MillisPerDay: int := 86_400_000

  /** The UTC calendar day of a millisecond timestamp: what `toISOString().slice(0, 10)` names. */
  function DayOf(now: int): (d: Day)
    ensures d * MillisPerDay <= now < (d + 1) * MillisPerDay
  {
    now / MillisPerDay
  }
}
