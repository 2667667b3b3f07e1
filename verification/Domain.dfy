/** Values shared by the browser and the server side of the model. */
module Domain {

  datatype Option<+T> = None | Some(value: T)

  /** Milliseconds since the epoch, as `Date.getTime()` reports them. */
  type Time = nat

  datatype Status = SCHEDULED | PENDING | IN_PROGRESS | DONE | MISSED | FLAGGED

  /** The three task actions a staff member can take, online or offline. */
  datatype Action = Start | Complete | Flag
}
