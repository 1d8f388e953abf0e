/** Values shared by every part of the integration model. */
module Common {

  /** Python's `None` or a value. */
  datatype Option<T> = None | Some(value: T)

  /** The exceptions the integration raises or lets escape.
      `DeviceError` stands for anything the ecoventv2 library raises. */
  datatype Exception = ValueError | IndexError | CannotConnect | InvalidAuth | DeviceError

  /** A Python call that either returns a value or raises. */
  datatype Result<T> = Ok(value: T) | Raise(exc: Exception)

  /** A Python call that returns nothing or raises. */
  datatype Outcome = Done | Fail(exc: Exception)
}
