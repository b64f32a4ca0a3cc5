/** Optional values and results, shared by every module of the model. */
module Wrappers {

  /** A value that may be absent: Python's `Optional[T]` / `None`. */
  datatype Option<+T> = None | Some(value: T)

  /** The outcome of an operation that may raise. */
  datatype Result<+T, +E> = Ok(value: T) | Err(error: E)
}

/** The HTTP errors the service answers with. */
module Http {

  /** An `HTTPException` (or an unhandled exception turned into a response). */
  datatype HttpError = HttpError(status: int, detail: string)

  const InvalidId := HttpError(400, "Invalid id")
  const InvalidItems := HttpError(400, "Invalid items")
  const MenuItemNotFound := HttpError(400, "Menu item not found")
  const RestaurantNotFound := HttpError(404, "Restaurant not found")
  const DatabaseNotConfigured := HttpError(500, "Database not configured")
  /** What the framework answers when a handler raises something that is not an `HTTPException`. */
  const InternalServerError := HttpError(500, "Internal Server Error")
}
