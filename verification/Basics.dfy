/** Shared vocabulary: optional values and the identifiers every service passes around. */
module Basics {
  datatype Option<+T> = None | Some(value: T)

  /** Orders, products, sellers and users are uuids carried as text. */
  type Id = string

  /** HTTP answers as their status codes. */
  const OK := 200
  const BAD_REQUEST := 400
  const NOT_FOUND := 404
  const CONFLICT := 409
  const UNPROCESSABLE := 422
  const SERVER_ERROR := 500
}
