/** Identifiers and timestamps shared by the tables and the io_models.
    A `Date` is an opaque, totally ordered timestamp. */
module Common {
  type UserId = string
  type Timestamp = int
}
