/** The status values the lookup core reports. Codes are those of
    absl::StatusCode, which agree with the gRPC status codes. */
module StatusCodes {

  const OkCode: int := 0
  const InvalidArgumentCode: int := 3
  const NotFoundCode: int := 5

  /** A status message: a numeric code and a human-readable message. */
  datatype Status = Status(code: int, message: string)

  /** The OK status (gRPC's Status::OK). */
  const Ok := Status(OkCode, "")

  /** The per-key status of a key that has no cached value. */
  const KeyNotFound := Status(NotFoundCode, "Key not found")

  /** The call-level status of a query the parser rejects. */
  const ParsingFailure := Status(InvalidArgumentCode, "Parsing failure.")
}
