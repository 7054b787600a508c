/** Errors as the procedure layer reports them. */
module Api {

  /** The tRPC error codes the routers use. */
  datatype Code = BadRequest | Unauthorized | Forbidden | NotFound | Conflict | InternalServerError

  /**
   * An exception leaving a procedure: either a tRPC error the procedure throws on purpose,
   * or any other exception (a database error, a failed provider or mail call, a plain Error).
   */
  datatype Error =
    | Trpc(code: Code, message: string)
    | Thrown(message: string)

  /** Input rejected by a procedure's input schema, before the procedure runs. */
  const InvalidInput := Trpc(BadRequest, "Invalid input")

  /** Database: the row an `update` or `delete` addresses does not exist (Prisma P2025). */
  const RecordNotFound := Thrown("P2025")
  /** Database: a write would duplicate a unique column (Prisma P2002). */
  const UniqueViolation := Thrown("P2002")
  /** The mail transport failed to send. */
  const MailFailure := Thrown("Failed to send email")
}
