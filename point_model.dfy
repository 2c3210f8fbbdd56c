/** Records and error values shared by the point service and its controller. */
module PointModel {

  /** The kind of a ledger entry: a credit (CHARGE) or a debit (USE). */
  datatype TransactionType = CHARGE | USE

  /** One row of the balance table: a user's current point total and the time of its last write. */
  datatype UserPoint = UserPoint(id: int, point: int, updateMillis: int)

  /** One entry of the append-only history log; amount is +n for a charge and -n for a use. */
  datatype PointHistory = PointHistory(userId: int, amount: int, kind: TransactionType, timestamp: int)

  /** The two exceptions the service and controller throw. */
  datatype Error =
    | NotFound(userId: int)       // NotFoundException(`User with ID ${userId} not found`)
    | BadRequest(message: string) // BadRequestException(message)

  /** A call that either returns a value or throws one of the errors above. */
  datatype Result<T> = Ok(value: T) | Err(error: Error)

  const InsufficientPoints: string := "Insufficient points"
  const InvalidUserId: string := "Invalid userId"
  const InvalidAmount: string := "Amount must be greater than 0"
}
