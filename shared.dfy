/** The error kinds the service distinguishes (the thrift `shared` error
    types), closed into one datatype so that a type switch becomes a match. */
module Shared {

  datatype ServiceError =
    | InternalServiceError(message: string)
    | BadRequestError(message: string)
    | ServiceBusyError(message: string)
    | EntityNotExistsError(message: string)
      /** Any other Go error value (`errors.New`, a library error, ...). */
    | UncategorizedError(message: string)
}

/** Event-id and version sentinels shared by the whole service. */
module Common {

  /** Id of the first event of every workflow history. */
  const FirstEventID: int := 1

  /** Event id meaning "not set". */
  const EmptyEventID: int := -23

  /** Version meaning "not set". */
  const EmptyVersion: int := -24
}
