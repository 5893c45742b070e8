/** Types shared by every part of the marketplace backend model. */
module Prelude {

  /** Row identifiers. The database hands them out in increasing order. */
  type Id = nat

  /** An abstract clock reading (`new Date()` in the services). */
  type Time = int

  datatype Option<+T> = None | Some(value: T)

  /** The exceptions the services raise, by kind, with the message they carry. */
  datatype Error =
    | NotFound(message: string)      // NestJS NotFoundException
    | BadRequest(message: string)    // NestJS BadRequestException
    | Unauthorized(message: string)  // NestJS UnauthorizedException
    | Failure(message: string)       // a plain `Error` thrown by the service
    | RecordNotFound                 // the database's error when an update or delete matches no row

  datatype Result<+T> = Ok(value: T) | Err(error: Error)
}
