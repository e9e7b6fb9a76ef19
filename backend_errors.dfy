// The backend's sentinel errors; handlers compare errors by identity, so each is
// one constructor.
module BackendErrors {
  datatype ServiceError =
    | InvalidCredentials
    | Unauthorized
    | TokenExpired
    | InvalidToken
    | InvalidInput
    | InvalidBlockData
    | NotFound
    | DuplicateKey
    | Database
    | TooManyRequests
    | InvalidFileType
    | FileTooLarge
    | UploadFailed
    | AdminExists
    /** An error that wraps no sentinel, such as a failed file read. */
    | Internal(message: string)
}
