/** The Java exceptions the configuration layer raises, as values. */
module Exceptions {

  datatype Error =
      /** `JobParametersInvalidException` from the required-key check: the keys that are absent. */
    | MissingKeys(keys: set<string>)
      /** `JobParametersInvalidException` from the optional-key check: keys that are neither required nor optional. */
    | UnexpectedKeys(keys: set<string>)
      /** `JobParametersInvalidException` raised by a domain check, with its message. */
    | ParametersInvalid(message: string)
      /** `IllegalArgumentException`, with its message. */
    | IllegalArgument(message: string)
      /** `InvalidPathException` from `Paths.get`, with its message. */
    | InvalidPath(message: string)
      /** `NullPointerException`. */
    | NullPointer
      /** `FileNotFoundException` when opening the properties file at `path`. */
    | FileNotFound(path: string)
      /** `UnknownHostException` from the database connection helper. */
    | UnknownHost
      /** `RuntimeException` wrapping a checked exception. */
    | Runtime(message: string, cause: Error)
}
