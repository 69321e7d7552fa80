/** The Python exceptions the modelled operations raise, with the messages the code gives them. */
module Errors {

  datatype PyError =
    | FileNotFoundError
    | IsADirectoryError
    | NotADirectoryError
    | JSONDecodeError
    | TomlDecodeError
    | AttributeError(name: string)
    | TypeError
    | ValueError(message: string)
    /** A named field whose TOML value is not of its declared type; Python would accept it. */
    | IllTyped(key: string)

  const FileIsEmpty: string := "File is empty"
  const NoValidData: string := "No valid data found"
  const NoSearchName: string := "Please provide a name to search for"
  const NotInList: string := "list.remove(x): x not in list"
}
