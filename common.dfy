/** Result wrappers and the Python exceptions the pipeline can end in. */
module Common {

  datatype Option<+T> = None | Some(value: T)

  /** The exceptions (and fatal exits) that the scripts can end with. */
  datatype PyError =
    | NameError(name: string)        // a variable read before it was ever bound
    | IndexError                     // pop from an empty list, or a mask of the wrong length
    | ValueError                     // int() on a malformed literal, random.sample out of range, ...
    | KeyError(key: string)          // a column or dictionary key that is not there
    | TypeError                      // len() of a non-string
    | AttributeError                 // .lower() on a non-string
    | FileNotFound(file: string)     // reading a file that does not exist
    | EmptyData(file: string)        // read_csv on a file with no lines
    | ParserError(file: string)      // read_csv on a line with more fields than the header
    | Fatal(reason: string)          // logger.critical followed by sys.exit(1)

  datatype Result<+T> = Ok(value: T) | Err(error: PyError)
}
