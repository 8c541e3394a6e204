/** Value types shared by every module of the ln2t-tools model: optional and
    fallible results, the errors the program raises, and Python truthiness. */
module Base {

  datatype Option<+T> = None | Some(value: T) {
    /** The value, or `default` when there is none. */
    function GetOr(default: T): T {
      match this
      case Some(v) => v
      case None => default
    }
  }

  datatype Result<+T, +E> = Success(value: T) | Failure(error: E)

  /** The exceptions the core raises, one constructor per raise site kind. */
  datatype Error =
    | UnsupportedTool(tool: string)        // ValueError("Unsupported tool: ...")
    | ImageBuildFailed(imagePath: string)  // FileNotFoundError after a failed build
    | NoValidParticipants                  // ValueError in participant resolution
    | MissingLicense                       // ValueError: license option absent
    | ApptainerNotFound                    // FileNotFoundError: no `/usr/bin/apptainer`
    | PathOperandType                      // TypeError: `str / str`
    | StringHasNoGlob                      // AttributeError: `str` has no `glob`
    | UndefinedName(name: string)          // NameError
    | OutputPathNotDirectory(path: string) // FileExistsError from `os.makedirs`

  /** Python truthiness of an optional string: `None` and `""` are false. */
  predicate Truthy(o: Option<string>) {
    o.Some? && o.value != ""
  }

  /** Python's `a or b` where `a` is an optional string and `b` a string. */
  function Or(a: Option<string>, b: string): string {
    if Truthy(a) then a.value else b
  }
}
