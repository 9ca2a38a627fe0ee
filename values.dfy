/** Values that cross the program's boundaries: decoded JSON/YAML documents,
    the Python exceptions the modelled code can raise, and `os.path.join`. */
module Values {
  import opened Strings

  /** A decoded JSON (or safe-loaded YAML) value. Numbers are integers;
      floating-point fields are carried as opaque values. */
  datatype Json =
    | JNull
    | JBool(b: bool)
    | JNum(n: int)
    | JStr(s: string)
    | JArr(items: seq<Json>)
    | JObj(fields: map<string, Json>)

  /** The built-in and library exceptions that the modelled code lets escape.
      `ResourceNotFound` is the error of the `fs` library for a missing file. */
  datatype PyError =
    | KeyError
    | TypeError
    | ValueError
    | IndexError
    | AttributeError
    | NameError
    | JSONDecodeError
    | FileNotFoundError
    | SerialException
    | CalledProcessError
    | ResourceNotFound

  /** What one `readline` on a VM's control device gives: a line that
      decodes to a message, a line `json.loads` rejects (among them the
      empty line a read returns when it times out on a silent guest), or a
      read that raises `SerialException` because the device was closed. */
  datatype Line =
    | Got(msg: Json)
    | Rejected
    | ReadFails

  /** `os.path.join(a, b)` on POSIX: an absolute `b` replaces `a`; otherwise
      `b` is appended, after a separator unless `a` is empty or ends with one. */
  function Join(a: string, b: string): (r: string)
    ensures StartsWith(b, "/") ==> r == b
    ensures !StartsWith(b, "/") ==> r == a + b || r == a + "/" + b
    ensures !StartsWith(b, "/") && (a == "" || a[|a| - 1] == '/') ==> r == a + b
  {
    if StartsWith(b, "/") then b
    else if a == "" || a[|a| - 1] == '/' then a + b
    else a + "/" + b
  }
}
