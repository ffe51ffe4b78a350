/** Values shared by every backend: the failure wrappers, the records of the backend
    contract, and the JSON values that the compositor's control tool prints. */
module BackendTypes {

  datatype Option<+T> = None | Some(value: T)

  datatype Result<+T, +E> = Success(value: T) | Failure(error: E)

  /** The outcome of an operation that yields no value (a `Promise<void>`). */
  datatype Outcome<+E> = Pass | Fail(error: E)

  /** A global shortcut as the application describes it. The activation callback is an
      opaque handle that the backend only passes on, so it is not part of this value. */
  datatype Shortcut = Shortcut(id: string, description: string)

  /** The static capability report of a backend. */
  datatype BackendInfo = BackendInfo(windowType: string, supportsShortcuts: bool, shortcutHint: string)

  /** A JSON value as `JSON.parse` produces it. Numbers are integers here. */
  datatype Json =
    | JNull
    | JBool(b: bool)
    | JNum(n: int)
    | JStr(s: string)
    | JArray(items: seq<Json>)
    | JObject(fields: map<string, Json>)

  /** The focused window and pointer position. The fields hold the run-time JavaScript
      values: the name fields are always defined, the pointer fields may be `undefined`
      (None) because they are copied without defaulting. */
  datatype WMInfo = WMInfo(windowName: Json, appName: Json, pointerX: Option<Json>, pointerY: Option<Json>)
}
