/**
 * What the core borrows from its host: JavaScript values it inspects, the
 * glob library and Node's `path` functions (taken as uninterpreted functions
 * passed in by the caller), and the two kinds of error the plugin can throw.
 */
module Host {

  /** A file-system path as a string; no normalisation is assumed. */
  type Path = string

  // A glob pattern such as `**/*.*`.
  type Pattern = string

  /** The value of a property read off an untyped JavaScript object. */
  datatype JsValue = Undefined | Null | Bool(b: bool) | Str(s: string) | Other

  /** Options handed to the glob library, by property name. */
  type GlobOptions = map<string, JsValue>

  /** The glob library: the paths one pattern matches under the given options. */
  type Glob = (Pattern, GlobOptions) -> seq<Path>

  /** `path.join(base, p)`. */
  type PathJoin = (Path, Path) -> Path

  /** `path.relative(from, to)`. */
  type PathRelative = (Path, Path) -> Path

  /** Whether a thrown value is an instance of webpack's `WebpackError` class. */
  datatype ErrorKind = PlainError | WebpackError

  /** A thrown error: its class tag and its message. */
  datatype ThrownError = ThrownError(kind: ErrorKind, message: string)
}
