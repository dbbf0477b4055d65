/** What a request handler takes from outside the core: the configuration array and
    the results of the calls into the PHP runtime and the operating system that the
    core cannot see (the clock, the random source, bcrypt, `uniqid`, the file system). */
module Settings {
  import opened Values
  import opened Schema

  /** The recognised entries of the configuration array; None is an entry that is not set. */
  datatype Config = Config(
    tokenLength: Option<int>,               // ['security']['token_length']
    uploadPaths: map<string, string>,       // ['uploads'][<type>], the directory per upload type
    allowedExtensions: Option<seq<string>>, // ['uploads']['allowed_extensions']
    maxFileSize: Option<int>)               // ['uploads']['max_file_size']

  /** The configuration shipped as an example with the application. */
  const ExampleConfig := Config(
    Some(40),
    map["projects" := "config/../uploads/projects", "tasks" := "config/../uploads/tasks"],
    Some(["jpg", "jpeg", "png", "gif", "webp"]),
    Some(5 * 1024 * 1024))

  /** The answers of the outside world during one request. */
  datatype Oracles = Oracles(
    now: Timestamp,                       // new DateTimeImmutable()
    randomBytes: nat -> seq<bv8>,         // random_bytes($n)
    hash: string -> string,               // password_hash($password, PASSWORD_BCRYPT)
    verify: (string, string) -> bool,     // password_verify($password, $hash)
    uniqueId: string,                     // what uniqid($prefix, true) appends to its prefix
    directoryReady: bool,                 // is_dir($d) || mkdir($d, 0775, true) || is_dir($d)
    fileMoved: bool)                      // move_uploaded_file($tmp, $destination)
  {
    /** `random_bytes($n)` returns exactly `$n` bytes. */
    ghost predicate RandomSound() {
      forall n: nat :: |randomBytes(n)| == n
    }
  }
}
