/** Shared vocabulary of the model: optional values, results carrying the
    exceptions the Python code raises, and class identities. */
module Common {

  /** A Python class, identified by its name. Classes are compared by identity
      in the source; distinct names stand for distinct class objects here. */
  type ClassId = string

  /** The result of constructing a class: an instance of it. */
  datatype Instance = Instance(cls: ClassId)

  /** A JSON scalar as stored in a watcher document's parameter dictionary,
      and a field value as a pydantic `model_dump` yields it (an enum member
      stands for its string value). */
  datatype Scalar = Str(s: string) | Int(n: int) | Null

  datatype Option<T> = None | Some(value: T)

  /** A value or the exception that replaced it. */
  datatype Result<T> = Ok(value: T) | Err(error: Error)

  /** The outcome of a procedure that returns nothing. */
  datatype Outcome = Pass | Fail(error: Error)

  /** The exceptions raised by the modelled code. Most are `ValueError` in the
      source; each constructor stands for one raise site and its message. */
  datatype Error =
    // CoreDbService
    | WatcherNotFound(watcher: string)
    | WatcherNotUnique(watcher: string, count: nat)
    | DataSourceDataNotFound(dataSource: string)
    | NotificationPlatformDataNotFound(platform: string)
    // registries
    | DuplicateDataSource(name: string)
    | DataSourceNotFound(name: string)
    | DataSourceClassNotFound(cls: ClassId)
    | DuplicateNotificationPlatform(name: string)
    | NotificationPlatformNotFound(name: string)
    | NotificationPlatformClassNotFound(cls: ClassId)
    | InvalidParametersClass(modulePath: string, className: string)
    // dependency injector
    | CircularDependency(cycle: seq<ClassId>)
    | MissingAnnotation(parameter: string)
    | MissingTypeHint(parameter: string)
    // data sources and their collaborators
    | ValidationFailed(field: string)
    | FetchFailed(url: string, status: int)
    | DateParseFailed(text: string)
    | FormatterNotFound
    | ParametersRejected(cls: ClassId)
    | DeliveryFailed(cls: ClassId)

  /** Regrouping a concatenation, stated once so proofs can name the step. */
  lemma Assoc<T>(a: seq<T>, b: seq<T>, c: seq<T>)
    ensures (a + b) + c == a + (b + c)
  {
  }
}
