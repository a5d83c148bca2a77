/** Shared vocabulary of the installer's command contract: optional values, the
    errors a command reports, the CommandResult it produces and the pair that
    every `Run` returns. */
module Base {

  datatype Option<+T> = None | Some(value: T)

  /** A value, or the error that prevented producing it. */
  datatype Result<+T> = Ok(value: T) | Err(error: Error)

  /** The error kinds of the installer's error library that the modelled code raises. */
  datatype ErrorKind = Generic | InvalidArgument | NotFound | Internal | Unimplemented

  /** An error with its message, the parameters attached to it and the error it wraps. */
  datatype Error = Error(kind: ErrorKind, msg: string, params: seq<string>, cause: Option<Error>)

  /** An error of the given kind that carries no cause. */
  function NewError(kind: ErrorKind, msg: string): (e: Error)
    ensures e.kind == kind && e.msg == msg && e.cause.None?
  {
    Error(kind, msg, [], None)
  }

  /** Wraps `cause` as a generic error with a new message, as the library's `AsError` does. */
  function Wrap(cause: Error, msg: string): (e: Error)
    ensures e.kind == Generic && e.msg == msg && e.cause == Some(cause)
  {
    Error(Generic, msg, [], Some(cause))
  }

  /** An internal error wrapping `cause`. */
  function InternalFrom(msg: string, cause: Error): (e: Error)
    ensures e.kind == Internal && e.msg == msg && e.cause == Some(cause)
  {
    Error(Internal, msg, [], Some(cause))
  }

  /** The outcome of one attempted effect. */
  datatype CommandResult = CommandResult(success: bool, output: string, error: Option<Error>)

  /** What `Run(workflowID)` returns: an optional result and an optional error.
      A missing result with an error is a transport error: the effect could not
      even be attempted. */
  datatype RunOutcome = RunOutcome(result: Option<CommandResult>, err: Option<Error>) {

    /** Every `Run` returns a result, an error, or both. */
    predicate WellFormed() {
      result.Some? || err.Some?
    }

    predicate IsTransportError() {
      result.None? && err.Some?
    }

    predicate IsSuccess() {
      result.Some? && result.value.success && err.None?
    }

    /** The effect was attempted and failed; no transport error. */
    predicate IsSemanticFailure() {
      result.Some? && !result.value.success && err.None?
    }
  }

  /** `return nil, err` */
  function Transport(e: Error): (o: RunOutcome)
    ensures o.IsTransportError() && o.err == Some(e)
  {
    RunOutcome(None, Some(e))
  }

  /** `return NewCommandResult(false, msg, cause), nil` */
  function Failed(msg: string, cause: Option<Error>): (o: RunOutcome)
    ensures o.IsSemanticFailure() && o.result.value.output == msg && o.result.value.error == cause
  {
    RunOutcome(Some(CommandResult(false, msg, cause)), None)
  }

  /** `return NewSuccessCommand([]byte(msg)), nil` */
  function Succeeded(msg: string): (o: RunOutcome)
    ensures o.IsSuccess() && o.result.value.output == msg && o.result.value.error.None?
  {
    RunOutcome(Some(CommandResult(true, msg, None)), None)
  }

  /** The scheduling category of a command. */
  datatype Category = Sync | Async

  /** The discriminants of the command kinds this model mentions. */
  datatype CommandName =
    | LaunchComponents
    | CreateManagementConfig
    | CreateDockerSecret
    | InstallZtPlanetLB
    | InstallIstio
    | AddClusterUser
    | Logger
    | Fail
    | Sleep
    | Try

  /** Command identifiers are generated from the command name; uniqueness within a
      process run is the generator's concern and is not modelled. */
  datatype CommandId = CommandId(of: CommandName)

  function GenerateCommandId(name: CommandName): (id: CommandId)
    ensures id.of == name
  {
    CommandId(name)
  }

  /** The fields every command carries. */
  datatype Header = Header(id: CommandId, category: Category, name: CommandName)

  /** `NewSyncCommand(name)`: a synchronous command whose identifier comes from its name. */
  function NewSyncHeader(name: CommandName): (h: Header)
    ensures h.category == Sync && h.name == name && h.id == GenerateCommandId(name)
  {
    Header(GenerateCommandId(name), Sync, name)
  }

  /** Stands for the message constant the commands use when their JSON cannot be
      decoded; the file defining it is not part of this model. */
  const UnmarshalError: string := "UnmarshalError"

  /** The identifier every `New...FromJSON` constructor gives a decoded command:
      one generated from the name the JSON carried. */
  function IdentifyDecoded(h: Header): (r: Header)
    ensures r.name == h.name && r.category == h.category
    ensures r.id == GenerateCommandId(h.name)
  {
    h.(id := GenerateCommandId(h.name))
  }

  /** The error every `New...FromJSON` constructor returns for JSON that does not decode. */
  const UnmarshalFailure: Error := NewError(InvalidArgument, UnmarshalError)
}
