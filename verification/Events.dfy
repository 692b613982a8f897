/** The events of one operation, reduced to what the code branches on. */
module Events {

  /** Which caller pushed an event. Bookkeeping of the model: the source does not store it. */
  datatype Origin = Engine | Host | Stdout | Finish

  /** One constructor per payload pointer that handleEvent distinguishes. */
  datatype Payload =
    | Cancel
    | StdoutLine(message: string)
    | Diagnostic(severity: string, urn: string, message: string)
    | Summary(changes: map<string, int>)
    | ResOpFailed(urn: string, ty: string, op: string, provider: string)
    | Other(tag: string)

  datatype Event = Event(sequence: nat, origin: Origin, payload: Payload)
}
