// The data model shared by the lifecycle engine and the HTTP layer of the
// flyd simulator: the machine record, its lifecycle status, the errors the
// engine returns and the events it hands to the publisher.
module Models {

  datatype Option<T> = None | Some(value: T)

  /** The errors the engine returns to its callers. */
  datatype Error =
    | NameRequired    // "name required"
    | RegionRequired  // "region required"
    | IdRequired      // "id required"
    | UnknownAction   // "unknown action"
    | NotFound        // the store holds no record under the id
    | ReadFailed      // any other failure of a store read (I/O, decoding)
    | SaveFailed      // the store rejected a write

  datatype Result<T> = Ok(value: T) | Err(error: Error)

  /** The values the engine ever writes into `Machine.Status`. */
  datatype Status = Pending | Running | Stopped | Terminated

  /**
   * A machine record as the store keeps it: a value, the decoded copy of
   * what was last saved. Timestamps are abstract clock readings; `version`
   * is an unbounded integer.
   */
  datatype Machine = Machine(
    id: string,
    name: string,
    region: string,
    status: Status,
    version: int,
    createdAt: nat,
    updatedAt: nat,
    metadata: map<string, string>)

  /** The fields no lifecycle operation ever writes. */
  predicate SameIdentity(a: Machine, b: Machine) {
    && a.id == b.id
    && a.name == b.name
    && a.region == b.region
    && a.createdAt == b.createdAt
    && a.metadata == b.metadata
  }

  /** The payloads published on "machines.events" (time stamps omitted). */
  datatype Event =
    | MachineCreated(id: string, name: string, region: string)
    | MachineActed(action: string, id: string, status: Status)
    | MachineRunning(id: string)
}
