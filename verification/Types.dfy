/** Values shared by every part of the model: sessions, events, packets and error results. */
module Types {

  datatype Option<+T> = None | Some(value: T)

  datatype Error = NotFound | SchedulerEmpty | InvalidWildcard | BadPayload | CreateFailed | StartFailed | FileSystem

  datatype Result<+T> = Ok(value: T) | Err(error: Error)

  /** File and log contents are raw bytes. */
  type Bytes = seq<bv8>

  /** Go represents a status as a string, so a client may ask for a text that is none of the five. */
  datatype Status = Pending | Running | Stopped | Failed | Finished | OtherStatus(text: string)

  /** Durations and instants are unbounded integers on one clock. */
  datatype Spec = Spec(image: string, command: string, ttl: int)

  datatype Session = Session(
    id: string,
    owner: string,
    createdAt: int,
    deletedAt: Option<int>,
    status: Status,
    spec: Spec
  )

  datatype EventType =
    | SessionStart
    | SessionRunning
    | SessionEnd
    | SessionStopped
    | SessionFailed
    | SessionCleanup
    | OtherEvent(text: string)

  /** The payload of an event is the encoding of a spec, or bytes that do not decode to one. */
  datatype Event = Event(session: string, kind: EventType, payload: Option<Spec>)

  datatype Packet = Packet(headers: map<string, string>, events: seq<Event>)

  /** A frame on the wire: bytes that do not parse, or the encoding of a packet. */
  datatype Frame = Garbage(raw: Bytes) | Encoded(packet: Packet)
}
