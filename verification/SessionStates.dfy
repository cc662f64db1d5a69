/** The session states that cross the boundary (rust-core/src/event.rs). */
module SessionStates {
  datatype Life = Idle | Connecting | Connected | Disconnecting | Disconnected | Failed
}
