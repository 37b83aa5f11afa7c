/** Small shared datatypes: an optional value, and what can become of a request sent to another machine. */
module Options {

  datatype Option<+T> = None | Some(value: T)

  /** The three fates of a statement sent to Redis or Postgres: it took effect and the reply arrived;
      it took effect but the caller sees an error because the reply was lost; it had no effect. */
  datatype Outcome = Done | LostReply | NotDone {
    predicate Applied() {
      this != NotDone
    }

    predicate Error() {
      this != Done
    }
  }
}
