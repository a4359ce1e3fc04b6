/** What parking is: one binary token.  `unpark` puts it there and says whether it was
    missing; a park that is skipped or woken takes it; a park times out only without it. */
module ParkToken {
  datatype ParkResult = Skipped | TimedOut | Unparked

  datatype Label = Quiet | Unpark(first: bool) | Park(result: ParkResult)

  predicate Step(token: bool, l: Label, token': bool) {
    match l
    case Quiet => token' == token
    case Unpark(first) => token' && first == !token
    case Park(TimedOut) => !token && !token'
    case Park(_) => token && !token'
  }

  predicate Takes(r: ParkResult) { r != TimedOut }

  // How a call of `park` went: it did not get as far as waiting, it waited, its time ran out.
  datatype Course = Direct | Waited | RanOut

  predicate Tells(r: ParkResult, c: Course) {
    match r
    case Skipped => c == Direct
    case Unparked => c != Direct
    case TimedOut => c == RanOut
  }
}
