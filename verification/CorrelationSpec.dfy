/** Request and response over a one-way bus. Every section under the table lock,
    every channel operation and every outcome of the final wait is one atomic step,
    so a run is one interleaving of requesters and consumers. */
module CorrelationSpec {
  import opened Common

  /** A message by its correlation id; a missing or non-string id is empty. */
  datatype Message = Message(correlation: string, body: Body)

  datatype Outcome = Got(message: Message) | PublishFailed | Cancelled | TimedOut

  /** Where a request stands; `Returning` has yet to run its deferred clean-up. */
  datatype Phase = Publishing | Waiting | Returning(outcome: Outcome) | Finished(outcome: Outcome)

  /** A request with its reply channel. `claimed` holds the messages a consumer has
      taken for it and not yet put into the channel. */
  datatype Request = Request(id: string, phase: Phase, claimed: seq<Message>, channel: seq<Message>)

  /** The messages as they came in, between the starts of the requests. */
  datatype Event = Began(id: string) | Arrived(message: Message)

  datatype State = State(
    requests: seq<Request>, pending: map<string, nat>,
    handled: seq<Message>, dropped: seq<Message>, log: seq<Event>)

  const INITIAL := State([], map[], [], [], [])

  const CAPACITY := 1

  datatype Step =
    | Begin(id: string)
    | Publish(r: nat, ok: bool)
    | Arrive(message: Message)
    | Offer(r: nat, k: nat)
    | Receive(r: nat)
    | GiveUp(r: nat, cancelled: bool)
    | CleanUp(r: nat)

  function With(s: State, r: nat, q: Request): State
    requires r < |s.requests|
  {
    s.(requests := s.requests[r := q])
  }

  function NewRequest(id: string): Request {
    Request(id, Publishing, [], [])
  }

  function DoBegin(s: State, id: string): State {
    s.(requests := s.requests + [NewRequest(id)],
       pending := s.pending[id := |s.requests|],
       log := s.log + [Began(id)])
  }

  /** A consumer takes the table entry of the message's id, or hands the message to
      the handler of its topic. */
  function DoArrive(s: State, m: Message): State {
    var s1 := s.(log := s.log + [Arrived(m)]);
    if m.correlation != "" && m.correlation in s.pending && s.pending[m.correlation] < |s.requests| then
      var r := s.pending[m.correlation];
      With(s1, r, s.requests[r].(claimed := s.requests[r].claimed + [m])).(pending := s.pending - {m.correlation})
    else s1.(handled := s.handled + [m])
  }

  /** The non-blocking send: a full channel loses the message. */
  function DoOffer(s: State, r: nat, k: nat): State
    requires r < |s.requests| && k < |s.requests[r].claimed|
  {
    var q := s.requests[r];
    var m, q1 := q.claimed[k], q.(claimed := q.claimed[..k] + q.claimed[k + 1..]);
    if |q.channel| < CAPACITY then With(s, r, q1.(channel := q.channel + [m]))
    else With(s, r, q1).(dropped := s.dropped + [m])
  }

  function DoCleanUp(s: State, r: nat): State
    requires r < |s.requests| && s.requests[r].phase.Returning?
  {
    var q := s.requests[r];
    With(s, r, q.(phase := Finished(q.phase.outcome))).(pending := s.pending - {q.id})
  }

  /** A step that is not possible in a state leaves it as it is. */
  function Next(s: State, t: Step): State {
    match t
    case Begin(id) => DoBegin(s, id)
    case Arrive(m) => DoArrive(s, m)
    case Publish(r, ok) =>
      if r < |s.requests| && s.requests[r].phase.Publishing?
      then With(s, r, s.requests[r].(phase := if ok then Waiting else Returning(PublishFailed))) else s
    case Offer(r, k) =>
      if r < |s.requests| && k < |s.requests[r].claimed| then DoOffer(s, r, k) else s
    case Receive(r) =>
      if r < |s.requests| && s.requests[r].phase.Waiting? && s.requests[r].channel != []
      then With(s, r, s.requests[r].(phase := Returning(Got(s.requests[r].channel[0])), channel := s.requests[r].channel[1..]))
      else s
    case GiveUp(r, cancelled) =>
      if r < |s.requests| && s.requests[r].phase.Waiting?
      then With(s, r, s.requests[r].(phase := Returning(if cancelled then Cancelled else TimedOut))) else s
    case CleanUp(r) =>
      if r < |s.requests| && s.requests[r].phase.Returning? then DoCleanUp(s, r) else s
  }

  function After(s: State, h: seq<Step>): State
    decreases |h|
  {
    if h == [] then s else Next(After(s, h[..|h| - 1]), h[|h| - 1])
  }
}
